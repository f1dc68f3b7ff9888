/** attenuation.rs: the external probe attenuation, ×1 or ×10. */
module Attenuations {

  datatype Attenuation = X1 | X10

  /** The factor the probe divides the input by, so the factor readings are multiplied back up by. */
  function Value(a: Attenuation): (v: nat)
    ensures v >= 1
    ensures v == 1 <==> a == X1
    ensures v == 10 <==> a == X10
  {
    match a
    case X1 => 1
    case X10 => 10
  }

  /** ×10 is ten times ×1. */
  lemma TenfoldFactor()
    ensures Value(X10) == 10 * Value(X1)
  {
  }
}
