/** range.rs: the thirteen nominal input ranges, their driver codes and their full-scale values. */
module Ranges {
  import opened Ps4000Api

  datatype Range =
    | Range10mv | Range20mv | Range50mv | Range100mv | Range200mv | Range500mv
    | Range1v | Range2v | Range5v | Range10v | Range20v | Range50v | Range100v

  /** Every range, in declaration order. */
  const AllRanges: seq<Range> := [
    Range10mv, Range20mv, Range50mv, Range100mv, Range200mv, Range500mv,
    Range1v, Range2v, Range5v, Range10v, Range20v, Range50v, Range100v]

  /** The position of a range in declaration order. */
  function Ordinal(r: Range): (i: nat)
    ensures i < |AllRanges| && AllRanges[i] == r
  {
    match r
    case Range10mv => 0
    case Range20mv => 1
    case Range50mv => 2
    case Range100mv => 3
    case Range200mv => 4
    case Range500mv => 5
    case Range1v => 6
    case Range2v => 7
    case Range5v => 8
    case Range10v => 9
    case Range20v => 10
    case Range50v => 11
    case Range100v => 12
  }

  /** `From<Range> for PS4000_RANGE`: each range goes to the driver constant of the same name. */
  function RangeToHardware(r: Range): (hw: HwRange)
    ensures RangeCode(hw) == Ordinal(r)
  {
    match r
    case Range10mv => Hw10mV
    case Range20mv => Hw20mV
    case Range50mv => Hw50mV
    case Range100mv => Hw100mV
    case Range200mv => Hw200mV
    case Range500mv => Hw500mV
    case Range1v => Hw1V
    case Range2v => Hw2V
    case Range5v => Hw5V
    case Range10v => Hw10V
    case Range20v => Hw20V
    case Range50v => Hw50V
    case Range100v => Hw100V
  }

  /** Distinct ranges have distinct driver codes. */
  lemma RangeToHardwareInjective(r1: Range, r2: Range)
    ensures RangeToHardware(r1) == RangeToHardware(r2) <==> r1 == r2
  {
    assert RangeToHardware(r1) == RangeToHardware(r2) ==> Ordinal(r1) == Ordinal(r2);
  }

  /** `Range::mv`: the full-scale value in millivolts, total over all ranges. */
  function Mv(r: Range): (mv: int)
    ensures 10 <= mv <= 100000
  {
    match r
    case Range10mv => 10
    case Range20mv => 20
    case Range50mv => 50
    case Range100mv => 100
    case Range200mv => 200
    case Range500mv => 500
    case Range1v => 1000
    case Range2v => 2000
    case Range5v => 5000
    case Range10v => 10000
    case Range20v => 20000
    case Range50v => 50000
    case Range100v => 100000
  }

  /** The full-scale value rises strictly with the declaration order. */
  lemma MvStrictlyIncreasing(r1: Range, r2: Range)
    ensures Ordinal(r1) < Ordinal(r2) <==> Mv(r1) < Mv(r2)
  {
  }

  /** The 1-2-5 progression: three positions up is one decade up. */
  lemma MvDecade(i: nat)
    requires i + 3 < |AllRanges|
    ensures Mv(AllRanges[i + 3]) == 10 * Mv(AllRanges[i])
  {
  }
}
