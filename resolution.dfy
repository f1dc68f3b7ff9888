/**
 * Resolution of a nominal range under the probe attenuation: the range the
 * front end must be set to so that the nominal range at the probe tip fits.
 * The crate calls it as `into_range(attenuation)` when pushing a channel and
 * as `mv(attenuation)` when converting; its body is not part of this model,
 * so every operation takes it as a `Resolver`, and nothing is assumed of it
 * beyond what each lemma states. `DocumentedResolve` is the documented design
 * intent, given so that the intent can be checked against the range table.
 */
module Resolution {
  import opened Wrappers
  import opened Ranges
  import opened Attenuations

  /** A range resolution: `None` means the range cannot be reached under the attenuation. */
  type Resolver = (Range, Attenuation) -> Option<Range>

  predicate Resolves(resolve: Resolver, r: Range, a: Attenuation)
  {
    resolve(r, a).Some?
  }

  function Resolved(resolve: Resolver, r: Range, a: Attenuation): Range
    requires Resolves(resolve, r, a)
  {
    resolve(r, a).value
  }

  /** Without a probe divider, a range resolves to itself. */
  ghost predicate IdentityAtX1(resolve: Resolver)
  {
    forall r :: resolve(r, X1) == Some(r)
  }

  /** Whatever resolves keeps the full-scale voltage at the probe tip. */
  ghost predicate PreservesFullScale(resolve: Resolver)
  {
    forall r, a :: resolve(r, a).Some? ==> Mv(resolve(r, a).value) * Value(a) == Mv(r)
  }

  /**
   * The documented intent: ×1 is the identity; ×10 moves one decade down
   * (three positions); the 10, 20 and 50 mV ranges have no ×10 equivalent.
   */
  function DocumentedResolve(r: Range, a: Attenuation): (res: Option<Range>)
    ensures a == X1 ==> res == Some(r)
    ensures a == X10 ==> (res.None? <==> Ordinal(r) < 3)
    ensures res.Some? ==> Mv(res.value) * Value(a) == Mv(r)
  {
    if a == X1 then Some(r)
    else if Ordinal(r) < 3 then None
    else
      MvDecade(Ordinal(r) - 3);
      Some(AllRanges[Ordinal(r) - 3])
  }

  lemma DocumentedResolveIsSound()
    ensures IdentityAtX1(DocumentedResolve)
    ensures PreservesFullScale(DocumentedResolve)
  {
    forall r, a | DocumentedResolve(r, a).Some?
      ensures Mv(DocumentedResolve(r, a).value) * Value(a) == Mv(r)
    {
    }
  }

  /** Exactly the three smallest ranges fail under the documented resolution, and only under ×10. */
  lemma DocumentedFailures(r: Range, a: Attenuation)
    ensures DocumentedResolve(r, a).None? <==> a == X10 && r in {Range10mv, Range20mv, Range50mv}
  {
  }
}
