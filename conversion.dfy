/**
 * The ADC-code/millivolt conversions of ps4000.rs (`convert_adc_to_mv`,
 * `convert_mv_to_adc`), in exact arithmetic over `real`: the f64 rounding and
 * the saturating `as i16` cast of the source are not modelled. The full scale
 * is that of the resolved range, and the attenuation factor is applied once.
 */
module Conversion {
  import opened Ps4000Api
  import opened Wrappers
  import opened Ranges
  import opened Attenuations
  import opened Resolution

  /** `range.mv(attenuation).unwrap()`: the full scale of the resolved range (the unwrap panics otherwise). */
  function FullScaleMv(resolve: Resolver, range: Range, att: Attenuation): (mv: int)
    requires Resolves(resolve, range, att)
    ensures 10 <= mv <= 100000
  {
    Mv(Resolved(resolve, range, att))
  }

  /** The last steps of `convert_adc_to_mv`: the product, as a float, over the maximum code, times the attenuation. */
  function Scale(product: int, att: Attenuation): (v: real)
    ensures v == 0.0 <==> product == 0
    ensures v > 0.0 <==> product > 0
  {
    product as real / PS4262_MAX_VALUE as real * Value(att) as real
  }

  /** `convert_adc_to_mv`, with the product `raw * mv` taken exactly. */
  function AdcToMv(raw: int, att: Attenuation, range: Range, resolve: Resolver): (v: real)
    requires Resolves(resolve, range, att)
    ensures v == 0.0 <==> raw == 0
    ensures v > 0.0 <==> raw > 0
  {
    Scale(raw * FullScaleMv(resolve, range, att), att)
  }

  /** `convert_mv_to_adc`, before the cast to i16. */
  function MvToAdc(mv: real, att: Attenuation, range: Range, resolve: Resolver): (c: real)
    requires Resolves(resolve, range, att)
    ensures c == 0.0 <==> mv == 0.0
    ensures c > 0.0 <==> mv > 0.0
  {
    mv / Value(att) as real * PS4262_MAX_VALUE as real / FullScaleMv(resolve, range, att) as real
  }

  /** Converting a code to millivolts and back gives the code again. */
  lemma AdcRoundTrip(raw: int, att: Attenuation, range: Range, resolve: Resolver)
    requires Resolves(resolve, range, att)
    ensures MvToAdc(AdcToMv(raw, att, range, resolve), att, range, resolve) == raw as real
  {
    var m := FullScaleMv(resolve, range, att) as real;
    var v := AdcToMv(raw, att, range, resolve);
    assert v == raw as real * m / PS4262_MAX_VALUE as real * Value(att) as real;
    CancelScale(raw as real, m, PS4262_MAX_VALUE as real, Value(att) as real);
  }

  /** Scaling by m / k * f and then by k / (f * m) cancels out. */
  lemma CancelScale(x: real, m: real, k: real, f: real)
    requires m > 0.0 && k > 0.0 && f > 0.0
    ensures (x * m / k * f) / f * k / m == x
  {
    var y := x * m / k;
    assert y * f / f == y;
    assert y * k == x * m;
    assert x * m / m == x;
  }

  /** The full-scale code reads as the full scale of the resolved range times the attenuation. */
  lemma FullScaleReading(att: Attenuation, range: Range, resolve: Resolver)
    requires Resolves(resolve, range, att)
    ensures AdcToMv(PS4262_MAX_VALUE, att, range, resolve) == (FullScaleMv(resolve, range, att) * Value(att)) as real
  {
  }

  /** A ×10 reading is ten times the ×1 reading on the range it resolves to. */
  lemma AttenuationScaling(raw: int, range: Range, resolve: Resolver)
    requires IdentityAtX1(resolve) && Resolves(resolve, range, X10)
    ensures Resolves(resolve, Resolved(resolve, range, X10), X1)
    ensures AdcToMv(raw, X10, range, resolve)
         == 10.0 * AdcToMv(raw, X1, Resolved(resolve, range, X10), resolve)
  {
    var hw := Resolved(resolve, range, X10);
    assert resolve(hw, X1) == Some(hw);
  }

  /** With a resolution that keeps the full scale, a reading is the code scaled to the nominal range. */
  lemma NominalScale(raw: int, att: Attenuation, range: Range, resolve: Resolver)
    requires PreservesFullScale(resolve) && Resolves(resolve, range, att)
    ensures AdcToMv(raw, att, range, resolve) == (raw * Mv(range)) as real / PS4262_MAX_VALUE as real
  {
    var m := FullScaleMv(resolve, range, att);
    assert m * Value(att) == Mv(range);
    assert (raw * m) as real * Value(att) as real == (raw * Mv(range)) as real by {
      assert raw * m * Value(att) == raw * (m * Value(att));
    }
  }

  /** `convert_adc_to_mv` as written: `raw as i32 * mv` in 32-bit arithmetic (wrapping, as in a release build). */
  function AdcToMvAsWritten(raw: I16, att: Attenuation, range: Range, resolve: Resolver): (v: real)
    requires Resolves(resolve, range, att)
    ensures -0x8000_0000 <= raw * FullScaleMv(resolve, range, att) <= I32_MAX ==> v == AdcToMv(raw, att, range, resolve)
  {
    Scale(WrapI32(raw * FullScaleMv(resolve, range, att)), att)
  }

  /** The as-written conversion is exact precisely when the product fits in an i32. */
  lemma AsWrittenExactIffFits(raw: I16, att: Attenuation, range: Range, resolve: Resolver)
    requires Resolves(resolve, range, att)
    ensures AdcToMvAsWritten(raw, att, range, resolve) == AdcToMv(raw, att, range, resolve)
        <==> -0x8000_0000 <= raw * FullScaleMv(resolve, range, att) <= I32_MAX
  {
    var p := raw * FullScaleMv(resolve, range, att);
    ScaleInjective(WrapI32(p) as real, p as real, PS4262_MAX_VALUE as real, Value(att) as real);
  }

  lemma ScaleInjective(x: real, y: real, k: real, f: real)
    requires k > 0.0 && f > 0.0
    ensures x / k * f == y / k * f <==> x == y
  {
    if x / k * f == y / k * f {
      assert x == (x / k * f) / f * k;
      assert y == (y / k * f) / f * k;
    }
  }

  /** Every range below 100 V keeps the product of any i16 code within i32. */
  lemma ProductFitsBelow100V(raw: I16, att: Attenuation, range: Range, resolve: Resolver)
    requires Resolves(resolve, range, att) && FullScaleMv(resolve, range, att) <= 50000
    ensures -0x8000_0000 <= raw * FullScaleMv(resolve, range, att) <= I32_MAX
  {
    var m := FullScaleMv(resolve, range, att);
    if raw >= 0 {
      assert raw * m <= 0x7FFF * m <= 0x7FFF * 50000;
    } else {
      assert raw * m >= -0x8000 * m >= -0x8000 * 50000;
    }
  }

  /** A full-scale positive code on the 100 V range under ×1 reads negative as written. */
  lemma AsWrittenOverflowsAt100V()
    ensures Resolves(DocumentedResolve, Range100v, X1)
    ensures AdcToMvAsWritten(32767, X1, Range100v, DocumentedResolve) < 0.0
    ensures AdcToMv(32767, X1, Range100v, DocumentedResolve) > 0.0
  {
    assert FullScaleMv(DocumentedResolve, Range100v, X1) == 100000;
    assert WrapI32(32767 * 100000) == 3276700000 - 0x1_0000_0000;
  }
}
