/** `RatioCalculator.calculate` (`measurement/RatioCalculator.ts`): the loss
    ratio R = (Wb - Wf)/Wb between the fixed values of a base and a final
    session, its 1-sigma uncertainty by first-order propagation of the two
    sessions' total uncertainties, and the 95% band with the n-keyed k-factor
    of the smaller kept count. A base weight of zero or less gives the
    degenerate result. */
module RatioCalculator {
  import opened Numeric
  import opened RootTypes
  import opened SessionStats
  import RootKFactor

  /** `(Wb - Wf) / Wb` */
  function Ratio(wb: real, wf: real): real
    requires wb != 0.0
  {
    (wb - wf) / wb
  }

  /** `Wf / Wb²·σb` and `1/Wb·σf`: the two terms of the propagation. */
  function BaseTerm(wb: real, wf: real, sigmaWb: real): real
    requires wb != 0.0
  {
    wf / (wb * wb) * sigmaWb
  }

  function FinalTerm(wb: real, sigmaWf: real): real
    requires wb != 0.0
  {
    1.0 / wb * sigmaWf
  }

  /** `sqrt(term1² + term2²)` */
  function PropagatedSigma(wb: real, wf: real, sigmaWb: real, sigmaWf: real, sqrt: real -> real): real
    requires wb != 0.0 && IsSqrt(sqrt)
  {
    Quadrature(BaseTerm(wb, wf, sigmaWb), FinalTerm(wb, sigmaWf), sqrt)
  }

  /** `(errorBand95Percent / Math.abs(percent)) * 100`; JavaScript answers
      Infinity or NaN for a zero percent, and the model answers None. */
  function RelativePercent(bandPercent: real, percent: real): Option<real>
  {
    if percent == 0.0 then None else Some(bandPercent / Abs(percent) * 100.0)
  }

  /** `if (nEff < 3) notes.push(...)` */
  function Notes(nEff: int): seq<Note>
  {
    if nEff < 3 then [LowEffectiveSampleSize] else []
  }

  /** `RatioCalculator.calculate`. */
  function Calculate(base: SessionResult, final: SessionResult, sqrt: real -> real): RatioResult
    requires IsSqrt(sqrt)
  {
    var wb, wf := base.fixedValue, final.fixedValue;
    if wb <= 0.0 then
      RatioResult(base, final, 0.0, 0.0, 0.0, 0.0, 0.0, Some(0.0), 2.0, 0, [BaseNotPositive])
    else
      var ratio := Ratio(wb, wf);
      var sigma := PropagatedSigma(wb, wf, base.totalUncertainty1Sigma, final.totalUncertainty1Sigma, sqrt);
      var nEff := MinInt(base.nTrim, final.nTrim);
      var k95 := RootKFactor.TableKFactor(nEff);
      var band := Band(k95, sigma);
      RatioResult(base, final, ratio, 100.0 * ratio, sigma, band, 100.0 * band,
                  RelativePercent(100.0 * band, 100.0 * ratio), k95, nEff, Notes(nEff))
  }

  /** The ratio undoes the loss: R·Wb = Wb - Wf, so R = 1 - Wf/Wb; it is zero
      exactly when nothing was lost, and a final weight between zero and the
      base weight gives a ratio between zero and one. */
  lemma {:induction false} RatioMeaning(wb: real, wf: real)
    requires 0.0 < wb
    ensures Ratio(wb, wf) * wb == wb - wf
    ensures Ratio(wb, wf) == 1.0 - wf / wb
    ensures Ratio(wb, wf) == 0.0 <==> wf == wb
    ensures 0.0 <= wf <= wb ==> 0.0 <= Ratio(wb, wf) <= 1.0
  {
    var r, q := Ratio(wb, wf), wf / wb;
    assert r * wb == wb - wf;
    assert q * wb == wf;
    var d := r - (1.0 - q);
    assert d * wb == 0.0;
    assert d == d * wb / wb;
    if 0.0 <= wf <= wb {
      DivByPositive(wb - wf, wb);
    }
  }

  /** The propagated sigma is the non-negative root of term1² + term2²,
      where term1·Wb² = Wf·σb and term2·Wb = σf. */
  lemma {:induction false} SigmaMeaning(wb: real, wf: real, sigmaWb: real, sigmaWf: real, sqrt: real -> real)
    requires 0.0 < wb && IsSqrt(sqrt)
    ensures var s, t1, t2 := PropagatedSigma(wb, wf, sigmaWb, sigmaWf, sqrt), BaseTerm(wb, wf, sigmaWb), FinalTerm(wb, sigmaWf);
      && 0.0 <= s && s * s == t1 * t1 + t2 * t2
      && Abs(t1) <= s && Abs(t2) <= s
      && t1 * (wb * wb) == wf * sigmaWb && t2 * wb == sigmaWf
  {
    var t1, t2 := BaseTerm(wb, wf, sigmaWb), FinalTerm(wb, sigmaWf);
    QuadratureBounds(t1, t2, sqrt);
    var w2 := wb * wb;
    assert 0.0 < w2;
    assert wf / w2 * w2 == wf;
    assert t1 * w2 == wf * sigmaWb;
    assert 1.0 / wb * wb == 1.0;
    assert t2 * wb == sigmaWf;
  }

  /** The relative error is None exactly at a zero percent; otherwise it is
      the band as a percentage of |percent|, never negative for a band that
      is not. */
  lemma {:induction false} RelativePercentMeaning(bandPercent: real, percent: real)
    ensures RelativePercent(bandPercent, percent).None? <==> percent == 0.0
    ensures percent != 0.0 ==> RelativePercent(bandPercent, percent).value * Abs(percent) == 100.0 * bandPercent
    ensures percent != 0.0 && 0.0 <= bandPercent ==> 0.0 <= RelativePercent(bandPercent, percent).value
  {
    if percent != 0.0 {
      var q := bandPercent / Abs(percent);
      assert q * Abs(percent) == bandPercent;
    }
  }

  /** A base weight of zero or less gives zeros, k95 = 2, nEff = 0 and the
      single base-weight note, whatever the final session. */
  lemma {:induction false} CalculateDegenerate(base: SessionResult, final: SessionResult, sqrt: real -> real)
    requires IsSqrt(sqrt) && base.fixedValue <= 0.0
    ensures var r := Calculate(base, final, sqrt);
      && r.wBase == base && r.wFinal == final
      && r.ratio == 0.0 && r.percent == 0.0 && r.sigmaRatio1Sigma == 0.0
      && r.errorBand95Ratio == 0.0 && r.errorBand95Percent == 0.0
      && r.relativeErrorPercent95 == Some(0.0) && r.k95 == 2.0 && r.nEff == 0
      && r.notes == [BaseNotPositive]
  {
  }

  /** For a positive base weight: the ratio, its sigma and its relative
      error come from the two fixed values and total uncertainties; nEff is
      the smaller kept count and k95 its k-factor; the low-size note is
      given exactly when nEff is below three. */
  lemma {:induction false} CalculateShape(base: SessionResult, final: SessionResult, sqrt: real -> real)
    requires IsSqrt(sqrt) && 0.0 < base.fixedValue
    ensures var r := Calculate(base, final, sqrt);
      && r.wBase == base && r.wFinal == final
      && r.ratio == Ratio(base.fixedValue, final.fixedValue) && r.percent == 100.0 * r.ratio
      && r.sigmaRatio1Sigma == PropagatedSigma(base.fixedValue, final.fixedValue,
                                               base.totalUncertainty1Sigma, final.totalUncertainty1Sigma, sqrt)
      && r.nEff <= base.nTrim && r.nEff <= final.nTrim && (r.nEff == base.nTrim || r.nEff == final.nTrim)
      && r.k95 == RootKFactor.TableKFactor(r.nEff)
      && r.errorBand95Ratio == Band(r.k95, r.sigmaRatio1Sigma)
      && r.errorBand95Percent == 100.0 * r.errorBand95Ratio
      && r.relativeErrorPercent95 == RelativePercent(r.errorBand95Percent, r.percent)
      && r.notes == Notes(r.nEff)
  {
  }

  /** For a positive base weight the band is never narrower than the 1-sigma
      ratio uncertainty, with a factor between 1.96 and 12.706. */
  lemma {:induction false} BandCovers(base: SessionResult, final: SessionResult, sqrt: real -> real)
    requires IsSqrt(sqrt) && 0.0 < base.fixedValue
    ensures var r := Calculate(base, final, sqrt);
      && 0.0 <= r.sigmaRatio1Sigma <= r.errorBand95Ratio
      && 1.96 <= r.k95 <= 12.706
  {
    var r := Calculate(base, final, sqrt);
    CalculateShape(base, final, sqrt);
    SigmaMeaning(base.fixedValue, final.fixedValue, base.totalUncertainty1Sigma, final.totalUncertainty1Sigma, sqrt);
    RootKFactor.TableKFactorRange(r.nEff);
    BandBounds(r.k95, r.k95, r.sigmaRatio1Sigma);
  }

  /** The low-size note is the only note, given exactly when nEff < 3. */
  lemma {:induction false} NotesContents(nEff: int)
    ensures (LowEffectiveSampleSize in Notes(nEff)) <==> nEff < 3
    ensures |Notes(nEff)| <= 1 && BaseNotPositive !in Notes(nEff)
  {
  }

  /** What a caller may rely on in the ratio result for a positive base
      weight: R·Wb = Wb − Wf and the percent is 100·R, between 0 and 100 when
      the final weight lies between zero and the base weight; the relative
      error is missing exactly when nothing was lost; nEff is the smaller of
      the two kept counts; and the low-size note is given exactly when nEff
      is below three. */
  lemma {:induction false} CalculateMeaning(base: SessionResult, final: SessionResult, sqrt: real -> real)
    requires IsSqrt(sqrt) && 0.0 < base.fixedValue
    ensures var r, wb, wf := Calculate(base, final, sqrt), base.fixedValue, final.fixedValue;
      && r.ratio * wb == wb - wf && r.percent == 100.0 * r.ratio
      && (0.0 <= wf <= wb ==> 0.0 <= r.percent <= 100.0)
      && (r.relativeErrorPercent95.None? <==> wf == wb)
      && r.nEff <= base.nTrim && r.nEff <= final.nTrim && (r.nEff == base.nTrim || r.nEff == final.nTrim)
      && (LowEffectiveSampleSize in r.notes <==> r.nEff < 3)
  {
    var r := Calculate(base, final, sqrt);
    CalculateShape(base, final, sqrt);
    RatioMeaning(base.fixedValue, final.fixedValue);
    RelativePercentMeaning(r.errorBand95Percent, r.percent);
    NotesContents(r.nEff);
  }
}
