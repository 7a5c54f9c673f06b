/** The measurement session of the newer generation
    (`src/session/MeasurementSession.ts`): readings corrected by the tare
    model in force when each was taken (a constant bias, or b + k·az under
    the regression model with a snapshot), and `calculateResult`, which trims
    the ascending corrected values, takes the trimmed mean or the median, and
    combines the standard error with the model's 1-sigma tare. Ids come from
    the caller. */
module SrcMeasurementSession {
  import opened Numeric
  import opened Sorting
  import opened Trimming
  import opened MathUtils
  import opened SrcTypes
  import opened IdList
  import opened SessionStats
  import SrcKFactor

  /** The bias `addMeasurement` subtracts: b + k·az under the regression
      model when the reading has a snapshot and the model a slope, the
      model's bias otherwise. */
  function BiasUsed(model: TareModel, snapshot: Option<ImuSnapshot>): real
  {
    if model.tareMethod == ImuRegression && snapshot.Some? && model.slopeK.Some? then
      model.bias + model.slopeK.value * snapshot.value.az
    else model.bias
  }

  /** The record `addMeasurement` appends. */
  function Corrected(value: real, model: TareModel, snapshot: Option<ImuSnapshot>, id: string): Measurement
  {
    var biasUsed := BiasUsed(model, snapshot);
    Measurement(id, value, snapshot, biasUsed, value - biasUsed)
  }

  /** Under the regression model a reading with a snapshot is corrected to
      its residual against the fitted line; under the basic model (or with no
      snapshot, or no slope) to the reading less the constant bias. Either way
      the raw reading is the adjusted value plus the bias used. */
  lemma {:induction false} CorrectedMeaning(value: real, model: TareModel, snapshot: Option<ImuSnapshot>, id: string)
    ensures var m := Corrected(value, model, snapshot, id);
      && m.id == id && m.rawReading == value && m.snapshot == snapshot
      && m.rawReading == m.adjustedValue + m.modelBiasUsed
      && (model.tareMethod == ImuRegression && snapshot.Some? && model.slopeK.Some? ==>
            m.adjustedValue == Residual(value, snapshot.value.az, model.bias, model.slopeK.value))
      && (model.tareMethod == Basic || snapshot.None? || model.slopeK.None? ==>
            m.modelBiasUsed == model.bias && m.adjustedValue == value - model.bias)
  {
  }

  /** `measurements.map(m => m.adjustedValue)` */
  function AdjustedValues(ms: seq<Measurement>): (r: seq<real>)
    ensures |r| == |ms| && forall i :: 0 <= i < |r| ==> r[i] == ms[i].adjustedValue
  {
    seq(|ms|, i requires 0 <= i < |ms| => ms[i].adjustedValue)
  }

  /** `nTrim > 0 ? stdDev / Math.sqrt(nTrim) : 0` */
  function SessionStdError(stdDev: real, n: nat, sqrt: real -> real): real
    requires IsSqrt(sqrt)
  {
    if n > 0 then stdDev / sqrt(n as real) else 0.0
  }

  /** The spread of the kept values and its combination with the tare. */
  datatype Spread = Spread(stdDev: real, stdError: real, tareSigma: real, total: real)

  /** Steps 4 to 6 of `calculateResult`: sample standard deviation, standard
      error and the total 1-sigma uncertainty with the tare sigma. */
  function SpreadOf(trimmed: seq<real>, tareSigma: real, sqrt: real -> real): Spread
    requires IsSqrt(sqrt)
  {
    var stdDev := CalculateStdDev(trimmed, CalculateMean(trimmed), sqrt);
    var stdError := SessionStdError(stdDev, |trimmed|, sqrt);
    Spread(stdDev, stdError, tareSigma, Quadrature(stdError, tareSigma, sqrt))
  }

  /** The result computed from the kept values `trimmed`. */
  function ResultFromTrimmed(ms: seq<Measurement>, trimmed: seq<real>, model: TareModel, k: real, sqrt: real -> real): SessionResult
    requires IsSqrt(sqrt)
  {
    var nTrim := |trimmed|;
    var sp := SpreadOf(trimmed, model.tareUncertainty, sqrt);
    SessionResult(ms, if nTrim >= 3 then CalculateMean(trimmed) else CalculateMedian(trimmed), nTrim,
                  sp.stdDev, sp.stdError, sp.tareSigma, sp.total, k, Band(k, sp.total), model.bias)
  }

  /** The values `calculateResult` keeps of the ascending values `x`. */
  function SessionKept(x: seq<real>, f: real): seq<real>
  {
    Trimmed(x, TrimCount(f, |x|))
  }

  /** What `calculateResult` returns for the readings `ms`. */
  function ResultOf(ms: seq<Measurement>, model: TareModel, trimFraction: real, sqrt: real -> real): SessionResult
    requires IsSqrt(sqrt)
  {
    var kept := SessionKept(SortAsc(AdjustedValues(ms)), trimFraction);
    ResultFromTrimmed(ms, kept, model, SrcKFactor.GetKFactorFromN(|kept|), sqrt)
  }

  /** The kept values are a run of the ascending adjusted values, at least
      one whenever there is a reading, and for a fraction of at least zero
      the floor of f·n values off each end (none when that would leave
      nothing). */
  lemma {:induction false} SessionKeptRun(x: seq<real>, f: real)
    requires Sorted(x)
    ensures var xtrim := SessionKept(x, f);
      && Sorted(xtrim)
      && (exists lo, hi :: 0 <= lo <= hi <= |x| && xtrim == x[lo..hi])
      && (1 <= |x| <==> 1 <= |xtrim|)
      && (0.0 <= f ==> 0 <= TrimCount(f, |x|) && |xtrim| == |x| - 2 * TrimCount(f, |x|) &&
                       xtrim == x[TrimCount(f, |x|)..|x| - TrimCount(f, |x|)])
  {
    var d := TrimCount(f, |x|);
    TrimmedIsRun(x, d);
    if 1 <= |x| {
      TrimKeepsOne(x, f);
    }
    if 0.0 <= f {
      TrimCountBounds(f, |x|);
      TrimmedMiddle(x, d);
    }
  }

  /** The result keeps the readings and the model's bias, and is built from
      the kept ascending adjusted values. */
  lemma {:induction false} ResultShape(ms: seq<Measurement>, model: TareModel, f: real, sqrt: real -> real)
    requires IsSqrt(sqrt)
    ensures var r, xtrim := ResultOf(ms, model, f, sqrt), SessionKept(SortAsc(AdjustedValues(ms)), f);
      && r == ResultFromTrimmed(ms, xtrim, model, SrcKFactor.GetKFactorFromN(|xtrim|), sqrt)
      && r.measurements == ms && r.bias == model.bias && r.nTrim == |xtrim|
      && r.kFactor == SrcKFactor.GetKFactorFromN(r.nTrim) && 1.96 <= r.kFactor <= 12.706
  {
    var xtrim := SessionKept(SortAsc(AdjustedValues(ms)), f);
    SrcKFactor.KFactorFromNMonotone(|xtrim|, |xtrim|);
  }

  /** Central value: the trimmed mean from three kept values on, else their
      median (0 for none); it lies between the least and the greatest kept
      value. */
  lemma {:induction false} ResultCentral(ms: seq<Measurement>, trimmed: seq<real>, model: TareModel, k: real, sqrt: real -> real)
    requires IsSqrt(sqrt)
    ensures var r := ResultFromTrimmed(ms, trimmed, model, k, sqrt);
      && r.fixedValue == (if |trimmed| >= 3 then CalculateMean(trimmed) else CalculateMedian(trimmed))
      && (|trimmed| == 0 ==> r.fixedValue == 0.0)
      && (|trimmed| >= 1 ==> Min(trimmed) <= r.fixedValue <= Max(trimmed))
  {
    if |trimmed| >= 1 {
      SortedEnds(trimmed);
      SortOfSorted(SortAsc(trimmed));
      MeanBounds(trimmed);
    }
  }

  /** The standard error of a non-negative spread over n values: zero for
      none, and otherwise its square times n is the squared spread. */
  lemma {:induction false} SessionStdErrorSquare(stdDev: real, n: nat, sqrt: real -> real)
    requires IsSqrt(sqrt) && 0.0 <= stdDev
    ensures 0.0 <= SessionStdError(stdDev, n, sqrt)
    ensures n == 0 ==> SessionStdError(stdDev, n, sqrt) == 0.0
    ensures n >= 1 ==> SessionStdError(stdDev, n, sqrt) * SessionStdError(stdDev, n, sqrt) * n as real == stdDev * stdDev
  {
    if n >= 1 {
      QuotientByRoot(stdDev, sqrt(n as real), n as real);
    }
  }

  /** Spread: the spread and the standard error vanish below two kept
      values; from two on the squared spread is Σ(v - mean)²/(n - 1), and
      from one on the squared standard error times n is the squared
      spread. */
  lemma {:induction false} SpreadMeaning(trimmed: seq<real>, tareSigma: real, sqrt: real -> real)
    requires IsSqrt(sqrt)
    ensures var sp, n := SpreadOf(trimmed, tareSigma, sqrt), |trimmed|;
      && 0.0 <= sp.stdDev && 0.0 <= sp.stdError && sp.tareSigma == tareSigma
      && (n < 2 ==> sp.stdDev == 0.0 && sp.stdError == 0.0)
      && (n >= 2 ==> sp.stdDev * sp.stdDev == SumSqDev(trimmed, CalculateMean(trimmed), n) / (n - 1) as real)
      && (n >= 1 ==> sp.stdError * sp.stdError * n as real == sp.stdDev * sp.stdDev)
  {
    SessionStdErrorSquare(SpreadOf(trimmed, tareSigma, sqrt).stdDev, |trimmed|, sqrt);
  }

  /** Total: the non-negative root of stdError² + tareSigma², at least each
      of the two. */
  lemma {:induction false} TotalMeaning(trimmed: seq<real>, tareSigma: real, sqrt: real -> real)
    requires IsSqrt(sqrt)
    ensures var sp := SpreadOf(trimmed, tareSigma, sqrt);
      && 0.0 <= sp.total && sp.total * sp.total == sp.stdError * sp.stdError + tareSigma * tareSigma
      && sp.stdError <= sp.total && Abs(tareSigma) <= sp.total
  {
    var sp := SpreadOf(trimmed, tareSigma, sqrt);
    SessionStdErrorSquare(sp.stdDev, |trimmed|, sqrt);
    QuadratureBounds(sp.stdError, tareSigma, sqrt);
  }

  /** The result's spread, tare sigma and total are those of the kept
      values, with the model's 1-sigma tare. */
  lemma {:induction false} ResultSpread(ms: seq<Measurement>, trimmed: seq<real>, model: TareModel, k: real, sqrt: real -> real)
    requires IsSqrt(sqrt)
    ensures var r, sp := ResultFromTrimmed(ms, trimmed, model, k, sqrt), SpreadOf(trimmed, model.tareUncertainty, sqrt);
      && r.stdDev == sp.stdDev && r.stdError == sp.stdError
      && r.tareSigma == model.tareUncertainty && r.sigmaTotal == sp.total
  {
  }

  /** Band: the factor times the total; with a factor of at least one it is
      never narrower than the total. */
  lemma {:induction false} ResultBand(ms: seq<Measurement>, trimmed: seq<real>, model: TareModel, k: real, sqrt: real -> real)
    requires IsSqrt(sqrt) && 1.0 <= k
    ensures var r := ResultFromTrimmed(ms, trimmed, model, k, sqrt);
      && r.kFactor == k && r.errorBand95 == Band(r.kFactor, r.sigmaTotal) && r.sigmaTotal <= r.errorBand95
  {
    var r := ResultFromTrimmed(ms, trimmed, model, k, sqrt);
    TotalMeaning(trimmed, model.tareUncertainty, sqrt);
    BandBounds(k, k, r.sigmaTotal);
  }

  /** What a caller may rely on in the session result: the spread and the
      standard error are not negative and vanish below two kept values; the
      total covers both the standard error and the model's tare sigma; and
      the 95% band covers the total. */
  lemma {:induction false} ResultUncertainty(ms: seq<Measurement>, model: TareModel, f: real, sqrt: real -> real)
    requires IsSqrt(sqrt)
    ensures var r := ResultOf(ms, model, f, sqrt);
      && 0.0 <= r.stdDev && 0.0 <= r.stdError <= r.sigmaTotal
      && (r.nTrim < 2 ==> r.stdDev == 0.0 && r.stdError == 0.0)
      && r.tareSigma == model.tareUncertainty && Abs(r.tareSigma) <= r.sigmaTotal
      && r.sigmaTotal <= r.errorBand95
  {
    var xtrim := SessionKept(SortAsc(AdjustedValues(ms)), f);
    var k := SrcKFactor.GetKFactorFromN(|xtrim|);
    ResultShape(ms, model, f, sqrt);
    ResultSpread(ms, xtrim, model, k, sqrt);
    SpreadMeaning(xtrim, model.tareUncertainty, sqrt);
    TotalMeaning(xtrim, model.tareUncertainty, sqrt);
    ResultBand(ms, xtrim, model, k, sqrt);
  }

  /** The trim of `calculateResult` on the ascending values. */
  method TrimValues(values: seq<real>, trimFraction: real) returns (trimmed: seq<real>)
    ensures trimmed == SessionKept(values, trimFraction)
  {
    var n := |values|;
    var trimCount := (trimFraction * n as real).Floor;
    assert trimCount == TrimShare(trimFraction, n);
    if n - 2 * trimCount < 1 {
      trimCount := 0;
    }
    trimmed := JsSlice(values, trimCount, n - trimCount);
  }

  /** The statistics of `calculateResult` on the kept values. */
  method SummarizeKept(ms: seq<Measurement>, trimmed: seq<real>, model: TareModel, sqrt: real -> real)
    returns (result: SessionResult)
    requires IsSqrt(sqrt)
    ensures result == ResultFromTrimmed(ms, trimmed, model, SrcKFactor.GetKFactorFromN(|trimmed|), sqrt)
  {
    var nTrim := |trimmed|;
    var mean := CalculateMean(trimmed);
    var median := CalculateMedian(trimmed);
    var fixedValue := if nTrim >= 3 then mean else median;
    var stdDev := CalculateStdDev(trimmed, mean, sqrt);
    var stdError := if nTrim > 0 then stdDev / sqrt(nTrim as real) else 0.0;
    var tareSigma := model.tareUncertainty;
    var sigmaTotal := Quadrature(stdError, tareSigma, sqrt);
    var kFactor := SrcKFactor.GetKFactorFromN(nTrim);
    result := SessionResult(ms, fixedValue, nTrim, stdDev, stdError, tareSigma, sigmaTotal,
                            kFactor, Band(kFactor, sigmaTotal), model.bias);
    assert result == ResultFromTrimmed(ms, trimmed, model, kFactor, sqrt);
  }

  class MeasurementSession {
    var measurements: seq<Measurement>

    /** Every stored reading is its adjusted value plus the bias used. */
    predicate Consistent()
      reads this
    {
      forall i :: 0 <= i < |measurements| ==>
        measurements[i].rawReading == measurements[i].adjustedValue + measurements[i].modelBiasUsed
    }

    constructor()
      ensures measurements == [] && Consistent()
    {
      measurements := [];
    }

    /** `addMeasurement`: appends the reading corrected by the model and
        returns a copy of the list. */
    method AddMeasurement(value: real, model: TareModel, snapshot: Option<ImuSnapshot>, id: string)
      returns (r: seq<Measurement>)
      modifies this
      ensures measurements == old(measurements) + [Corrected(value, model, snapshot, id)]
      ensures r == measurements
      ensures old(Consistent()) ==> Consistent()
    {
      var biasUsed := model.bias;
      var adjusted := value - biasUsed;
      if model.tareMethod == ImuRegression && snapshot.Some? && model.slopeK.Some? {
        biasUsed := model.bias + model.slopeK.value * snapshot.value.az;
        adjusted := value - biasUsed;
      }
      var m := Measurement(id, value, snapshot, biasUsed, adjusted);
      assert m == Corrected(value, model, snapshot, id);
      assert m.rawReading == m.adjustedValue + m.modelBiasUsed;
      measurements := measurements + [m];
      r := measurements;
    }

    /** `removeMeasurement`: drops every reading with that id and returns a
        copy. */
    method RemoveMeasurement(id: string) returns (r: seq<Measurement>)
      modifies this
      ensures measurements == Without(old(measurements), MeasurementId, id)
      ensures r == measurements
      ensures old(Consistent()) ==> Consistent()
    {
      measurements := Without(measurements, MeasurementId, id);
      if old(Consistent()) {
        forall i | 0 <= i < |measurements|
          ensures measurements[i].rawReading == measurements[i].adjustedValue + measurements[i].modelBiasUsed
        {
          assert measurements[i] in old(measurements);
          var j :| 0 <= j < |old(measurements)| && old(measurements)[j] == measurements[i];
        }
      }
      r := measurements;
    }

    /** `calculateResult` over the current readings. */
    method CalculateResult(model: TareModel, trimFraction: real, sqrt: real -> real) returns (result: SessionResult)
      requires IsSqrt(sqrt)
      ensures result == ResultOf(measurements, model, trimFraction, sqrt)
    {
      var values := SortAsc(AdjustedValues(measurements));
      var trimmed := TrimValues(values, trimFraction);
      result := SummarizeKept(measurements, trimmed, model, sqrt);
    }

    method Clear()
      modifies this
      ensures measurements == [] && Consistent()
    {
      measurements := [];
    }
  }
}
