/** `SimpleMeasurementCalculator.calculate` (`measurement/SimpleMeasurementCalculator.ts`):
    the result of a simple weighing session. Only NaN corrected values are
    ignored (zero and negative values are kept); the trim and statistics are
    those of the manual session, the band uses the caller's k95 (2 by
    default) and the relative error is the band over |fixedValue| in percent. */
module SimpleMeasurementCalculator {
  import opened Numeric
  import opened Sorting
  import opened Trimming
  import opened MathUtils
  import opened RootTypes
  import opened SessionStats

  /** The default coverage factor of the call. */
  const DEFAULT_K95: real := 2.0

  /** The corrected values that are not NaN, in list order. */
  function FiniteValues(ms: seq<SimpleMeasurement>): (r: seq<real>)
    ensures |r| <= |ms|
  {
    if ms == [] then []
    else (if ms[0].correctedValue.Finite? then [ms[0].correctedValue.value] else []) + FiniteValues(ms[1..])
  }

  /** The value `v` is kept exactly when some non-NaN reading carries it. */
  lemma {:induction false} FiniteValuesMembers(ms: seq<SimpleMeasurement>, v: real)
    ensures v in FiniteValues(ms) <==> exists m :: m in ms && m.correctedValue == Finite(v)
  {
    if ms != [] {
      FiniteValuesMembers(ms[1..], v);
      assert forall m :: m in ms <==> m == ms[0] || m in ms[1..];
    }
  }

  /** Each non-NaN reading contributes its value once, in list order: the
      filter distributes over concatenation, and a single reading
      contributes its value exactly when it is not NaN. */
  lemma {:induction false} FiniteValuesAppend(a: seq<SimpleMeasurement>, b: seq<SimpleMeasurement>)
    ensures FiniteValues(a + b) == FiniteValues(a) + FiniteValues(b)
    ensures forall m :: FiniteValues([m]) == if m.correctedValue.Finite? then [m.correctedValue.value] else []
  {
    FiniteValuesConcat(a, b);
    forall m ensures FiniteValues([m]) == if m.correctedValue.Finite? then [m.correctedValue.value] else [] {
      assert [m][1..] == [];
    }
  }

  lemma {:induction false} FiniteValuesConcat(a: seq<SimpleMeasurement>, b: seq<SimpleMeasurement>)
    ensures FiniteValues(a + b) == FiniteValues(a) + FiniteValues(b)
  {
    if a == [] {
      assert a + b == b;
    } else {
      var head := if a[0].correctedValue.Finite? then [a[0].correctedValue.value] else [];
      assert (a + b)[0] == a[0] && (a + b)[1..] == a[1..] + b;
      FiniteValuesConcat(a[1..], b);
      calc {
        FiniteValues(a + b);
        head + FiniteValues(a[1..] + b);
        head + (FiniteValues(a[1..]) + FiniteValues(b));
        (head + FiniteValues(a[1..])) + FiniteValues(b);
      }
    }
  }

  /** `fixedValue !== 0 ? (errorBand95 / Math.abs(fixedValue)) * 100 : 0` */
  function RelativeError(errorBand95: real, fixedValue: real): real
  {
    if fixedValue != 0.0 then errorBand95 / Abs(fixedValue) * 100.0 else 0.0
  }

  /** The relative error is zero for a zero central value; otherwise it is
      the band as a percentage of |fixedValue|, and never negative for a
      non-negative band. */
  lemma {:induction false} RelativeErrorMeaning(errorBand95: real, fixedValue: real)
    ensures fixedValue == 0.0 ==> RelativeError(errorBand95, fixedValue) == 0.0
    ensures fixedValue != 0.0 ==> RelativeError(errorBand95, fixedValue) * Abs(fixedValue) == 100.0 * errorBand95
    ensures 0.0 <= errorBand95 ==> 0.0 <= RelativeError(errorBand95, fixedValue)
  {
    if fixedValue != 0.0 {
      var q := errorBand95 / Abs(fixedValue);
      assert q * Abs(fixedValue) == errorBand95;
    }
  }

  /** The notes, in the order the source pushes them. */
  function Notes(nTotal: nat, drop: int): seq<Note>
  {
    (if nTotal < 3 then [LowSampleCountUnstable] else []) +
    (if drop > 0 then [TrimmedOutliers(drop * 2)] else [])
  }

  /** A low-count note exactly when fewer than three readings were given and
      a trim note reporting 2·drop exactly when something was trimmed. */
  lemma {:induction false} NotesContents(nTotal: nat, drop: int)
    ensures var notes := Notes(nTotal, drop);
      && (LowSampleCountUnstable in notes <==> nTotal < 3)
      && ((exists c :: TrimmedOutliers(c) in notes) <==> drop > 0)
      && (drop > 0 ==> TrimmedOutliers(2 * drop) in notes)
      && LowSampleCount !in notes
      && (forall c :: InvalidIgnored(c) !in notes)
      && |notes| <= 2
  {
    var notes := Notes(nTotal, drop);
    if drop <= 0 {
      assert forall c :: TrimmedOutliers(c) !in notes;
    }
  }

  /** `SimpleMeasurementCalculator.calculate`. The sort of the non-NaN
      readings by corrected value, mapped to the values, is the ascending
      sort of the values. */
  function Calculate(measurements: seq<SimpleMeasurement>, lockedBias: real, lockedTareUnc95: real,
                     trimFraction: real, k95: real, sqrt: real -> real): SimpleMeasurementResult
    requires IsSqrt(sqrt)
  {
    var x := SortAsc(FiniteValues(measurements));
    var st := Stats(x, trimFraction, lockedTareUnc95, sqrt);
    var band := Band(k95, st.total);
    SimpleMeasurementResult(
      |measurements|, measurements, lockedBias, lockedTareUnc95, st.tareSigma, st.mean, st.median,
      st.mean, st.fixedValue, st.stdDev, st.stdError, st.total, band,
      RelativeError(band, st.fixedValue), |measurements|, |st.xtrim|, trimFraction,
      Confidence(|st.xtrim|), Notes(|measurements|, st.drop))
  }

  /** The inputs come back unchanged, and both counts are the length of the
      list. */
  lemma {:induction false} CalculatePassesInputs(ms: seq<SimpleMeasurement>, b: real, u: real, f: real, k95: real, sqrt: real -> real)
    requires IsSqrt(sqrt)
    ensures var r := Calculate(ms, b, u, f, k95, sqrt);
      && r.measurements == ms && r.measurementCount == |ms| && r.nTotal == |ms|
      && r.bias == b && r.tareUncertainty95 == u && r.trimFraction == f
      && r.trimmedMean == r.mean && r.confidence == Confidence(r.nTrim)
  {
  }

  /** The kept values are a run of the ascending non-NaN values: at least one
      of them whenever some reading is not NaN, and for a fraction of at
      least zero the floor of f·n values off each end (none when that would
      leave nothing). */
  lemma {:induction false} CalculateKept(ms: seq<SimpleMeasurement>, b: real, u: real, f: real, k95: real, sqrt: real -> real)
    requires IsSqrt(sqrt)
    ensures var r, x := Calculate(ms, b, u, f, k95, sqrt), SortAsc(FiniteValues(ms));
      var xtrim, drop := Kept(x, f), GuardedTrimCount(f, |x|);
      && r.nTrim == |xtrim| <= |x| <= r.nTotal
      && (1 <= r.nTrim <==> exists m :: m in ms && m.correctedValue.Finite?)
      && (exists lo, hi :: 0 <= lo <= hi <= |x| && xtrim == x[lo..hi])
      && (0.0 <= f ==> drop == TrimCount(f, |x|) && r.nTrim == |x| - 2 * drop)
  {
    var x := SortAsc(FiniteValues(ms));
    KeptRun(x, f);
    if |x| >= 1 {
      FiniteValuesMembers(ms, FiniteValues(ms)[0]);
    } else {
      forall m | m in ms && m.correctedValue.Finite? ensures false {
        FiniteValuesMembers(ms, m.correctedValue.value);
      }
    }
  }

  /** Every kept value is the corrected value of some non-NaN reading. */
  lemma {:induction false} KeptFromReadings(ms: seq<SimpleMeasurement>, f: real, v: real)
    requires v in Kept(SortAsc(FiniteValues(ms)), f)
    ensures exists m :: m in ms && m.correctedValue == Finite(v)
  {
    KeptMembers(SortAsc(FiniteValues(ms)), f, v);
    assert v in multiset(FiniteValues(ms));
    FiniteValuesMembers(ms, v);
  }

  /** How the result is assembled from the shared statistics of the kept
      values, the caller's k95 and the relative error. */
  lemma {:induction false} CalculateShape(ms: seq<SimpleMeasurement>, b: real, u: real, f: real, k95: real, sqrt: real -> real)
    requires IsSqrt(sqrt)
    ensures var r, x := Calculate(ms, b, u, f, k95, sqrt), SortAsc(FiniteValues(ms));
      var st := Stats(x, f, u, sqrt);
      && r.nTrim == |st.xtrim|
      && r.mean == st.mean && r.median == st.median && r.fixedValue == st.fixedValue
      && r.stdDev == st.stdDev && r.stdError == st.stdError && r.tareSigma == st.tareSigma
      && r.totalUncertainty1Sigma == st.total
      && r.errorBand95 == Band(k95, r.totalUncertainty1Sigma)
      && r.relativeError95 == RelativeError(r.errorBand95, r.fixedValue)
      && r.notes == Notes(r.nTotal, st.drop)
  {
  }

  /** The call with its defaults (trim fraction 0.10, k95 = 2): the band is
      twice the total uncertainty, and a session of fewer than ten non-NaN
      readings keeps all of them. */
  lemma {:induction false} DefaultCall(ms: seq<SimpleMeasurement>, b: real, u: real, sqrt: real -> real)
    requires IsSqrt(sqrt)
    ensures var r := Calculate(ms, b, u, DEFAULT_TRIM_FRACTION, DEFAULT_K95, sqrt);
      && r.trimFraction == 0.10
      && r.errorBand95 == 2.0 * r.totalUncertainty1Sigma
      && (|FiniteValues(ms)| < 10 ==> r.nTrim == |FiniteValues(ms)|)
  {
    var x := SortAsc(FiniteValues(ms));
    CalculateShape(ms, b, u, DEFAULT_TRIM_FRACTION, DEFAULT_K95, sqrt);
    CalculateKept(ms, b, u, DEFAULT_TRIM_FRACTION, DEFAULT_K95, sqrt);
    DefaultTrimCount(|x|);
  }

  /** What a caller may rely on in the simple result: the fixed value lies
      between the least and the greatest kept value (0 with nothing kept);
      the spread and the standard error are not negative; the total covers
      both the standard error and the tare sigma, which is half of T95; and
      with a factor of at least one the band covers the total and the
      relative error is not negative. */
  lemma {:induction false} CalculateMeaning(ms: seq<SimpleMeasurement>, b: real, u: real, f: real, k95: real, sqrt: real -> real)
    requires IsSqrt(sqrt)
    ensures var r, xtrim := Calculate(ms, b, u, f, k95, sqrt), Kept(SortAsc(FiniteValues(ms)), f);
      && r.nTrim == |xtrim|
      && (1 <= |xtrim| ==> xtrim[0] <= r.fixedValue <= xtrim[|xtrim| - 1])
      && (|xtrim| == 0 ==> r.fixedValue == 0.0)
      && 0.0 <= r.stdDev && 0.0 <= r.stdError <= r.totalUncertainty1Sigma
      && 2.0 * r.tareSigma == u && Abs(r.tareSigma) <= r.totalUncertainty1Sigma
      && (1.0 <= k95 ==> r.totalUncertainty1Sigma <= r.errorBand95 && 0.0 <= r.relativeError95)
  {
    var r, x := Calculate(ms, b, u, f, k95, sqrt), SortAsc(FiniteValues(ms));
    CalculateShape(ms, b, u, f, k95, sqrt);
    StatsBounds(x, f, u, sqrt);
    if 1.0 <= k95 {
      BandBounds(k95, k95, r.totalUncertainty1Sigma);
      RelativeErrorMeaning(r.errorBand95, r.fixedValue);
    }
  }
}
