/** `SessionCalculator.calculate` (`measurement/SessionCalculator.ts`): the
    result of one manual session of the older generation. Readings whose
    corrected value is NaN or not positive are ignored; the rest go through
    the shared trim and statistics, and the 95% band uses the n-keyed
    k-factor of the kept count. */
module SessionCalculator {
  import opened Numeric
  import opened Sorting
  import opened Trimming
  import opened MathUtils
  import opened RootTypes
  import opened SessionStats
  import RootKFactor

  /** `!isNaN(m.correctedValue) && m.correctedValue > 0` */
  predicate IsValid(m: ManualMeasurement)
  {
    m.correctedValue.Finite? && m.correctedValue.value > 0.0
  }

  /** The corrected values of the valid readings, in list order. */
  function ValidValues(ms: seq<ManualMeasurement>): (r: seq<real>)
    ensures |r| <= |ms|
    ensures forall i :: 0 <= i < |r| ==> r[i] > 0.0
  {
    if ms == [] then []
    else (if IsValid(ms[0]) then [ms[0].correctedValue.value] else []) + ValidValues(ms[1..])
  }

  /** The value `v` is kept exactly when some valid reading carries it. */
  lemma {:induction false} ValidValuesMembers(ms: seq<ManualMeasurement>, v: real)
    ensures v in ValidValues(ms) <==> exists m :: m in ms && IsValid(m) && m.correctedValue.value == v
  {
    if ms != [] {
      ValidValuesMembers(ms[1..], v);
      assert forall m :: m in ms <==> m == ms[0] || m in ms[1..];
    }
  }

  /** Each valid reading contributes its value once, in list order: the
      filter distributes over concatenation, and a single reading
      contributes its value exactly when it is valid. */
  lemma {:induction false} ValidValuesAppend(a: seq<ManualMeasurement>, b: seq<ManualMeasurement>)
    ensures ValidValues(a + b) == ValidValues(a) + ValidValues(b)
    ensures forall m :: ValidValues([m]) == if IsValid(m) then [m.correctedValue.value] else []
  {
    ValidValuesConcat(a, b);
    forall m ensures ValidValues([m]) == if IsValid(m) then [m.correctedValue.value] else [] {
      assert [m][1..] == [];
    }
  }

  lemma {:induction false} ValidValuesConcat(a: seq<ManualMeasurement>, b: seq<ManualMeasurement>)
    ensures ValidValues(a + b) == ValidValues(a) + ValidValues(b)
  {
    if a == [] {
      assert a + b == b;
    } else {
      var head := if IsValid(a[0]) then [a[0].correctedValue.value] else [];
      assert (a + b)[0] == a[0] && (a + b)[1..] == a[1..] + b;
      ValidValuesConcat(a[1..], b);
      calc {
        ValidValues(a + b);
        head + ValidValues(a[1..] + b);
        head + (ValidValues(a[1..]) + ValidValues(b));
        (head + ValidValues(a[1..])) + ValidValues(b);
      }
    }
  }

  /** No reading ignored exactly when every reading is valid. */
  lemma {:induction false} ValidValuesAll(ms: seq<ManualMeasurement>)
    ensures |ValidValues(ms)| == |ms| <==> forall i :: 0 <= i < |ms| ==> IsValid(ms[i])
  {
    if ms != [] {
      ValidValuesAll(ms[1..]);
      assert forall i :: 1 <= i < |ms| ==> ms[i] == ms[1..][i - 1];
      if !IsValid(ms[0]) {
        assert |ValidValues(ms)| == |ValidValues(ms[1..])| <= |ms[1..]|;
      }
    }
  }

  /** The notes, in the order the source pushes them. */
  function Notes(nTotal: nat, nValid: nat, drop: int): seq<Note>
  {
    (if nTotal < 3 then [LowSampleCount] else []) +
    (if drop > 0 then [TrimmedOutliers(drop * 2)] else []) +
    (if nValid < nTotal then [InvalidIgnored(nTotal - nValid)] else [])
  }

  /** `SessionCalculator.calculate`. The sort of the valid readings by
      corrected value, mapped to the values, is the ascending sort of the
      values. */
  function Calculate(kind: SessionKind, measurements: seq<ManualMeasurement>, lockedBias: real,
                     lockedTareUnc95: real, trimFraction: real, sqrt: real -> real): SessionResult
    requires IsSqrt(sqrt)
  {
    var x := SortAsc(ValidValues(measurements));
    var st := Stats(x, trimFraction, lockedTareUnc95, sqrt);
    var nTrim := |st.xtrim|;
    SessionResult(
      kind, measurements, |measurements|, nTrim, trimFraction, lockedBias, lockedTareUnc95,
      st.tareSigma, st.mean, st.median, st.mean, st.fixedValue, st.stdDev, st.stdError, st.total,
      Band(RootKFactor.TableKFactor(nTrim), st.total), Confidence(nTrim),
      Notes(|measurements|, |x|, st.drop))
  }

  /** The inputs come back unchanged, and the counts are those of the list. */
  lemma {:induction false} CalculatePassesInputs(kind: SessionKind, ms: seq<ManualMeasurement>, b: real, u: real, f: real, sqrt: real -> real)
    requires IsSqrt(sqrt)
    ensures var r := Calculate(kind, ms, b, u, f, sqrt);
      && r.kind == kind && r.measurements == ms && r.nTotal == |ms|
      && r.bias == b && r.tareUncertainty95 == u && r.trimFraction == f
      && r.trimmedMean == r.mean && r.confidence == Confidence(r.nTrim)
  {
  }

  /** The kept values are a run of the ascending valid values: at least one
      of them whenever some reading is valid, and for a fraction of at least
      zero the floor of f·n valid values off each end (none when that would
      leave nothing). */
  lemma {:induction false} CalculateKept(kind: SessionKind, ms: seq<ManualMeasurement>, b: real, u: real, f: real, sqrt: real -> real)
    requires IsSqrt(sqrt)
    ensures var r, x := Calculate(kind, ms, b, u, f, sqrt), SortAsc(ValidValues(ms));
      var xtrim, drop := Kept(x, f), GuardedTrimCount(f, |x|);
      && r.nTrim == |xtrim| <= |x| <= r.nTotal
      && (1 <= r.nTrim <==> exists m :: m in ms && IsValid(m))
      && (exists lo, hi :: 0 <= lo <= hi <= |x| && xtrim == x[lo..hi])
      && (0.0 <= f ==> drop == TrimCount(f, |x|) && r.nTrim == |x| - 2 * drop)
  {
    var x := SortAsc(ValidValues(ms));
    KeptRun(x, f);
    if |x| >= 1 {
      ValidValuesMembers(ms, ValidValues(ms)[0]);
    } else {
      forall m | m in ms && IsValid(m) ensures false {
        ValidValuesMembers(ms, m.correctedValue.value);
      }
    }
  }

  /** How the result is assembled from the shared statistics of the kept
      values. */
  lemma {:induction false} CalculateShape(kind: SessionKind, ms: seq<ManualMeasurement>, b: real, u: real, f: real, sqrt: real -> real)
    requires IsSqrt(sqrt)
    ensures var r, x := Calculate(kind, ms, b, u, f, sqrt), SortAsc(ValidValues(ms));
      var st := Stats(x, f, u, sqrt);
      && r.nTrim == |st.xtrim|
      && r.mean == st.mean && r.median == st.median && r.fixedValue == st.fixedValue
      && r.stdDev == st.stdDev && r.stdError == st.stdError && r.tareSigma == st.tareSigma
      && r.totalUncertainty1Sigma == st.total
      && r.errorBand95 == Band(RootKFactor.TableKFactor(r.nTrim), r.totalUncertainty1Sigma)
      && r.notes == Notes(r.nTotal, |x|, st.drop)
  {
  }

  /** Every kept value is above zero and is the corrected value of some
      valid reading. */
  lemma {:induction false} KeptPositive(ms: seq<ManualMeasurement>, f: real, v: real)
    requires v in Kept(SortAsc(ValidValues(ms)), f)
    ensures 0.0 < v && exists m :: m in ms && IsValid(m) && m.correctedValue.value == v
  {
    var x := SortAsc(ValidValues(ms));
    KeptMembers(x, f, v);
    assert v in multiset(ValidValues(ms));
    ValidValuesMembers(ms, v);
  }

  /** Some reading is ignored exactly when fewer values than readings are
      valid. */
  lemma {:induction false} IgnoredReadings(ms: seq<ManualMeasurement>)
    ensures |SortAsc(ValidValues(ms))| < |ms| <==> exists m :: m in ms && !IsValid(m)
  {
    ValidValuesAll(ms);
    if |ValidValues(ms)| < |ms| {
      var i :| 0 <= i < |ms| && !IsValid(ms[i]);
      assert ms[i] in ms;
    }
  }

  /** A low-count note exactly when fewer than three readings were given, a
      trim note reporting 2·drop exactly when something was trimmed, and an
      invalid note reporting the ignored count exactly when a reading was
      ignored; never more than three notes. */
  lemma {:induction false} NotesContents(nTotal: nat, nValid: nat, drop: int)
    requires nValid <= nTotal
    ensures var notes := Notes(nTotal, nValid, drop);
      && (LowSampleCount in notes <==> nTotal < 3)
      && ((exists c :: TrimmedOutliers(c) in notes) <==> drop > 0)
      && (drop > 0 ==> TrimmedOutliers(2 * drop) in notes)
      && ((exists c :: InvalidIgnored(c) in notes) <==> nValid < nTotal)
      && (nValid < nTotal ==> InvalidIgnored(nTotal - nValid) in notes)
      && |notes| <= 3
  {
    var notes := Notes(nTotal, nValid, drop);
    if nValid == nTotal {
      assert forall c :: InvalidIgnored(c) !in notes;
    }
    if drop <= 0 {
      assert forall c :: TrimmedOutliers(c) !in notes;
    }
  }

  /** The call with its default trim fraction of 0.10: fewer than ten valid
      readings are all kept, and from ten on the floor of a tenth of them
      goes off each end. */
  lemma {:induction false} DefaultCall(kind: SessionKind, ms: seq<ManualMeasurement>, b: real, u: real, sqrt: real -> real)
    requires IsSqrt(sqrt)
    ensures var r, n := Calculate(kind, ms, b, u, DEFAULT_TRIM_FRACTION, sqrt), |ValidValues(ms)|;
      && r.trimFraction == 0.10
      && (n < 10 ==> r.nTrim == n)
      && (10 <= n ==> r.nTrim == n - 2 * TrimShare(DEFAULT_TRIM_FRACTION, n) < n)
  {
    CalculateKept(kind, ms, b, u, DEFAULT_TRIM_FRACTION, sqrt);
    CalculatePassesInputs(kind, ms, b, u, DEFAULT_TRIM_FRACTION, sqrt);
    DefaultTrimCount(|SortAsc(ValidValues(ms))|);
  }

  /** What a caller may rely on in the session result: the fixed value lies
      between the least and the greatest kept value and is positive (0 with
      nothing kept); the spread and the standard error are not negative; the
      total covers both the standard error and the tare sigma, which is half
      of T95; and the 95% band covers the total. */
  lemma {:induction false} CalculateMeaning(kind: SessionKind, ms: seq<ManualMeasurement>, b: real, u: real, f: real, sqrt: real -> real)
    requires IsSqrt(sqrt)
    ensures var r, xtrim := Calculate(kind, ms, b, u, f, sqrt), Kept(SortAsc(ValidValues(ms)), f);
      && r.nTrim == |xtrim|
      && (1 <= |xtrim| ==> xtrim[0] <= r.fixedValue <= xtrim[|xtrim| - 1] && 0.0 < r.fixedValue)
      && (|xtrim| == 0 ==> r.fixedValue == 0.0)
      && 0.0 <= r.stdDev && 0.0 <= r.stdError <= r.totalUncertainty1Sigma
      && 2.0 * r.tareSigma == u && Abs(r.tareSigma) <= r.totalUncertainty1Sigma
      && r.totalUncertainty1Sigma <= r.errorBand95
  {
    var r, x := Calculate(kind, ms, b, u, f, sqrt), SortAsc(ValidValues(ms));
    var xtrim := Kept(x, f);
    CalculateShape(kind, ms, b, u, f, sqrt);
    StatsBounds(x, f, u, sqrt);
    if 1 <= |xtrim| {
      KeptPositive(ms, f, xtrim[0]);
    }
    RootKFactor.TableKFactorRange(r.nTrim);
    BandBounds(RootKFactor.TableKFactor(r.nTrim), RootKFactor.TableKFactor(r.nTrim), r.totalUncertainty1Sigma);
  }
}
