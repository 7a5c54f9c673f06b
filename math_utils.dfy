/** The statistics primitives of `src/utils/math.ts`: mean, median, Bessel-
    corrected standard deviation, and the least-squares fit of tare reading
    against vertical acceleration. */
module MathUtils {
  import opened Numeric
  import opened Sorting
  import opened SrcTypes

  /** Left-to-right sum, as `reduce((sum, v) => sum + v, 0)`. */
  function Sum(s: seq<real>): real
  {
    if |s| == 0 then 0.0 else Sum(s[..|s| - 1]) + s[|s| - 1]
  }

  lemma {:induction false} SumBounds(s: seq<real>, lo: real, hi: real)
    requires forall i :: 0 <= i < |s| ==> lo <= s[i] <= hi
    ensures |s| as real * lo <= Sum(s) <= |s| as real * hi
  {
    if |s| > 0 {
      SumBounds(s[..|s| - 1], lo, hi);
    }
  }

  /** `calculateMean`: 0 for an empty list, else the sum over the length. */
  function CalculateMean(values: seq<real>): real
  {
    if |values| == 0 then 0.0 else Sum(values) / |values| as real
  }

  /** The mean of a non-empty list lies between its extremes. */
  lemma {:induction false} MeanBounds(values: seq<real>)
    requires |values| > 0
    ensures Min(values) <= CalculateMean(values) <= Max(values)
  {
    MeanBetween(values, Min(values), Max(values));
  }

  lemma {:induction false} MeanBetween(s: seq<real>, lo: real, hi: real)
    requires |s| > 0 && forall i :: 0 <= i < |s| ==> lo <= s[i] <= hi
    ensures lo <= Sum(s) / |s| as real <= hi
  {
    SumBounds(s, lo, hi);
    DivBounds(Sum(s), |s| as real, lo, hi);
  }

  /** The median rule applied to an already sorted list: the middle element
      for an odd length, the average of the two middle elements otherwise. */
  function MedianOfSorted(s: seq<real>): (m: real)
    ensures |s| == 0 ==> m == 0.0
    ensures Sorted(s) && |s| > 0 ==> s[0] <= m <= s[|s| - 1]
    ensures |s| % 2 == 1 ==> m in s
  {
    if |s| == 0 then 0.0
    else if |s| % 2 != 0 then s[|s| / 2]
    else (s[|s| / 2 - 1] + s[|s| / 2]) / 2.0
  }

  /** `calculateMedian`: the median of an ascending copy (the input itself
      is a value and stays as it is). */
  function CalculateMedian(values: seq<real>): (m: real)
    ensures |values| == 0 ==> m == 0.0
    ensures |values| > 0 ==> Min(values) <= m <= Max(values)
    ensures |values| % 2 == 1 ==> m in values
  {
    var sorted := SortAsc(values);
    var m := MedianOfSorted(sorted);
    assert m in sorted ==> m in multiset(values);
    if |values| > 0 then SortedEnds(values); m else m
  }

  /** The median does not depend on the order of the values. */
  lemma {:induction false} MedianOrderInvariant(a: seq<real>, b: seq<real>)
    requires multiset(a) == multiset(b)
    ensures CalculateMedian(a) == CalculateMedian(b)
  {
    SortPermutationInvariant(a, b);
  }

  /** On an already sorted list the extra sort is the identity. */
  lemma {:induction false} MedianOfSortedInput(s: seq<real>)
    requires Sorted(s)
    ensures CalculateMedian(s) == MedianOfSorted(s)
  {
    SortOfSorted(s);
  }

  /** Sum of the squared deviations from `m` of the first `n` values. */
  function SumSqDev(s: seq<real>, m: real, n: nat): real
    requires n <= |s|
  {
    if n == 0 then 0.0
    else SumSqDev(s, m, n - 1) + (s[n - 1] - m) * (s[n - 1] - m)
  }

  lemma {:induction false} SumSqDevNonNegative(s: seq<real>, m: real, n: nat)
    requires n <= |s|
    ensures 0.0 <= SumSqDev(s, m, n)
  {
    if n > 0 {
      SumSqDevNonNegative(s, m, n - 1);
      SquareNonNegative(s[n - 1] - m);
    }
  }

  /** `calculateStdDev`: 0 below two values, else the Bessel-corrected
      root of the mean squared deviation. */
  function CalculateStdDev(values: seq<real>, mean: real, sqrt: real -> real): (r: real)
    requires IsSqrt(sqrt)
    ensures 0.0 <= r
    ensures |values| < 2 ==> r == 0.0
    ensures |values| >= 2 ==> r * r == SumSqDev(values, mean, |values|) / (|values| - 1) as real
  {
    if |values| < 2 then 0.0
    else
      SumSqDevNonNegative(values, mean, |values|);
      sqrt(SumSqDev(values, mean, |values|) / (|values| - 1) as real)
  }

  // ---------------------------------------------------------------------
  // Regression t = b + k*az over the samples that carry a snapshot.

  datatype Fit = Fit(b: real, k: real, sigmaEps: real, r2: Num)

  /** `samples.filter(s => s.snapshot !== undefined)` */
  function WithSnapshot(samples: seq<TareSample>): (r: seq<TareSample>)
    ensures |r| <= |samples|
    ensures forall i :: 0 <= i < |r| ==> r[i].snapshot.Some?
  {
    if samples == [] then []
    else (if samples[0].snapshot.Some? then [samples[0]] else []) + WithSnapshot(samples[1..])
  }

  function Values(v: seq<TareSample>): (t: seq<real>)
    ensures |t| == |v| && forall i :: 0 <= i < |v| ==> t[i] == v[i].value
  {
    seq(|v|, i requires 0 <= i < |v| => v[i].value)
  }

  function Azs(v: seq<TareSample>): (z: seq<real>)
    requires forall i :: 0 <= i < |v| ==> v[i].snapshot.Some?
    ensures |z| == |v| && forall i :: 0 <= i < |v| ==> z[i] == v[i].snapshot.value.az
  {
    seq(|v|, i requires 0 <= i < |v| => v[i].snapshot.value.az)
  }

  /** Sum of the products of deviations over the first `n` pairs,
      Σ (z - mz)(t - mt). */
  function CrossDev(z: seq<real>, t: seq<real>, mz: real, mt: real, n: nat): real
    requires |z| == |t| && n <= |z|
  {
    if n == 0 then 0.0
    else CrossDev(z, t, mz, mt, n - 1) + (z[n - 1] - mz) * (t[n - 1] - mt)
  }

  /** The residual of a reading against the line b + k*z. */
  function Residual(t: real, z: real, b: real, k: real): real
  {
    t - (b + k * z)
  }

  /** Sum of the squared residuals of the first `n` pairs, Σ (t - (b + k z))². */
  function SqRes(t: seq<real>, z: seq<real>, b: real, k: real, n: nat): real
    requires |z| == |t| && n <= |z|
  {
    if n == 0 then 0.0
    else SqRes(t, z, b, k, n - 1) + Residual(t[n - 1], z[n - 1], b, k) * Residual(t[n - 1], z[n - 1], b, k)
  }

  lemma {:induction false} SqResNonNegative(t: seq<real>, z: seq<real>, b: real, k: real, n: nat)
    requires |z| == |t| && n <= |z|
    ensures 0.0 <= SqRes(t, z, b, k, n)
  {
    if n > 0 {
      SqResNonNegative(t, z, b, k, n - 1);
      SquareNonNegative(Residual(t[n - 1], z[n - 1], b, k));
    }
  }

  /** One step of the first loop of `fitTareRegression`. */
  lemma {:induction false} CrossDevStep(z: seq<real>, t: seq<real>, mz: real, mt: real, i: nat, num: real, diffZ: real)
    requires |z| == |t| && i < |z|
    requires num == CrossDev(z, t, mz, mt, i) && diffZ == z[i] - mz
    ensures num + diffZ * (t[i] - mt) == CrossDev(z, t, mz, mt, i + 1)
  {
  }

  /** One step of a sum of squared deviations. */
  lemma {:induction false} SumSqDevStep(s: seq<real>, m: real, i: nat, acc: real, d: real)
    requires i < |s|
    requires acc == SumSqDev(s, m, i) && d == s[i] - m
    ensures acc + d * d == SumSqDev(s, m, i + 1)
  {
  }

  /** One step of the second loop of `fitTareRegression`. */
  lemma {:induction false} SqResStep(t: seq<real>, z: seq<real>, b: real, k: real, i: nat, acc: real, res: real)
    requires |z| == |t| && i < |z|
    requires acc == SqRes(t, z, b, k, i) && res == t[i] - (b + k * z[i])
    ensures acc + res * res == SqRes(t, z, b, k, i + 1)
  {
  }

  /** What `fitTareRegression` returns, stated over the whole input: null
      below three samples and below three samples with a snapshot, else the
      fit of the samples that have one. */
  function FitSpec(samples: seq<TareSample>, sqrt: real -> real): Option<Fit>
  {
    if |samples| < 3 then None
    else
      var v := WithSnapshot(samples);
      if |v| < 3 then None
      else FitLine(Values(v), Azs(v), sqrt)
  }

  /** The least-squares line through the pairs (z[i], t[i]): null when the
      accelerations have no spread. */
  function FitLine(t: seq<real>, z: seq<real>, sqrt: real -> real): Option<Fit>
    requires |t| == |z| && 3 <= |t|
  {
    var meanT, meanZ := CalculateMean(t), CalculateMean(z);
    var num, den := CrossDev(z, t, meanZ, meanT, |z|), SumSqDev(z, meanZ, |z|);
    if den == 0.0 then None
    else Some(LineWithSlope(t, z, meanT, meanZ, Slope(num, den), sqrt))
  }

  /** `numerator / denominator`, the least-squares slope: it solves the
      normal equation k · Σ dz² = Σ dz·dt. */
  function Slope(num: real, den: real): (k: real)
    requires den != 0.0
    ensures k * den == num
  {
    num / den
  }

  /** The line of slope `k` through the point of means, with its residuals. */
  function LineWithSlope(t: seq<real>, z: seq<real>, meanT: real, meanZ: real, k: real, sqrt: real -> real): Fit
    requires |t| == |z| && 3 <= |t|
  {
    var b := meanT - k * meanZ;
    FitWithResiduals(b, k, SqRes(t, z, b, k, |t|), SumSqDev(t, meanT, |t|), |t|, sqrt)
  }

  /** The fit record once the residual sums are known: sigmaEps over n - 2
      degrees of freedom, and r2 = 1 - SSres/SStot (NaN when there is no
      spread in the readings, as 0/0 is in JavaScript). */
  function FitWithResiduals(b: real, k: real, sumSqRes: real, sumSqTot: real, n: int, sqrt: real -> real): Fit
    requires 3 <= n
  {
    Fit(b, k, sqrt(sumSqRes / (n - 2) as real),
        if sumSqTot == 0.0 then NaN else Finite(1.0 - sumSqRes / sumSqTot))
  }

  /** The samples kept for the fit are exactly those with a snapshot. */
  lemma {:induction false} WithSnapshotMembers(samples: seq<TareSample>)
    ensures forall x :: x in WithSnapshot(samples) <==> x in samples && x.snapshot.Some?
  {
    if samples != [] {
      WithSnapshotMembers(samples[1..]);
      assert forall x :: x in samples <==> x == samples[0] || x in samples[1..];
    }
  }

  /** The filter keeps the samples with a snapshot one by one, in list
      order: it distributes over concatenation, and a single sample is kept
      exactly when it has a snapshot. */
  lemma {:induction false} WithSnapshotAppend(a: seq<TareSample>, b: seq<TareSample>)
    ensures WithSnapshot(a + b) == WithSnapshot(a) + WithSnapshot(b)
    ensures forall x :: WithSnapshot([x]) == if x.snapshot.Some? then [x] else []
  {
    WithSnapshotConcat(a, b);
    forall x ensures WithSnapshot([x]) == if x.snapshot.Some? then [x] else [] {
      assert [x][1..] == [];
    }
  }

  lemma {:induction false} WithSnapshotConcat(a: seq<TareSample>, b: seq<TareSample>)
    ensures WithSnapshot(a + b) == WithSnapshot(a) + WithSnapshot(b)
  {
    if a == [] {
      assert a + b == b;
    } else {
      var head := if a[0].snapshot.Some? then [a[0]] else [];
      assert (a + b)[0] == a[0] && (a + b)[1..] == a[1..] + b;
      WithSnapshotConcat(a[1..], b);
      calc {
        WithSnapshot(a + b);
        head + WithSnapshot(a[1..] + b);
        head + (WithSnapshot(a[1..]) + WithSnapshot(b));
        (head + WithSnapshot(a[1..])) + WithSnapshot(b);
      }
    }
  }

  /** The fit is missing exactly below three samples, below three samples
      with a snapshot, or when the kept accelerations have no spread. */
  lemma {:induction false} FitSpecNone(samples: seq<TareSample>, sqrt: real -> real)
    ensures FitSpec(samples, sqrt).None? <==>
      |samples| < 3 || |WithSnapshot(samples)| < 3 ||
      (var z := Azs(WithSnapshot(samples)); SumSqDev(z, CalculateMean(z), |z|) == 0.0)
  {
  }

  /** A successful fit is the line through the point of means whose slope
      is the cross-deviation sum over the spread of z, which is not zero;
      by the contract of `Slope` that slope solves the normal equation.
      What such a line carries is stated by `SlopedLine`. */
  lemma {:induction false} FitLineProperties(t: seq<real>, z: seq<real>, sqrt: real -> real, f: Fit)
    requires |t| == |z| && 3 <= |t|
    requires FitLine(t, z, sqrt) == Some(f)
    ensures SumSqDev(z, CalculateMean(z), |z|) != 0.0
    ensures f.k == Slope(CrossDev(z, t, CalculateMean(z), CalculateMean(t), |z|), SumSqDev(z, CalculateMean(z), |z|))
    ensures f == LineWithSlope(t, z, CalculateMean(t), CalculateMean(z), f.k, sqrt)
  {
  }

  /** The fit is missing exactly when the spread of z is zero. */
  lemma {:induction false} FitLineNone(t: seq<real>, z: seq<real>, sqrt: real -> real)
    requires |t| == |z| && 3 <= |t|
    ensures FitLine(t, z, sqrt).None? <==> SumSqDev(z, CalculateMean(z), |z|) == 0.0
  {
  }

  /** The line of a given slope passes through the point of means and
      carries the residual statistics of that line. */
  lemma {:induction false} SlopedLine(t: seq<real>, z: seq<real>, meanT: real, meanZ: real, k: real, sqrt: real -> real, f: Fit)
    requires IsSqrt(sqrt) && |t| == |z| && 3 <= |t|
    requires f == LineWithSlope(t, z, meanT, meanZ, k, sqrt)
    ensures var ssRes, ssTot := SqRes(t, z, f.b, f.k, |t|), SumSqDev(t, meanT, |t|);
      && f.k == k && f.b + f.k * meanZ == meanT
      && 0.0 <= f.sigmaEps && f.sigmaEps * f.sigmaEps == ssRes / (|t| - 2) as real
      && (f.r2 == NaN <==> ssTot == 0.0)
      && (f.r2.Finite? ==> f.r2.value == 1.0 - ssRes / ssTot)
  {
    var b := meanT - k * meanZ;
    SqResNonNegative(t, z, b, k, |t|);
    ResidualsFit(b, k, SqRes(t, z, b, k, |t|), SumSqDev(t, meanT, |t|), |t|, sqrt);
  }

  /** The fit record from its residual sums: sigmaEps is the non-negative
      root of SSres/(n - 2), and r2 is 1 - SSres/SStot, NaN exactly when SStot
      is 0. */
  lemma {:induction false} ResidualsFit(b: real, k: real, ssRes: real, ssTot: real, n: int, sqrt: real -> real)
    requires IsSqrt(sqrt) && 3 <= n && 0.0 <= ssRes
    ensures var f := FitWithResiduals(b, k, ssRes, ssTot, n, sqrt);
      && f.b == b && f.k == k
      && 0.0 <= f.sigmaEps && f.sigmaEps * f.sigmaEps == ssRes / (n - 2) as real
      && (f.r2 == NaN <==> ssTot == 0.0)
      && (f.r2.Finite? ==> f.r2.value == 1.0 - ssRes / ssTot)
  {
    var x := ssRes / (n - 2) as real;
    DivNonNegative(ssRes, (n - 2) as real);
    assert 0.0 <= sqrt(x) && sqrt(x) * sqrt(x) == x;
  }

  /** The first loop of `fitTareRegression`: Σ dz·dt and Σ dz² over the
      deviations from the means. */
  method AccumulateDeviations(z: seq<real>, t: seq<real>, meanZ: real, meanT: real) returns (num: real, den: real)
    requires |z| == |t|
    ensures num == CrossDev(z, t, meanZ, meanT, |z|)
    ensures den == SumSqDev(z, meanZ, |z|)
  {
    num := 0.0;
    den := 0.0;
    for i := 0 to |z|
      invariant num == CrossDev(z, t, meanZ, meanT, i)
      invariant den == SumSqDev(z, meanZ, i)
    {
      var diffZ := z[i] - meanZ;
      CrossDevStep(z, t, meanZ, meanT, i, num, diffZ);
      SumSqDevStep(z, meanZ, i, den, diffZ);
      num := num + diffZ * (t[i] - meanT);
      den := den + diffZ * diffZ;
    }
  }

  /** The second loop of `fitTareRegression`: the residual and the total
      sums of squares of the fitted line. */
  method AccumulateResiduals(t: seq<real>, z: seq<real>, b: real, k: real, meanT: real) returns (sumSqRes: real, sumSqTot: real)
    requires |z| == |t|
    ensures sumSqRes == SqRes(t, z, b, k, |t|)
    ensures sumSqTot == SumSqDev(t, meanT, |t|)
  {
    sumSqRes := 0.0;
    sumSqTot := 0.0;
    for i := 0 to |t|
      invariant sumSqRes == SqRes(t, z, b, k, i)
      invariant sumSqTot == SumSqDev(t, meanT, i)
    {
      var pred := b + k * z[i];
      var res := t[i] - pred;
      var diffT := t[i] - meanT;
      SqResStep(t, z, b, k, i, sumSqRes, res);
      SumSqDevStep(t, meanT, i, sumSqTot, diffT);
      sumSqRes := sumSqRes + res * res;
      sumSqTot := sumSqTot + diffT * diffT;
    }
  }

  /** `fitTareRegression`: the guards and the filter to the samples that
      carry a snapshot. */
  method FitTareRegression(samples: seq<TareSample>, sqrt: real -> real) returns (fit: Option<Fit>)
    ensures fit == FitSpec(samples, sqrt)
  {
    var n := |samples|;
    if n < 3 {
      return None;
    }
    var validSamples := WithSnapshot(samples);
    if |validSamples| < 3 {
      return None;
    }
    var t := Values(validSamples);
    var z := Azs(validSamples);
    fit := FitPairs(t, z, sqrt);
  }

  lemma {:induction false} FitLineFromSums(t: seq<real>, z: seq<real>, sqrt: real -> real, meanT: real, meanZ: real, num: real, den: real)
    requires |t| == |z| && 3 <= |t|
    requires meanT == CalculateMean(t) && meanZ == CalculateMean(z)
    requires num == CrossDev(z, t, meanZ, meanT, |z|) && den == SumSqDev(z, meanZ, |z|)
    ensures den == 0.0 ==> FitLine(t, z, sqrt) == None
    ensures den != 0.0 ==> FitLine(t, z, sqrt) == Some(LineWithSlope(t, z, meanT, meanZ, Slope(num, den), sqrt))
  {
  }

  lemma {:induction false} LineFromResiduals(t: seq<real>, z: seq<real>, sqrt: real -> real, meanT: real, meanZ: real, k: real, b: real, ssRes: real, ssTot: real)
    requires |t| == |z| && 3 <= |t|
    requires b == meanT - k * meanZ
    requires ssRes == SqRes(t, z, b, k, |t|) && ssTot == SumSqDev(t, meanT, |t|)
    ensures LineWithSlope(t, z, meanT, meanZ, k, sqrt) ==
      Fit(b, k, sqrt(ssRes / (|t| - 2) as real), if ssTot == 0.0 then NaN else Finite(1.0 - ssRes / ssTot))
  {
  }

  /** The rest of `fitTareRegression`: means, slope, intercept and the
      residual statistics of the pairs (z[i], t[i]). */
  method FitPairs(t: seq<real>, z: seq<real>, sqrt: real -> real) returns (fit: Option<Fit>)
    requires |t| == |z| && 3 <= |t|
    ensures fit == FitLine(t, z, sqrt)
  {
    var meanT := CalculateMean(t);
    var meanZ := CalculateMean(z);
    var num, den := AccumulateDeviations(z, t, meanZ, meanT);
    FitLineFromSums(t, z, sqrt, meanT, meanZ, num, den);
    if den == 0.0 {
      return None;
    }
    var k := Slope(num, den);
    var b := meanT - k * meanZ;
    var sumSqRes, sumSqTot := AccumulateResiduals(t, z, b, k, meanT);
    var sigmaEps := sqrt(sumSqRes / (|t| - 2) as real);
    var r2 := if sumSqTot == 0.0 then NaN else Finite(1.0 - sumSqRes / sumSqTot);
    LineFromResiduals(t, z, sqrt, meanT, meanZ, k, b, sumSqRes, sumSqTot);
    return Some(Fit(b, k, sigmaEps, r2));
  }
}
