/** Steps 3 to 8 of the two calculators of the older generation
    (`measurement/SessionCalculator.ts`, `measurement/SimpleMeasurementCalculator.ts`),
    which share them line for line: trim the ascending valid values, pick the
    trimmed mean or the median, the Bessel-corrected spread and its standard
    error, the tare sigma T95/2 and their combination in quadrature; and the
    confidence score of both. */
module SessionStats {
  import opened Numeric
  import opened Sorting
  import opened Trimming
  import opened MathUtils

  datatype TrimStats = TrimStats(
    drop: int,
    xtrim: seq<real>,
    mean: real,
    median: real,
    fixedValue: real,
    stdDev: real,
    stdError: real,
    tareSigma: real,
    total: real)

  /** The shared steps on the ascending valid values `x`. */
  function Stats(x: seq<real>, trimFraction: real, tareUnc95: real, sqrt: real -> real): TrimStats
    requires IsSqrt(sqrt)
  {
    Summarize(GuardedTrimCount(trimFraction, |x|), Kept(x, trimFraction), tareUnc95, sqrt)
  }

  /** Steps 4 to 8 on the kept values. */
  function Summarize(drop: int, xtrim: seq<real>, tareUnc95: real, sqrt: real -> real): TrimStats
    requires IsSqrt(sqrt)
  {
    var n := |xtrim|;
    var mean := CalculateMean(xtrim);
    var median := MedianOfSorted(xtrim);
    var stdDev := CalculateStdDev(xtrim, mean, sqrt);
    var stdError := StdError(stdDev, n, sqrt);
    var tareSigma := tareUnc95 / 2.0;
    TrimStats(drop, xtrim, mean, median, if n >= 3 then mean else median, stdDev, stdError,
              tareSigma, Quadrature(stdError, tareSigma, sqrt))
  }

  /** `(nTrim >= 2) ? stdDev / Math.sqrt(nTrim) : 0` */
  function StdError(stdDev: real, n: nat, sqrt: real -> real): real
    requires IsSqrt(sqrt)
  {
    if n >= 2 then stdDev / sqrt(n as real) else 0.0
  }

  /** `Math.sqrt(Math.pow(a, 2) + Math.pow(b, 2))` */
  function Quadrature(a: real, b: real, sqrt: real -> real): real
    requires IsSqrt(sqrt)
  {
    SquareNonNegative(a);
    SquareNonNegative(b);
    sqrt(a * a + b * b)
  }

  /** The standard error of a non-negative spread over n values: its square
      times n is the squared spread. */
  lemma {:induction false} StdErrorSquare(stdDev: real, n: nat, sqrt: real -> real)
    requires IsSqrt(sqrt) && 0.0 <= stdDev
    ensures 0.0 <= StdError(stdDev, n, sqrt)
    ensures n >= 2 ==> StdError(stdDev, n, sqrt) * StdError(stdDev, n, sqrt) * n as real == stdDev * stdDev
  {
    if n >= 2 {
      QuotientByRoot(stdDev, sqrt(n as real), n as real);
    }
  }

  /** The combination in quadrature is the non-negative root of a² + b², so
      it is at least |a| and at least |b|. */
  lemma {:induction false} QuadratureBounds(a: real, b: real, sqrt: real -> real)
    requires IsSqrt(sqrt)
    ensures var q := Quadrature(a, b, sqrt);
      0.0 <= q && q * q == a * a + b * b && Abs(a) <= q && Abs(b) <= q
  {
    SquareNonNegative(a);
    SquareNonNegative(b);
    RootOfSumOfSquares(Quadrature(a, b, sqrt), a, b);
  }

  /** `errorBand95 = k95 * totalUncertainty1Sigma` */
  function Band(k95: real, total: real): real
  {
    k95 * total
  }

  /** A band with a factor of at least one covers the 1-sigma total and is
      never negative; a larger factor never gives a narrower band. */
  lemma {:induction false} BandBounds(k1: real, k2: real, total: real)
    requires 1.0 <= k1 <= k2 && 0.0 <= total
    ensures total <= Band(k1, total) <= Band(k2, total)
  {
    assert k1 * total - total == (k1 - 1.0) * total;
    assert k2 * total - k1 * total == (k2 - k1) * total;
  }

  /** The values the calculators keep of the ascending valid values `x`. */
  function Kept(x: seq<real>, trimFraction: real): seq<real>
  {
    Trimmed(x, GuardedTrimCount(trimFraction, |x|))
  }

  /** The kept values: a contiguous run of the ascending values, at least one
      of them when there is any, and for a fraction of at least zero exactly
      the reset floor of f·n off each end. */
  lemma {:induction false} KeptRun(x: seq<real>, f: real)
    requires Sorted(x)
    ensures var xtrim, drop := Kept(x, f), GuardedTrimCount(f, |x|);
      && Sorted(xtrim)
      && (exists lo, hi :: 0 <= lo <= hi <= |x| && xtrim == x[lo..hi])
      && (1 <= |x| <==> 1 <= |xtrim|)
      && (0.0 <= f ==> drop == TrimCount(f, |x|) && 0 <= drop && |xtrim| == |x| - 2 * drop &&
                       xtrim == x[drop..|x| - drop])
  {
    var drop := GuardedTrimCount(f, |x|);
    TrimmedIsRun(x, drop);
    if 1 <= |x| {
      TrimKeepsOne(x, f);
    }
    if 0.0 <= f {
      GuardRedundant(f, |x|);
      TrimCountBounds(f, |x|);
      TrimmedMiddle(x, drop);
    }
  }

  /** Every kept value is one of the values. */
  lemma {:induction false} KeptMembers(x: seq<real>, f: real, v: real)
    requires v in Kept(x, f)
    ensures v in multiset(x)
  {
    var xtrim := Kept(x, f);
    TrimmedIsRun(x, GuardedTrimCount(f, |x|));
    var lo, hi :| 0 <= lo <= hi <= |x| && xtrim == x[lo..hi];
    var i :| 0 <= i < |xtrim| && xtrim[i] == v;
    assert x[lo + i] == v;
  }

  /** The central value is the trimmed mean from three kept values on and
      the median below; either way it lies between the least and the greatest
      kept value. */
  lemma {:induction false} SummaryCentral(drop: int, xtrim: seq<real>, u: real, sqrt: real -> real)
    requires IsSqrt(sqrt)
    ensures var st := Summarize(drop, xtrim, u, sqrt);
      && st.xtrim == xtrim && st.drop == drop
      && st.mean == CalculateMean(st.xtrim)
      && st.median == MedianOfSorted(st.xtrim)
      && st.fixedValue == (if |st.xtrim| >= 3 then st.mean else st.median)
      && (|st.xtrim| == 0 ==> st.fixedValue == 0.0)
      && (Sorted(xtrim) && 1 <= |xtrim| ==> xtrim[0] <= st.fixedValue <= xtrim[|xtrim| - 1])
  {
    if Sorted(xtrim) && 1 <= |xtrim| {
      CentralBounds(xtrim);
    }
  }

  /** Mean and median of an ascending non-empty list lie between its ends. */
  lemma {:induction false} CentralBounds(xtrim: seq<real>)
    requires Sorted(xtrim) && 1 <= |xtrim|
    ensures xtrim[0] <= CalculateMean(xtrim) <= xtrim[|xtrim| - 1]
    ensures xtrim[0] <= MedianOfSorted(xtrim) <= xtrim[|xtrim| - 1]
  {
    SortedEnds(xtrim);
    SortOfSorted(xtrim);
    MeanBounds(xtrim);
  }

  /** Spread: nothing below two kept values; otherwise the squared standard
      deviation is Σ(v - mean)²/(n - 1) and the squared standard error is
      that over n. */
  lemma {:induction false} SummarySpread(drop: int, xtrim: seq<real>, u: real, sqrt: real -> real)
    requires IsSqrt(sqrt)
    ensures var st := Summarize(drop, xtrim, u, sqrt);
      var n := |st.xtrim|;
      && 0.0 <= st.stdDev && 0.0 <= st.stdError
      && (n < 2 ==> st.stdDev == 0.0 && st.stdError == 0.0)
      && (n >= 2 ==> st.stdDev * st.stdDev == SumSqDev(st.xtrim, st.mean, n) / (n - 1) as real)
      && (n >= 2 ==> st.stdError * st.stdError * n as real == st.stdDev * st.stdDev)
  {
    var st := Summarize(drop, xtrim, u, sqrt);
    StdErrorSquare(st.stdDev, |st.xtrim|, sqrt);
  }

  /** Total: tareSigma is half of T95, and the total is the non-negative root
      of stdError² + tareSigma², so it is at least each of the two. */
  lemma {:induction false} SummaryTotal(drop: int, xtrim: seq<real>, u: real, sqrt: real -> real)
    requires IsSqrt(sqrt)
    ensures var st := Summarize(drop, xtrim, u, sqrt);
      && 2.0 * st.tareSigma == u
      && 0.0 <= st.total
      && st.total * st.total == st.stdError * st.stdError + st.tareSigma * st.tareSigma
      && st.stdError <= st.total && Abs(st.tareSigma) <= st.total
  {
    var st := Summarize(drop, xtrim, u, sqrt);
    StdErrorSquare(st.stdDev, |xtrim|, sqrt);
    QuadratureBounds(st.stdError, st.tareSigma, sqrt);
  }

  /** The shared statistics are those of the kept values. */
  lemma {:induction false} StatsOfKept(x: seq<real>, f: real, u: real, sqrt: real -> real)
    requires IsSqrt(sqrt)
    ensures var st := Stats(x, f, u, sqrt);
      && st.xtrim == Kept(x, f) && st.drop == GuardedTrimCount(f, |x|)
      && st == Summarize(GuardedTrimCount(f, |x|), Kept(x, f), u, sqrt)
  {
  }

  /** What the shared statistics of ascending values promise: the central
      value lies between the kept ends (0 with nothing kept); spread and
      standard error are not negative; tareSigma is half of T95; and the
      total covers both the standard error and the tare sigma. */
  lemma {:induction false} StatsBounds(x: seq<real>, f: real, u: real, sqrt: real -> real)
    requires IsSqrt(sqrt) && Sorted(x)
    ensures var st := Stats(x, f, u, sqrt);
      && st.xtrim == Kept(x, f)
      && (1 <= |st.xtrim| ==> st.xtrim[0] <= st.fixedValue <= st.xtrim[|st.xtrim| - 1])
      && (|st.xtrim| == 0 ==> st.fixedValue == 0.0)
      && 0.0 <= st.stdDev && 0.0 <= st.stdError <= st.total
      && 2.0 * st.tareSigma == u && Abs(st.tareSigma) <= st.total
  {
    var drop, xtrim := GuardedTrimCount(f, |x|), Kept(x, f);
    StatsOfKept(x, f, u, sqrt);
    KeptRun(x, f);
    SummaryBounds(drop, xtrim, u, sqrt);
  }

  lemma {:induction false} SummaryBounds(drop: int, xtrim: seq<real>, u: real, sqrt: real -> real)
    requires IsSqrt(sqrt) && Sorted(xtrim)
    ensures var st := Summarize(drop, xtrim, u, sqrt);
      && st.xtrim == xtrim
      && (1 <= |xtrim| ==> xtrim[0] <= st.fixedValue <= xtrim[|xtrim| - 1])
      && (|xtrim| == 0 ==> st.fixedValue == 0.0)
      && 0.0 <= st.stdDev && 0.0 <= st.stdError <= st.total
      && 2.0 * st.tareSigma == u && Abs(st.tareSigma) <= st.total
  {
    SummaryCentral(drop, xtrim, u, sqrt);
    SummarySpread(drop, xtrim, u, sqrt);
    SummaryTotal(drop, xtrim, u, sqrt);
  }

  /** The confidence score: a step function of the kept count. */
  function Confidence(nTrim: int): real
  {
    if nTrim >= 10 then 0.95
    else if nTrim >= 6 then 0.85
    else if nTrim >= 3 then 0.7
    else if nTrim >= 2 then 0.5
    else 0.3
  }

  /** The score takes one of five values, grows with the count, and crosses
      each level exactly at its threshold. */
  lemma {:induction false} ConfidenceSteps(n1: int, n2: int)
    requires n1 <= n2
    ensures Confidence(n1) <= Confidence(n2)
    ensures Confidence(n1) in {0.3, 0.5, 0.7, 0.85, 0.95}
    ensures (Confidence(n1) >= 0.5 <==> n1 >= 2) && (Confidence(n1) >= 0.7 <==> n1 >= 3)
    ensures (Confidence(n1) >= 0.85 <==> n1 >= 6) && (Confidence(n1) == 0.95 <==> n1 >= 10)
  {
  }
}
