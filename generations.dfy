/** How the two generations of the statistics core relate where they compute
    the same quantity: the k-factor lookups, the trim of the kept values, the
    standard error and the half-range tare. */
module Generations {
  import opened Numeric
  import opened TTable
  import opened Trimming
  import opened MathUtils
  import opened SessionStats
  import SrcKFactor
  import RootKFactor
  import SrcMeasurementSession
  import SrcTareManager
  import RootTareManager
  import RootTypes
  import SrcTypes

  /** On the bracket both lookups locate, the answers agree except at df 60
      (n = 61), where the older lookup already answers 1.96 (it tests n > 60)
      and the newer one still 2.042 (it tests df > 60). */
  lemma {:induction false} BracketsAgree(tbl: seq<Anchor>, n: int)
    requires Shaped(tbl) && 2 <= n
    ensures var df := (n - 1) as real;
      var r := Locate(tbl, df, 0);
      n != 61 ==> RootKFactor.RootBracket(tbl, n, df, r) == SrcKFactor.SrcBracket(tbl, df, r)
  {
    var df := (n - 1) as real;
    var r := Locate(tbl, df, 0);
    AnchorFacts(tbl, r);
    LocatedBracket(tbl, df);
    if r < LAST_FINITE {
      SegmentEnds(tbl, r);
    } else {
      assert tbl[r].df.value == 30.0;
    }
  }

  /** From two samples on, the older `getKFactor(n)` and the newer
      `getKFactorFromN(n)` agree on every table of the shape, except at
      n = 61, where they answer 1.96 and 2.042. */
  lemma {:induction false} KFactorsAgree(tbl: seq<Anchor>, n: int)
    requires Shaped(tbl) && 2 <= n
    ensures n != 61 ==> RootKFactor.KFactor(tbl, n) == SrcKFactor.TFactor95(tbl, (n - 1) as real)
    ensures n == 61 ==> RootKFactor.KFactor(tbl, n) == 1.96 && SrcKFactor.TFactor95(tbl, (n - 1) as real) == 2.042
  {
    if n == 61 {
      RootKFactor.KFactorTail(tbl, n);
      SrcKFactor.TFactor95Tail(tbl, 60.0);
    } else {
      BracketsAgree(tbl, n);
    }
  }

  /** On the table itself the two k-factors are equal exactly from two
      samples on, leaving out n = 61: below two samples the older one answers
      its placeholder 2.0 and the newer one the t-value of df 1. */
  lemma {:induction false} TableKFactorsAgree(n: int)
    ensures RootKFactor.TableKFactor(n) == SrcKFactor.GetKFactorFromN(n) <==> 2 <= n && n != 61
  {
    TableShaped();
    if n <= 1 {
      SrcKFactor.KFactorFromFewSamples(n);
    } else {
      KFactorsAgree(T_TABLE, n);
    }
  }

  /** The guard on the count of valid values that the two calculators add
      changes nothing for a fraction of at least zero: the newer session keeps
      the same values. */
  lemma {:induction false} KeptAgree(x: seq<real>, f: real)
    requires 0.0 <= f
    ensures SrcMeasurementSession.SessionKept(x, f) == Kept(x, f)
  {
    GuardRedundant(f, |x|);
  }

  /** The newer session divides by sqrt(n) from one kept value on and the
      older calculators from two; the spread is zero below two values, so the
      standard errors agree. */
  lemma {:induction false} StdErrorsAgree(trimmed: seq<real>, tareSigma: real, sqrt: real -> real)
    requires IsSqrt(sqrt)
    ensures var sd := CalculateStdDev(trimmed, CalculateMean(trimmed), sqrt);
      SrcMeasurementSession.SpreadOf(trimmed, tareSigma, sqrt).stdError == StdError(sd, |trimmed|, sqrt)
  {
    if |trimmed| == 1 {
      assert sqrt(1.0) * sqrt(1.0) == 1.0;
    }
  }

  /** Over the same values, the half-range estimate of the older tare
      manager and the basic model of the newer one agree on the bias (the
      median) and on the 1-sigma tare (a quarter of the range). */
  lemma {:induction false} BasicTaresAgree(a: seq<RootTypes.TareSample>, b: seq<SrcTypes.TareSample>)
    requires RootTareManager.SampleValues(a) == SrcTareManager.SampleValues(b) && |a| >= 1
    ensures var e, m := RootTareManager.EstimateOf(a), SrcTareManager.BasicModel(b);
      e.biasMedian == m.bias && e.tareSigma == m.tareUncertainty && e.count == m.n
  {
    RootTareManager.EstimateHalfRange(a);
    var vs := SrcTareManager.SampleValues(b);
    if |b| == 1 {
      assert Sorting.Max(vs) == vs[0] == Sorting.Min(vs);
    }
  }
}
