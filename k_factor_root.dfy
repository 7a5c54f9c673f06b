/** The k-factor lookup of the older generation (`utils/kFactor.ts`):
    `getKFactor(n)` answers 2.0 for a single sample, otherwise walks the
    table for the first bracket that holds df = n - 1 (both ends inclusive),
    interpolates inside a finite bracket and, above df 30, answers 2.042 up
    to n = 60 and 1.96 beyond. Sample counts are integers. The closed form
    and its lemmas hold for every table of the shape of `T_TABLE`. */
module RootKFactor {
  import opened TTable

  /** What the loop answers on the bracket `r` that `Locate` picks. */
  function RootBracket(tbl: seq<Anchor>, n: int, df: real, r: nat): real
    requires Shaped(tbl) && r <= LAST_FINITE
  {
    AnchorFacts(tbl, r);
    if tbl[r + 1].df.Infinite? then (if n > 60 then 1.96 else tbl[r].t)
    else Segment(tbl, r, df)
  }

  /** The value `getKFactor(n)` returns, in closed form. */
  function KFactor(tbl: seq<Anchor>, n: int): real
    requires Shaped(tbl)
  {
    if n <= 1 then 2.0 else RootBracket(tbl, n, (n - 1) as real, Locate(tbl, (n - 1) as real, 0))
  }

  /** One step of the scan: the inclusive bracket test fails before the
      located bracket and holds on it. */
  lemma {:induction false} ScanStep(tbl: seq<Anchor>, df: real, i: nat)
    requires Shaped(tbl) && 1.0 <= df && i <= Locate(tbl, df, 0)
    ensures tbl[i].df.Dof?
    ensures tbl[i + 1].df.Dof? ==> tbl[i].df.value < tbl[i + 1].df.value
    ensures i < Locate(tbl, df, 0) <==> !(AtLeast(df, tbl[i].df) && AtMost(df, tbl[i + 1].df))
  {
    AnchorFacts(tbl, i);
    LocatedBracket(tbl, df);
    if i < Locate(tbl, df, 0) {
      LocatePast(tbl, df, 0, i + 1);
    }
  }

  /** What each exit of the scan on the located bracket returns. */
  lemma {:induction false} BracketAnswer(tbl: seq<Anchor>, n: int, i: nat)
    requires Shaped(tbl) && 2 <= n && i == Locate(tbl, (n - 1) as real, 0)
    ensures tbl[i + 1].df.Infinite? ==> KFactor(tbl, n) == if n > 60 then 1.96 else tbl[i].t
    ensures tbl[i + 1].df.Dof? ==>
      tbl[i].df.value < tbl[i + 1].df.value &&
      KFactor(tbl, n) == Lerp(tbl[i].df.value, tbl[i].t, tbl[i + 1].df.value, tbl[i + 1].t, (n - 1) as real)
  {
    AnchorFacts(tbl, i);
  }

  /** `getKFactor`: the pairwise scan of the table. */
  method GetKFactor(n: int) returns (k: real)
    ensures Shaped(T_TABLE) && k == KFactor(T_TABLE, n)
  {
    TableShaped();
    if n <= 1 {
      return 2.0;
    }
    var df := (n - 1) as real;
    ghost var r := Locate(T_TABLE, df, 0);
    for i := 0 to |T_TABLE| - 1
      invariant i <= r
    {
      ScanStep(T_TABLE, df, i);
      if i == r {
        BracketAnswer(T_TABLE, n, i);
      }
      var lo, hi := T_TABLE[i], T_TABLE[i + 1];
      if AtLeast(df, lo.df) && AtMost(df, hi.df) {
        if hi.df.Infinite? {
          return if n > 60 then 1.96 else lo.t;
        }
        return Lerp(lo.df.value, lo.t, hi.df.value, hi.t, df);
      }
    }
    assert false;
    return 1.96;
  }

  /** A single sample (or none) gets the placeholder 2.0. */
  lemma {:induction false} KFactorSingleSample(tbl: seq<Anchor>, n: int)
    requires Shaped(tbl) && n <= 1
    ensures KFactor(tbl, n) == 2.0
  {
  }

  /** On the bracket that holds `df` the answer lies between the t-values of
      its two anchors. */
  lemma {:induction false} BracketBounds(tbl: seq<Anchor>, n: int, df: real, r: nat)
    requires Shaped(tbl) && r <= LAST_FINITE && AtLeast(df, tbl[r].df)
    requires r == LAST_FINITE || AtMost(df, tbl[r + 1].df)
    ensures tbl[r + 1].t <= RootBracket(tbl, n, df, r) <= tbl[r].t
  {
    AnchorFacts(tbl, r);
    if r < LAST_FINITE {
      SegmentBetween(tbl, r, df);
    }
  }

  /** From two samples on, the answer lies between the t-values of the two
      anchors of the bracket its df falls in. */
  lemma {:induction false} LocatedBounds(tbl: seq<Anchor>, n: int, r: nat)
    requires Shaped(tbl) && 2 <= n && r == Locate(tbl, (n - 1) as real, 0)
    ensures tbl[r + 1].t <= KFactor(tbl, n) <= tbl[r].t
  {
    LocatedBracket(tbl, (n - 1) as real);
    BracketBounds(tbl, n, (n - 1) as real, r);
  }

  /** From two samples on, every answer lies between 1.96 and 12.706. */
  lemma {:induction false} KFactorRange(tbl: seq<Anchor>, n: int)
    requires Shaped(tbl) && 2 <= n
    ensures 1.96 <= KFactor(tbl, n) <= 12.706
  {
    var r := Locate(tbl, (n - 1) as real, 0);
    LocatedBounds(tbl, n, r);
    TRange(tbl, r);
    TRange(tbl, r + 1);
  }

  /** A count whose df lies in a later bracket never gets a larger factor. */
  lemma {:induction false} AcrossBrackets(tbl: seq<Anchor>, n1: int, n2: int)
    requires Shaped(tbl) && 2 <= n1 <= n2
    requires Locate(tbl, (n1 - 1) as real, 0) < Locate(tbl, (n2 - 1) as real, 0)
    ensures KFactor(tbl, n2) <= KFactor(tbl, n1)
  {
    var r1, r2 := Locate(tbl, (n1 - 1) as real, 0), Locate(tbl, (n2 - 1) as real, 0);
    LocatedBounds(tbl, n1, r1);
    LocatedBounds(tbl, n2, r2);
    assert tbl[r2].t <= tbl[r1 + 1].t;
  }

  /** Within one bracket a larger count never gets a larger factor. */
  lemma {:induction false} WithinBracket(tbl: seq<Anchor>, n1: int, n2: int)
    requires Shaped(tbl) && 2 <= n1 <= n2
    requires Locate(tbl, (n1 - 1) as real, 0) == Locate(tbl, (n2 - 1) as real, 0)
    ensures KFactor(tbl, n2) <= KFactor(tbl, n1)
  {
    var r := Locate(tbl, (n1 - 1) as real, 0);
    AnchorFacts(tbl, r);
    if r < LAST_FINITE {
      SegmentMonotone(tbl, r, (n1 - 1) as real, (n2 - 1) as real);
    }
  }

  /** From two samples on, more samples never give a larger factor. */
  lemma {:induction false} KFactorMonotone(tbl: seq<Anchor>, n1: int, n2: int)
    requires Shaped(tbl) && 2 <= n1 <= n2
    ensures KFactor(tbl, n2) <= KFactor(tbl, n1)
  {
    LocateMonotone(tbl, (n1 - 1) as real, (n2 - 1) as real, 0);
    if Locate(tbl, (n1 - 1) as real, 0) < Locate(tbl, (n2 - 1) as real, 0) {
      AcrossBrackets(tbl, n1, n2);
    } else {
      WithinBracket(tbl, n1, n2);
    }
  }

  /** A sample count one above a finite anchor gets that anchor's t-value. */
  lemma {:induction false} KFactorAtAnchor(tbl: seq<Anchor>, i: nat, n: int)
    requires Shaped(tbl) && i <= LAST_FINITE
    requires tbl[i].df.Dof? && (n - 1) as real == tbl[i].df.value
    ensures KFactor(tbl, n) == tbl[i].t
  {
    AnchorFacts(tbl, i);
    var df := (n - 1) as real;
    if i == 0 {
      LocateIs(tbl, df, 0, 0);
      SegmentEnds(tbl, 0);
    } else {
      AnchorFacts(tbl, i - 1);
      assert tbl[0].df.value <= tbl[i - 1].df.value;
      LocateIs(tbl, df, 0, i - 1);
      SegmentEnds(tbl, i - 1);
    }
  }

  /** Between two finite anchors the answer is the linear interpolation
      between them. */
  lemma {:induction false} KFactorInterpolates(tbl: seq<Anchor>, i: nat, n: int)
    requires Shaped(tbl) && i < LAST_FINITE
    requires tbl[i].df.value <= (n - 1) as real <= tbl[i + 1].df.value
    ensures KFactor(tbl, n) == Lerp(tbl[i].df.value, tbl[i].t, tbl[i + 1].df.value, tbl[i + 1].t, (n - 1) as real)
  {
    AnchorFacts(tbl, i);
    var df := (n - 1) as real;
    assert tbl[0].df.value <= tbl[i].df.value;
    if df == tbl[i].df.value {
      KFactorAtAnchor(tbl, i, n);
      SegmentEnds(tbl, i);
    } else {
      LocateIs(tbl, df, 0, i);
    }
  }

  /** Above df 30 (n > 31) the answer is 2.042 up to n = 60 and 1.96 beyond. */
  lemma {:induction false} KFactorTail(tbl: seq<Anchor>, n: int)
    requires Shaped(tbl) && 31 < n
    ensures KFactor(tbl, n) == if n > 60 then 1.96 else 2.042
  {
    LocateIs(tbl, (n - 1) as real, 0, LAST_FINITE);
  }

  /** `getKFactor(n)` on the table of the older generation, as a value the
      calculators use. */
  function TableKFactor(n: int): real
  {
    TableShaped();
    KFactor(T_TABLE, n)
  }

  /** Every factor lies between 1.96 and 12.706, the placeholder 2.0
      included. */
  lemma {:induction false} TableKFactorRange(n: int)
    ensures 1.96 <= TableKFactor(n) <= 12.706
  {
    TableShaped();
    if 2 <= n {
      KFactorRange(T_TABLE, n);
    }
  }

  /** From two samples on the factor never grows with `n`, but the step from
      one sample to two raises it from 2.0 to 12.706. */
  lemma {:induction false} TableKFactorSteps(n1: int, n2: int)
    requires 2 <= n1 <= n2
    ensures TableKFactor(n2) <= TableKFactor(n1)
    ensures TableKFactor(1) == 2.0 && TableKFactor(2) == 12.706
  {
    TableShaped();
    KFactorMonotone(T_TABLE, n1, n2);
    KFactorAtAnchor(T_TABLE, 0, 2);
  }
}
