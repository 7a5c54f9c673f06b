/** The t-factor lookup of the current generation (`src/utils/kFactor.ts`):
    `getTFactor95` walks the table pairwise, answers an exact anchor match,
    interpolates strictly inside a finite bracket and, above df 30, answers
    2.042 up to df 60 and 1.96 beyond; `getKFactorFromN` turns a sample count
    into degrees of freedom. The closed forms and their lemmas hold for every
    table of the shape of `T_TABLE`. */
module SrcKFactor {
  import opened TTable

  /** What the loop answers on the bracket `r` that `Locate` picks. */
  function SrcBracket(tbl: seq<Anchor>, df: real, r: nat): real
    requires Shaped(tbl) && r <= LAST_FINITE
  {
    AnchorFacts(tbl, r);
    if Equals(df, tbl[r].df) then tbl[r].t
    else if Equals(df, tbl[r + 1].df) then tbl[r + 1].t
    else if tbl[r + 1].df.Infinite? then (if df > 60.0 then 1.96 else tbl[r].t)
    else Segment(tbl, r, df)
  }

  /** The value `getTFactor95(df)` returns, in closed form. */
  function TFactor95(tbl: seq<Anchor>, df: real): real
    requires Shaped(tbl)
  {
    if df < 1.0 then 12.706 else SrcBracket(tbl, df, Locate(tbl, df, 0))
  }

  /** One step of the scan from a df of at least one: before the located
      bracket none of the three tests fires, and on it one of them does. */
  lemma {:induction false} ScanStep(tbl: seq<Anchor>, df: real, i: nat)
    requires Shaped(tbl) && 1.0 <= df && i <= Locate(tbl, df, 0)
    ensures tbl[i].df.Dof?
    ensures tbl[i + 1].df.Dof? ==> tbl[i].df.value < tbl[i + 1].df.value
    ensures i < Locate(tbl, df, 0) ==>
      !Equals(df, tbl[i].df) && !Equals(df, tbl[i + 1].df) &&
      !(Above(df, tbl[i].df) && Below(df, tbl[i + 1].df))
    ensures i == Locate(tbl, df, 0) ==>
      Equals(df, tbl[i].df) || Equals(df, tbl[i + 1].df) ||
      (Above(df, tbl[i].df) && Below(df, tbl[i + 1].df))
  {
    AnchorFacts(tbl, i);
    LocatedBracket(tbl, df);
    if i < Locate(tbl, df, 0) {
      LocatePast(tbl, df, 0, i + 1);
    }
  }

  /** What each exit of the scan on the located bracket returns. */
  lemma {:induction false} BracketAnswer(tbl: seq<Anchor>, df: real, i: nat)
    requires Shaped(tbl) && 1.0 <= df && i == Locate(tbl, df, 0)
    ensures Equals(df, tbl[i].df) ==> TFactor95(tbl, df) == tbl[i].t
    ensures !Equals(df, tbl[i].df) && Equals(df, tbl[i + 1].df) ==> TFactor95(tbl, df) == tbl[i + 1].t
    ensures !Equals(df, tbl[i].df) && tbl[i + 1].df.Infinite? ==>
      TFactor95(tbl, df) == if df > 60.0 then 1.96 else tbl[i].t
    ensures !Equals(df, tbl[i].df) && !Equals(df, tbl[i + 1].df) && tbl[i + 1].df.Dof? ==>
      tbl[i].df.value < tbl[i + 1].df.value &&
      TFactor95(tbl, df) == Lerp(tbl[i].df.value, tbl[i].t, tbl[i + 1].df.value, tbl[i + 1].t, df)
  {
    AnchorFacts(tbl, i);
  }

  /** `getTFactor95`: the pairwise scan of the table. */
  method GetTFactor95(df: real) returns (t: real)
    ensures Shaped(T_TABLE) && t == TFactor95(T_TABLE, df)
  {
    TableShaped();
    if df < 1.0 {
      return 12.706;
    }
    ghost var r := Locate(T_TABLE, df, 0);
    for i := 0 to |T_TABLE| - 1
      invariant i <= r
    {
      ScanStep(T_TABLE, df, i);
      if i == r {
        BracketAnswer(T_TABLE, df, i);
      }
      var lo, hi := T_TABLE[i], T_TABLE[i + 1];
      if Equals(df, lo.df) {
        return lo.t;
      }
      if Equals(df, hi.df) {
        return hi.t;
      }
      if Above(df, lo.df) && Below(df, hi.df) {
        if hi.df.Infinite? {
          return if df > 60.0 then 1.96 else lo.t;
        }
        return Lerp(lo.df.value, lo.t, hi.df.value, hi.t, df);
      }
    }
    assert false;
    return 1.96;
  }

  /** `getKFactorFromN`: the t-factor for `n` samples, df = max(1, n - 1). */
  function GetKFactorFromN(n: int): real
  {
    TableShaped();
    TFactor95(T_TABLE, if n - 1 < 1 then 1.0 else (n - 1) as real)
  }

  /** On a bracket that holds `df`, the answer lies between the t-values of
      its two anchors. */
  lemma {:induction false} BracketBounds(tbl: seq<Anchor>, df: real, r: nat)
    requires Shaped(tbl) && r <= LAST_FINITE && AtLeast(df, tbl[r].df)
    requires r == LAST_FINITE || AtMost(df, tbl[r + 1].df)
    ensures tbl[r + 1].t <= SrcBracket(tbl, df, r) <= tbl[r].t
  {
    AnchorFacts(tbl, r);
    if r < LAST_FINITE {
      SegmentBetween(tbl, r, df);
    }
  }

  /** Inside a finite bracket every exit of the loop agrees with the
      interpolation, the exact matches included. */
  lemma {:induction false} BracketIsSegment(tbl: seq<Anchor>, df: real, r: nat)
    requires Shaped(tbl) && r < LAST_FINITE
    ensures SrcBracket(tbl, df, r) == Segment(tbl, r, df)
  {
    AnchorFacts(tbl, r);
    SegmentEnds(tbl, r);
  }

  /** The last bracket: 2.042 up to df 60 and 1.96 above it. */
  lemma {:induction false} BracketTail(tbl: seq<Anchor>, df: real)
    requires Shaped(tbl)
    ensures SrcBracket(tbl, df, LAST_FINITE) == if df > 60.0 then 1.96 else 2.042
  {
  }

  /** From df 1 on, the answer lies between the t-values of the two anchors
      of the bracket `df` falls in. */
  lemma {:induction false} LocatedBounds(tbl: seq<Anchor>, df: real, r: nat)
    requires Shaped(tbl) && 1.0 <= df && r == Locate(tbl, df, 0)
    ensures tbl[r + 1].t <= TFactor95(tbl, df) <= tbl[r].t
  {
    LocatedBracket(tbl, df);
    BracketBounds(tbl, df, r);
  }

  /** Every answer lies between 1.96 and 12.706; below df 1 it is the
      conservative 12.706 of df 1. */
  lemma {:induction false} TFactor95Range(tbl: seq<Anchor>, df: real)
    requires Shaped(tbl)
    ensures 1.96 <= TFactor95(tbl, df) <= 12.706
    ensures df < 1.0 ==> TFactor95(tbl, df) == tbl[0].t
  {
    if 1.0 <= df {
      var r := Locate(tbl, df, 0);
      LocatedBounds(tbl, df, r);
      TRange(tbl, r);
      TRange(tbl, r + 1);
    }
  }

  /** A df in a later bracket never gets a larger t-factor. */
  lemma {:induction false} AcrossBrackets(tbl: seq<Anchor>, df1: real, df2: real)
    requires Shaped(tbl) && 1.0 <= df1 <= df2 && Locate(tbl, df1, 0) < Locate(tbl, df2, 0)
    ensures TFactor95(tbl, df2) <= TFactor95(tbl, df1)
  {
    var r1, r2 := Locate(tbl, df1, 0), Locate(tbl, df2, 0);
    LocatedBounds(tbl, df1, r1);
    LocatedBounds(tbl, df2, r2);
    assert tbl[r2].t <= tbl[r1 + 1].t;
  }

  /** Within one bracket a larger df never gets a larger t-factor. */
  lemma {:induction false} WithinBracket(tbl: seq<Anchor>, df1: real, df2: real)
    requires Shaped(tbl) && 1.0 <= df1 <= df2 && Locate(tbl, df1, 0) == Locate(tbl, df2, 0)
    ensures TFactor95(tbl, df2) <= TFactor95(tbl, df1)
  {
    var r := Locate(tbl, df1, 0);
    if r < LAST_FINITE {
      BracketIsSegment(tbl, df1, r);
      BracketIsSegment(tbl, df2, r);
      SegmentMonotone(tbl, r, df1, df2);
    } else {
      BracketTail(tbl, df1);
      BracketTail(tbl, df2);
    }
  }

  /** More degrees of freedom never give a larger t-factor. */
  lemma {:induction false} TFactor95Monotone(tbl: seq<Anchor>, df1: real, df2: real)
    requires Shaped(tbl) && df1 <= df2
    ensures TFactor95(tbl, df2) <= TFactor95(tbl, df1)
  {
    TFactor95Range(tbl, df2);
    if 1.0 <= df1 {
      LocateMonotone(tbl, df1, df2, 0);
      if Locate(tbl, df1, 0) < Locate(tbl, df2, 0) {
        AcrossBrackets(tbl, df1, df2);
      } else {
        WithinBracket(tbl, df1, df2);
      }
    }
  }

  /** At every finite anchor the table value is returned exactly. */
  lemma {:induction false} TFactor95AtAnchor(tbl: seq<Anchor>, i: nat)
    requires Shaped(tbl) && i <= LAST_FINITE
    ensures TFactor95(tbl, tbl[i].df.value) == tbl[i].t
  {
    AnchorFacts(tbl, i);
    var x := tbl[i].df.value;
    if i == 0 {
      LocateIs(tbl, x, 0, 0);
    } else {
      AnchorFacts(tbl, i - 1);
      LocateIs(tbl, x, 0, i - 1);
    }
  }

  /** Between two finite anchors the answer is the linear interpolation
      between them. */
  lemma {:induction false} TFactor95Interpolates(tbl: seq<Anchor>, i: nat, df: real)
    requires Shaped(tbl) && i < LAST_FINITE
    requires tbl[i].df.value <= df <= tbl[i + 1].df.value
    ensures TFactor95(tbl, df) == Lerp(tbl[i].df.value, tbl[i].t, tbl[i + 1].df.value, tbl[i + 1].t, df)
  {
    AnchorFacts(tbl, i);
    assert tbl[0].df.value <= tbl[i].df.value;
    if df == tbl[i].df.value {
      TFactor95AtAnchor(tbl, i);
      SegmentEnds(tbl, i);
    } else {
      LocateIs(tbl, df, 0, i);
      BracketIsSegment(tbl, df, i);
    }
  }

  /** Above df 30 the answer is 2.042 up to df 60 and 1.96 beyond. */
  lemma {:induction false} TFactor95Tail(tbl: seq<Anchor>, df: real)
    requires Shaped(tbl) && 30.0 < df
    ensures TFactor95(tbl, df) == if df > 60.0 then 1.96 else 2.042
  {
    LocateIs(tbl, df, 0, LAST_FINITE);
    BracketTail(tbl, df);
  }

  /** One or two samples (df clamped to 1) give the t-value of df 1. */
  lemma {:induction false} KFactorFromFewSamples(n: int)
    requires n <= 2
    ensures GetKFactorFromN(n) == 12.706
  {
    TableShaped();
    TFactor95AtAnchor(T_TABLE, 0);
  }

  /** The factor for `n` samples lies in [1.96, 12.706] and never grows with
      `n`. */
  lemma {:induction false} KFactorFromNMonotone(n1: int, n2: int)
    requires n1 <= n2
    ensures 1.96 <= GetKFactorFromN(n2) <= GetKFactorFromN(n1) <= 12.706
  {
    TableShaped();
    var d1 := if n1 - 1 < 1 then 1.0 else (n1 - 1) as real;
    var d2 := if n2 - 1 < 1 then 1.0 else (n2 - 1) as real;
    TFactor95Monotone(T_TABLE, d1, d2);
    TFactor95Range(T_TABLE, d1);
    TFactor95Range(T_TABLE, d2);
  }
}
