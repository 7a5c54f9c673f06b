/** The two-sided 95% Student-t table that both generations of the app hold
    as `T_TABLE` (`src/utils/kFactor.ts` and `utils/kFactor.ts` declare the
    same sixteen anchors), with the piecewise-linear interpolation between
    neighbouring anchors and the facts about it that both lookups share.

    The search and interpolation are stated for any table of the same shape
    (`Shaped`), and `TableShaped` shows that `T_TABLE` has it. */
module TTable {
  import opened Numeric

  /** Degrees of freedom of an anchor: a finite value, or the `Infinity` of
      the last entry. */
  datatype Dof = Dof(value: real) | Infinite

  datatype Anchor = Anchor(df: Dof, t: real)

  const T_TABLE: seq<Anchor> := [
    Anchor(Dof(1.0), 12.706), Anchor(Dof(2.0), 4.303), Anchor(Dof(3.0), 3.182),
    Anchor(Dof(4.0), 2.776), Anchor(Dof(5.0), 2.571), Anchor(Dof(6.0), 2.447),
    Anchor(Dof(7.0), 2.365), Anchor(Dof(8.0), 2.306), Anchor(Dof(9.0), 2.262),
    Anchor(Dof(10.0), 2.228), Anchor(Dof(12.0), 2.179), Anchor(Dof(15.0), 2.131),
    Anchor(Dof(20.0), 2.086), Anchor(Dof(25.0), 2.060), Anchor(Dof(30.0), 2.042),
    Anchor(Infinite, 1.960)]

  /** Index of the last finite anchor (df 30). */
  const LAST_FINITE: nat := 14

  // JavaScript comparisons of a finite number with an anchor's df, where
  // every number is below `Infinity` and none equals it.

  predicate Equals(x: real, d: Dof) { d.Dof? && x == d.value }
  predicate Above(x: real, d: Dof) { d.Dof? && d.value < x }
  predicate Below(x: real, d: Dof) { d.Infinite? || x < d.value }
  predicate AtLeast(x: real, d: Dof) { d.Dof? && d.value <= x }
  predicate AtMost(x: real, d: Dof) { d.Infinite? || x <= d.value }

  /** Sixteen anchors: df 1 with t 12.706 first, finite and increasing by at
      least one up to df 30 with t 2.042, then `Infinity` with t 1.96; the
      t-values never increase. */
  ghost predicate Shaped(tbl: seq<Anchor>)
  {
    |tbl| == LAST_FINITE + 2 &&
    tbl[0] == Anchor(Dof(1.0), 12.706) &&
    tbl[LAST_FINITE] == Anchor(Dof(30.0), 2.042) &&
    tbl[LAST_FINITE + 1] == Anchor(Infinite, 1.96) &&
    (forall i :: 0 <= i <= LAST_FINITE ==> tbl[i].df.Dof?) &&
    (forall a, b :: 0 <= a < b <= LAST_FINITE ==> tbl[a].df.value + 1.0 <= tbl[b].df.value) &&
    (forall a, b :: 0 <= a <= b <= LAST_FINITE + 1 ==> tbl[b].t <= tbl[a].t)
  }

  /** The same shape stated between neighbours only. */
  ghost predicate LocallyShaped(tbl: seq<Anchor>)
  {
    |tbl| == LAST_FINITE + 2 &&
    tbl[0] == Anchor(Dof(1.0), 12.706) &&
    tbl[LAST_FINITE] == Anchor(Dof(30.0), 2.042) &&
    tbl[LAST_FINITE + 1] == Anchor(Infinite, 1.96) &&
    (forall i :: 0 <= i <= LAST_FINITE ==> tbl[i].df.Dof?) &&
    (forall i :: 0 <= i < LAST_FINITE ==> tbl[i].df.value + 1.0 <= tbl[i + 1].df.value) &&
    (forall i :: 0 <= i <= LAST_FINITE ==> tbl[i + 1].t <= tbl[i].t)
  }

  lemma {:induction false} DfClimbs(tbl: seq<Anchor>, a: nat, b: nat)
    requires LocallyShaped(tbl) && a < b <= LAST_FINITE
    ensures tbl[a].df.value + 1.0 <= tbl[b].df.value
    decreases b - a
  {
    if a + 1 < b {
      DfClimbs(tbl, a, b - 1);
      assert tbl[b - 1].df.value + 1.0 <= tbl[b].df.value;
    }
  }

  lemma {:induction false} TDescends(tbl: seq<Anchor>, a: nat, b: nat)
    requires LocallyShaped(tbl) && a <= b <= LAST_FINITE + 1
    ensures tbl[b].t <= tbl[a].t
    decreases b - a
  {
    if a < b {
      TDescends(tbl, a, b - 1);
      assert tbl[b].t <= tbl[b - 1].t;
    }
  }

  /** Neighbour-to-neighbour steps add up to the whole shape. */
  lemma {:induction false} LocallyShapedIsShaped(tbl: seq<Anchor>)
    requires LocallyShaped(tbl)
    ensures Shaped(tbl)
  {
    forall a: nat, b: nat | a < b <= LAST_FINITE
      ensures tbl[a].df.value + 1.0 <= tbl[b].df.value
    {
      DfClimbs(tbl, a, b);
    }
    forall a: nat, b: nat | a <= b <= LAST_FINITE + 1
      ensures tbl[b].t <= tbl[a].t
    {
      TDescends(tbl, a, b);
    }
  }

  lemma {:induction false} TableFinite()
    ensures |T_TABLE| == LAST_FINITE + 2
    ensures forall i :: 0 <= i <= LAST_FINITE ==> T_TABLE[i].df.Dof?
  {
  }

  lemma {:induction false} TableGaps()
    ensures |T_TABLE| == LAST_FINITE + 2
    ensures forall i :: 0 <= i <= LAST_FINITE ==> T_TABLE[i].df.Dof?
    ensures forall i :: 0 <= i < LAST_FINITE ==> T_TABLE[i].df.value + 1.0 <= T_TABLE[i + 1].df.value
  {
  }

  lemma {:induction false} TableDescends()
    ensures |T_TABLE| == LAST_FINITE + 2
    ensures forall i :: 0 <= i <= LAST_FINITE ==> T_TABLE[i + 1].t <= T_TABLE[i].t
  {
  }

  lemma {:induction false} TableLocallyShaped()
    ensures LocallyShaped(T_TABLE)
  {
    TableFinite();
    TableGaps();
    TableDescends();
  }

  lemma {:induction false} TableShaped()
    ensures Shaped(T_TABLE)
  {
    TableLocallyShaped();
    LocallyShapedIsShaped(T_TABLE);
  }

  /** The shape around anchor `i`, one anchor at a time. */
  lemma {:induction false} AnchorFacts(tbl: seq<Anchor>, i: nat)
    requires Shaped(tbl) && i <= LAST_FINITE
    ensures tbl[i].df.Dof? && tbl[i + 1].t <= tbl[i].t
    ensures i < LAST_FINITE ==> tbl[i + 1].df.Dof? && tbl[i].df.value + 1.0 <= tbl[i + 1].df.value
    ensures i == LAST_FINITE ==> tbl[i + 1].df.Infinite?
  {
  }

  /** Every t-value lies between the last one (1.96) and the first (12.706). */
  lemma {:induction false} TRange(tbl: seq<Anchor>, i: nat)
    requires Shaped(tbl) && i < |tbl|
    ensures 1.96 <= tbl[i].t <= 12.706
  {
    assert tbl[LAST_FINITE + 1].t <= tbl[i].t <= tbl[0].t;
  }

  /** `tLow + (df - dfLow)/(dfHigh - dfLow) * (tHigh - tLow)`. */
  function Lerp(a: real, ta: real, b: real, tb: real, x: real): real
    requires a < b
  {
    ta + (x - a) / (b - a) * (tb - ta)
  }

  lemma {:induction false} RatioBounds(a: real, b: real, x: real)
    requires a + 1.0 <= b && a <= x <= b
    ensures 0.0 <= (x - a) / (b - a) <= 1.0
  {
    DivBounds(x - a, b - a, 0.0, 1.0);
  }

  lemma {:induction false} RatioMonotone(a: real, b: real, x: real, y: real)
    requires a + 1.0 <= b && x <= y
    ensures (x - a) / (b - a) <= (y - a) / (b - a)
  {
    var r, s := (x - a) / (b - a), (y - a) / (b - a);
    assert r * (b - a) == x - a;
    assert s * (b - a) == y - a;
    assert (s - r) * (b - a) == y - x;
  }

  lemma {:induction false} ScaleDown(r: real, d: real)
    requires 0.0 <= r <= 1.0 && d <= 0.0
    ensures d <= r * d <= 0.0
  {
    assert (1.0 - r) * d <= 0.0;
  }

  lemma {:induction false} ScaleMonotone(r: real, s: real, d: real)
    requires r <= s && d <= 0.0
    ensures s * d <= r * d
  {
    assert (s - r) * d <= 0.0;
  }

  /** The interpolation meets both anchors exactly. */
  lemma {:induction false} LerpEnds(a: real, ta: real, b: real, tb: real)
    requires a < b
    ensures Lerp(a, ta, b, tb, a) == ta && Lerp(a, ta, b, tb, b) == tb
  {
    assert (b - a) / (b - a) == 1.0;
  }

  /** Between two anchors the interpolation stays between their t-values. */
  lemma {:induction false} LerpBetween(a: real, ta: real, b: real, tb: real, x: real)
    requires a + 1.0 <= b && a <= x <= b && tb <= ta
    ensures tb <= Lerp(a, ta, b, tb, x) <= ta
  {
    RatioBounds(a, b, x);
    ScaleDown((x - a) / (b - a), tb - ta);
  }

  /** With a non-increasing pair of t-values the interpolation is
      non-increasing in df. */
  lemma {:induction false} LerpMonotone(a: real, ta: real, b: real, tb: real, x: real, y: real)
    requires a + 1.0 <= b && x <= y && tb <= ta
    ensures Lerp(a, ta, b, tb, y) <= Lerp(a, ta, b, tb, x)
  {
    RatioMonotone(a, b, x, y);
    ScaleMonotone((x - a) / (b - a), (y - a) / (b - a), tb - ta);
  }

  /** The interpolation on segment `j` (anchors j and j + 1, both finite). */
  function Segment(tbl: seq<Anchor>, j: nat, x: real): real
    requires Shaped(tbl) && j < LAST_FINITE
  {
    AnchorFacts(tbl, j);
    Lerp(tbl[j].df.value, tbl[j].t, tbl[j + 1].df.value, tbl[j + 1].t, x)
  }

  lemma {:induction false} SegmentEnds(tbl: seq<Anchor>, j: nat)
    requires Shaped(tbl) && j < LAST_FINITE
    ensures Segment(tbl, j, tbl[j].df.value) == tbl[j].t
    ensures Segment(tbl, j, tbl[j + 1].df.value) == tbl[j + 1].t
  {
    AnchorFacts(tbl, j);
    LerpEnds(tbl[j].df.value, tbl[j].t, tbl[j + 1].df.value, tbl[j + 1].t);
  }

  lemma {:induction false} SegmentBetween(tbl: seq<Anchor>, j: nat, x: real)
    requires Shaped(tbl) && j < LAST_FINITE
    requires tbl[j].df.value <= x <= tbl[j + 1].df.value
    ensures tbl[j + 1].t <= Segment(tbl, j, x) <= tbl[j].t
  {
    AnchorFacts(tbl, j);
    LerpBetween(tbl[j].df.value, tbl[j].t, tbl[j + 1].df.value, tbl[j + 1].t, x);
  }

  lemma {:induction false} SegmentMonotone(tbl: seq<Anchor>, j: nat, x: real, y: real)
    requires Shaped(tbl) && j < LAST_FINITE && x <= y
    ensures Segment(tbl, j, y) <= Segment(tbl, j, x)
  {
    AnchorFacts(tbl, j);
    LerpMonotone(tbl[j].df.value, tbl[j].t, tbl[j + 1].df.value, tbl[j + 1].t, x, y);
  }

  /** The bracket a scan of `tbl` from index `j` settles on: the first
      segment whose upper anchor is at or above `x`, or the last one, whose
      upper anchor is `Infinity`. */
  function Locate(tbl: seq<Anchor>, x: real, j: nat): (r: nat)
    requires |tbl| == LAST_FINITE + 2 && j <= LAST_FINITE
    ensures j <= r <= LAST_FINITE
    ensures r == LAST_FINITE || AtMost(x, tbl[r + 1].df)
    ensures r == j || Above(x, tbl[r].df)
    decreases LAST_FINITE - j
  {
    if j == LAST_FINITE || AtMost(x, tbl[j + 1].df) then j else Locate(tbl, x, j + 1)
  }

  /** Every anchor the scan from `j` passes lies below `x`. */
  lemma {:induction false} LocatePast(tbl: seq<Anchor>, x: real, j: nat, k: nat)
    requires |tbl| == LAST_FINITE + 2 && j < k <= LAST_FINITE && k <= Locate(tbl, x, j)
    ensures Above(x, tbl[k].df)
    decreases LAST_FINITE - j
  {
    if j + 1 < k {
      LocatePast(tbl, x, j + 1, k);
    }
  }

  /** A larger df never lands in an earlier bracket. */
  lemma {:induction false} LocateMonotone(tbl: seq<Anchor>, x: real, y: real, j: nat)
    requires |tbl| == LAST_FINITE + 2 && j <= LAST_FINITE && x <= y
    ensures Locate(tbl, x, j) <= Locate(tbl, y, j)
    decreases LAST_FINITE - j
  {
    if j < LAST_FINITE && !AtMost(y, tbl[j + 1].df) {
      if !AtMost(x, tbl[j + 1].df) {
        LocateMonotone(tbl, x, y, j + 1);
      }
    }
  }

  /** The scan from `j` settles on `i` when every anchor after `j` up to `i`
      lies below `x` and the anchor after `i` does not. */
  lemma {:induction false} LocateIs(tbl: seq<Anchor>, x: real, j: nat, i: nat)
    requires Shaped(tbl) && j <= i <= LAST_FINITE
    requires i == j || Above(x, tbl[i].df)
    requires i == LAST_FINITE || AtMost(x, tbl[i + 1].df)
    ensures Locate(tbl, x, j) == i
    decreases i - j
  {
    if j < i {
      assert tbl[j + 1].df.value <= tbl[i].df.value;
      LocateIs(tbl, x, j + 1, i);
    }
  }

  /** From df 1 on, the located bracket holds `x`. */
  lemma {:induction false} LocatedBracket(tbl: seq<Anchor>, x: real)
    requires Shaped(tbl) && 1.0 <= x
    ensures AtLeast(x, tbl[Locate(tbl, x, 0)].df)
    ensures Locate(tbl, x, 0) == LAST_FINITE || AtMost(x, tbl[Locate(tbl, x, 0) + 1].df)
  {
    AnchorFacts(tbl, Locate(tbl, x, 0));
  }
}
