/** The symmetric trim of an ascending value list that every aggregator of
    the system applies: `floor(trimFraction * n)` values off each end, and no
    trim at all when that would leave nothing. */
module Trimming {
  import opened Sorting

  /** The trim fraction all three aggregators use when the caller gives
      none. */
  const DEFAULT_TRIM_FRACTION: real := 0.10

  /** A relative index of `Array.prototype.slice`: a negative index counts
      from the end, and the result is clamped to [0, n]. */
  function SliceIndex(i: int, n: nat): (k: nat)
    ensures k <= n
    ensures 0 <= i <= n ==> k == i
  {
    if i < 0 then (if n + i < 0 then 0 else n + i) else if i > n then n else i
  }

  /** `s.slice(start, end)`. */
  function JsSlice<T>(s: seq<T>, start: int, end: int): (r: seq<T>)
    ensures |r| <= |s|
  {
    var a, b := SliceIndex(start, |s|), SliceIndex(end, |s|);
    if a < b then s[a..b] else []
  }

  /** `Math.floor(trimFraction * n)`, reset to 0 when fewer than one value
      would remain (the rule of `MeasurementSession.calculateResult`). */
  function TrimCount(f: real, n: nat): int
  {
    if n - 2 * TrimShare(f, n) < 1 then 0 else TrimShare(f, n)
  }

  /** `Math.floor(trimFraction * n)` */
  function TrimShare(f: real, n: nat): int
  {
    (f * n as real).Floor
  }

  /** The rule of the two calculators: the same count, but only tried when
      more than two values are valid. */
  function GuardedTrimCount(f: real, n: nat): int
  {
    if n > 2 then TrimCount(f, n) else 0
  }

  /** The values kept when `d` are dropped at each end,
      `x.slice(d, n - d)`. */
  function Trimmed(x: seq<real>, d: int): seq<real>
  {
    JsSlice(x, d, |x| - d)
  }

  /** For a fraction of at least zero the trim count is a floor of f·n, or 0
      when the floor would leave nothing; it never empties a non-empty list. */
  lemma {:induction false} TrimCountBounds(f: real, n: nat)
    requires 0.0 <= f
    ensures 0 <= TrimCount(f, n) <= TrimShare(f, n)
    ensures TrimCount(f, n) == 0 || TrimCount(f, n) == TrimShare(f, n)
    ensures 2 * TrimCount(f, n) <= n
    ensures 1 <= n ==> 1 <= n - 2 * TrimCount(f, n)
  {
    assert 0.0 <= f * n as real;
  }

  /** A trim count between 0 and n/2 drops exactly that many values at each
      end of the list and keeps the contiguous middle. */
  lemma {:induction false} TrimmedMiddle(x: seq<real>, d: int)
    requires 0 <= d && 2 * d <= |x|
    ensures Trimmed(x, d) == x[d..|x| - d]
    ensures |Trimmed(x, d)| == |x| - 2 * d
    ensures x == x[..d] + Trimmed(x, d) + x[|x| - d..]
  {
    assert x == x[..d] + x[d..|x| - d] + x[|x| - d..];
  }

  /** Whatever the fraction (negative ones included, where `slice` counts
      from the end), the trim keeps at least one value of a non-empty list. */
  lemma {:induction false} TrimKeepsOne(x: seq<real>, f: real)
    requires 1 <= |x|
    ensures 1 <= |Trimmed(x, TrimCount(f, |x|))|
    ensures 1 <= |Trimmed(x, GuardedTrimCount(f, |x|))|
  {
  }

  /** The kept values of an ascending list are a contiguous run of it, so
      they are ascending too. */
  lemma {:induction false} TrimmedIsRun(x: seq<real>, d: int)
    ensures exists lo, hi :: 0 <= lo <= hi <= |x| && Trimmed(x, d) == x[lo..hi]
    ensures Sorted(x) ==> Sorted(Trimmed(x, d))
  {
    var a, b := SliceIndex(d, |x|), SliceIndex(|x| - d, |x|);
    if a < b {
      if Sorted(x) {
        SliceSorted(x, a, b);
      }
      assert Trimmed(x, d) == x[a..b];
    } else {
      assert Trimmed(x, d) == x[0..0];
    }
  }

  /** For a fraction of at least zero the "more than two values" guard of the
      calculators changes nothing: below three values the floor already
      resets to 0. */
  lemma {:induction false} GuardRedundant(f: real, n: nat)
    requires 0.0 <= f
    ensures GuardedTrimCount(f, n) == TrimCount(f, n)
  {
    TrimCountBounds(f, n);
  }

  /** For a negative fraction the guard matters: two values and f = -0.5 give
      a count of -1 without it (and `slice(-1, 3)` keeps one value), 0 with
      it. */
  lemma {:induction false} GuardMattersForNegativeFraction()
    ensures TrimCount(-0.5, 2) == -1 && GuardedTrimCount(-0.5, 2) == 0
    ensures forall x: seq<real> :: |x| == 2 ==> |Trimmed(x, TrimCount(-0.5, 2))| == 1 && Trimmed(x, 0) == x
  {
    assert (-0.5 * 2 as real).Floor == -1;
  }

  /** With the default fraction nothing is trimmed from fewer than ten
      values, and from ten values on the floor of n/10 goes off each end. */
  lemma {:induction false} DefaultTrimCount(n: nat)
    ensures n < 10 ==> TrimCount(DEFAULT_TRIM_FRACTION, n) == 0
    ensures 10 <= n ==> TrimCount(DEFAULT_TRIM_FRACTION, n) == TrimShare(DEFAULT_TRIM_FRACTION, n) >= 1
  {
    var share := DEFAULT_TRIM_FRACTION * n as real;
    assert 0.0 <= share;
    if n < 10 {
      assert share < 1.0;
    } else {
      assert 1.0 <= share;
      assert share.Floor as real <= share;
      assert 2.0 * share < n as real;
    }
  }
}
