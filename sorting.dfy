/** The ascending numeric sort `[...xs].sort((a, b) => a - b)` that the
    system applies to copies of its value lists, and the extremes
    `Math.min(...xs)` / `Math.max(...xs)`. */
module Sorting {

  predicate Sorted(s: seq<real>)
  {
    forall i, j :: 0 <= i < j < |s| ==> s[i] <= s[j]
  }

  function Insert(x: real, s: seq<real>): (r: seq<real>)
    requires Sorted(s)
    ensures Sorted(r) && multiset(r) == multiset(s) + multiset{x}
    ensures |r| == |s| + 1
  {
    if s == [] then [x]
    else if x <= s[0] then [x] + s
    else
      var rest := Insert(x, s[1..]);
      assert s == [s[0]] + s[1..];
      LowerBoundPreserved(s[0], s[1..], x, rest);
      [s[0]] + rest
  }

  lemma {:induction false} LowerBoundPreserved(lo: real, s: seq<real>, x: real, r: seq<real>)
    requires forall i :: 0 <= i < |s| ==> lo <= s[i]
    requires lo <= x && multiset(r) == multiset(s) + multiset{x}
    ensures forall i :: 0 <= i < |r| ==> lo <= r[i]
  {
    forall i | 0 <= i < |r| ensures lo <= r[i] {
      assert r[i] in multiset(r);
      if r[i] != x {
        assert r[i] in multiset(s);
        var k :| 0 <= k < |s| && s[k] == r[i];
      }
    }
  }

  /** An ascending copy: sorted, and a permutation of the input. */
  function SortAsc(s: seq<real>): (r: seq<real>)
    ensures Sorted(r) && multiset(r) == multiset(s)
    ensures |r| == |s|
  {
    if s == [] then []
    else
      assert s == s[..|s| - 1] + [s[|s| - 1]];
      Insert(s[|s| - 1], SortAsc(s[..|s| - 1]))
  }

  /** Two sorted sequences with the same elements are equal, so an
      ascending sort has exactly one possible result. */
  lemma {:induction false} SortedUnique(a: seq<real>, b: seq<real>)
    requires Sorted(a) && Sorted(b) && multiset(a) == multiset(b)
    ensures a == b
  {
    if a != [] {
      SameLeast(a, b);
      DropHead(a, b);
      SliceSorted(a, 1, |a|);
      SliceSorted(b, 1, |b|);
      SortedUnique(a[1..], b[1..]);
      assert a == [a[0]] + a[1..] && b == [b[0]] + b[1..];
    }
  }

  lemma {:induction false} SameLeast(a: seq<real>, b: seq<real>)
    requires Sorted(a) && Sorted(b) && multiset(a) == multiset(b) && a != []
    ensures b != [] && a[0] == b[0]
  {
    assert |multiset(a)| == |a| && |multiset(b)| == |b|;
    assert b[0] in multiset(a) && a[0] in multiset(b);
    var i :| 0 <= i < |a| && a[i] == b[0];
    var j :| 0 <= j < |b| && b[j] == a[0];
    SortedBetweenEnds(a, i);
    SortedBetweenEnds(b, j);
  }

  lemma {:induction false} DropHead(a: seq<real>, b: seq<real>)
    requires multiset(a) == multiset(b) && a != [] && b != [] && a[0] == b[0]
    ensures multiset(a[1..]) == multiset(b[1..])
  {
    assert a == [a[0]] + a[1..] && b == [b[0]] + b[1..];
    assert multiset(a) == multiset{a[0]} + multiset(a[1..]);
    assert multiset(b) == multiset{a[0]} + multiset(b[1..]);
    assert multiset(a[1..]) == multiset(a) - multiset{a[0]};
    assert multiset(b[1..]) == multiset(b) - multiset{a[0]};
  }

  /** Sorting a sorted copy changes nothing. */
  lemma {:induction false} SortOfSorted(s: seq<real>)
    requires Sorted(s)
    ensures SortAsc(s) == s
  {
    SortedUnique(SortAsc(s), s);
  }

  /** Sorting depends on the elements only, not on their order. */
  lemma {:induction false} SortPermutationInvariant(a: seq<real>, b: seq<real>)
    requires multiset(a) == multiset(b)
    ensures SortAsc(a) == SortAsc(b)
  {
    SortedUnique(SortAsc(a), SortAsc(b));
  }

  /** `Math.min(...s)`: the least element. */
  function Min(s: seq<real>): (m: real)
    requires |s| > 0
    ensures m in s && forall x :: x in s ==> m <= x
    ensures forall i :: 0 <= i < |s| ==> m <= s[i]
  {
    if |s| == 1 then s[0]
    else
      var rest := Min(s[1..]);
      assert forall x :: x in s ==> x == s[0] || x in s[1..];
      if s[0] <= rest then s[0] else rest
  }

  /** `Math.max(...s)`: the greatest element. */
  function Max(s: seq<real>): (m: real)
    requires |s| > 0
    ensures m in s && forall x :: x in s ==> x <= m
    ensures forall i :: 0 <= i < |s| ==> s[i] <= m
  {
    if |s| == 1 then s[0]
    else
      var rest := Max(s[1..]);
      assert forall x :: x in s ==> x == s[0] || x in s[1..];
      if s[0] >= rest then s[0] else rest
  }

  /** The ends of the ascending copy are the extremes of the original. */
  lemma {:induction false} SortedEnds(s: seq<real>)
    requires |s| > 0
    ensures SortAsc(s)[0] == Min(s) && SortAsc(s)[|s| - 1] == Max(s)
  {
    var r := SortAsc(s);
    var lo, hi := Min(s), Max(s);
    assert lo in multiset(r) && hi in multiset(r);
    var i :| 0 <= i < |r| && r[i] == lo;
    var j :| 0 <= j < |r| && r[j] == hi;
    assert r[0] in multiset(s) && r[|r| - 1] in multiset(s);
    assert r[0] in s && r[|r| - 1] in s;
    SortedBetweenEnds(r, i);
    SortedBetweenEnds(r, j);
  }

  /** Every element of a non-empty sorted sequence lies between its ends. */
  lemma {:induction false} SortedBetweenEnds(s: seq<real>, i: int)
    requires Sorted(s) && 0 <= i < |s|
    ensures s[0] <= s[i] <= s[|s| - 1]
  {
  }

  /** A contiguous slice of a sorted sequence is sorted. */
  lemma {:induction false} SliceSorted(s: seq<real>, lo: int, hi: int)
    requires Sorted(s) && 0 <= lo <= hi <= |s|
    ensures Sorted(s[lo..hi])
  {
    var t := s[lo..hi];
    forall i, j | 0 <= i < j < |t| ensures t[i] <= t[j] {
      assert t[i] == s[lo + i] && t[j] == s[lo + j];
    }
  }
}
