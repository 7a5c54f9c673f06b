/** Removal by id from an ordered list of records, the `filter(s => s.id !== id)`
    that every manager and session of the system applies. */
module IdList {

  /** The records of `s` whose key differs from `id`, in their original order. */
  function Without<T(!new)>(s: seq<T>, key: T -> string, id: string): (r: seq<T>)
    ensures |r| <= |s|
    ensures forall x :: x in r <==> x in s && key(x) != id
  {
    if s == [] then []
    else (if key(s[0]) == id then [] else [s[0]]) + Without(s[1..], key, id)
  }

  /** Filtering distributes over concatenation; with the singleton cases this
      pins the order of the kept records down to their order in `s`. */
  lemma {:induction false} WithoutAppend<T(!new)>(a: seq<T>, b: seq<T>, key: T -> string, id: string)
    ensures Without(a + b, key, id) == Without(a, key, id) + Without(b, key, id)
  {
    if a == [] {
      assert a + b == b;
    } else {
      assert (a + b)[1..] == a[1..] + b;
      WithoutAppend(a[1..], b, key, id);
    }
  }

  /** A list holding no record with that id is left as it is. */
  lemma {:induction false} WithoutAbsent<T(!new)>(s: seq<T>, key: T -> string, id: string)
    requires forall x :: x in s ==> key(x) != id
    ensures Without(s, key, id) == s
  {
    if s != [] {
      WithoutAbsent(s[1..], key, id);
      assert [s[0]] + s[1..] == s;
    }
  }

  /** Removing twice by the same id removes nothing more. */
  lemma {:induction false} WithoutIdempotent<T(!new)>(s: seq<T>, key: T -> string, id: string)
    ensures Without(Without(s, key, id), key, id) == Without(s, key, id)
  {
    WithoutAbsent(Without(s, key, id), key, id);
  }

  /** Appending a record under a fresh id and then removing that id restores
      the list: add and remove are inverse. */
  lemma {:induction false} AddThenRemove<T(!new)>(s: seq<T>, x: T, key: T -> string)
    requires forall y :: y in s ==> key(y) != key(x)
    ensures Without(s + [x], key, key(x)) == s
  {
    WithoutAppend(s, [x], key, key(x));
    WithoutAbsent(s, key, key(x));
    assert Without([x], key, key(x)) == [];
  }
}
