/** The stable sort by an integer key that `Array.prototype.sort` performs when its comparator
    is `(a, b) => key(a) - key(b)`: a functional specification (insertion from the right), its
    properties, and an in-place insertion sort on an array proved to compute it. */
module Sorting {

  /** Inserts `x` after the last element of `s` whose key does not exceed `key(x)`, scanning
      backwards from the end. */
  function Insert<T>(s: seq<T>, x: T, key: T -> int): (r: seq<T>)
    ensures |r| == |s| + 1
  {
    if |s| == 0 then [x]
    else if key(s[|s| - 1]) <= key(x) then s + [x]
    else Insert(s[..|s| - 1], x, key) + [s[|s| - 1]]
  }

  /** The stable sort of `s` by `key`. */
  function SortBy<T>(s: seq<T>, key: T -> int): (r: seq<T>)
    ensures |r| == |s|
  {
    if |s| == 0 then [] else Insert(SortBy(s[..|s| - 1], key), s[|s| - 1], key)
  }

  predicate SortedBy<T>(s: seq<T>, key: T -> int)
  {
    forall i, j :: 0 <= i < j < |s| ==> key(s[i]) <= key(s[j])
  }

  /** A non-empty sequence is its front followed by its last element. */
  lemma SplitLast<T>(s: seq<T>)
    requires |s| > 0
    ensures s == s[..|s| - 1] + [s[|s| - 1]]
  {
  }

  lemma {:induction false} InsertPermutes<T>(s: seq<T>, x: T, key: T -> int)
    ensures multiset(Insert(s, x, key)) == multiset(s) + multiset{x}
    decreases |s|
  {
    if |s| > 0 && key(s[|s| - 1]) > key(x) {
      InsertPermutes(s[..|s| - 1], x, key);
      SplitLast(s);
    }
  }

  lemma {:induction false} InsertSorted<T>(s: seq<T>, x: T, key: T -> int)
    requires SortedBy(s, key)
    ensures SortedBy(Insert(s, x, key), key)
    decreases |s|
  {
    if |s| > 0 && key(s[|s| - 1]) > key(x) {
      var p := s[..|s| - 1];
      InsertSorted(p, x, key);
      InsertBounded(p, x, key, key(s[|s| - 1]));
    }
  }

  /** Inserting an element no greater than a bound into a list bounded by it keeps the bound. */
  lemma {:induction false} InsertBounded<T>(s: seq<T>, x: T, key: T -> int, b: int)
    requires forall k :: 0 <= k < |s| ==> key(s[k]) <= b
    requires key(x) <= b
    ensures forall k :: 0 <= k < |Insert(s, x, key)| ==> key(Insert(s, x, key)[k]) <= b
    decreases |s|
  {
    if |s| > 0 && key(s[|s| - 1]) > key(x) {
      InsertBounded(s[..|s| - 1], x, key, b);
    }
  }

  /** The sort rearranges its input. */
  lemma {:induction false} SortByPermutes<T>(s: seq<T>, key: T -> int)
    ensures multiset(SortBy(s, key)) == multiset(s)
    ensures |SortBy(s, key)| == |s|
    decreases |s|
  {
    if |s| > 0 {
      SortByPermutes(s[..|s| - 1], key);
      InsertPermutes(SortBy(s[..|s| - 1], key), s[|s| - 1], key);
      SplitLast(s);
    }
    assert |multiset(SortBy(s, key))| == |multiset(s)|;
  }

  /** The sort orders its output by key. */
  lemma {:induction false} SortBySorted<T>(s: seq<T>, key: T -> int)
    ensures SortedBy(SortBy(s, key), key)
    decreases |s|
  {
    if |s| > 0 {
      SortBySorted(s[..|s| - 1], key);
      InsertSorted(SortBy(s[..|s| - 1], key), s[|s| - 1], key);
    }
  }

  /** Input that is already in key order comes back unchanged: the sort is stable. */
  lemma {:induction false} SortByOfSorted<T>(s: seq<T>, key: T -> int)
    requires SortedBy(s, key)
    ensures SortBy(s, key) == s
    decreases |s|
  {
    if |s| > 0 {
      var p := s[..|s| - 1];
      assert SortedBy(p, key);
      SortByOfSorted(p, key);
      assert s == p + [s[|s| - 1]];
    }
  }

  /** The items of `s` whose key is `v`, in their order in `s`. */
  function WithKey<T>(s: seq<T>, key: T -> int, v: int): (r: seq<T>)
    ensures |r| <= |s|
    ensures forall k :: 0 <= k < |r| ==> key(r[k]) == v
  {
    if |s| == 0 then []
    else WithKey(s[..|s| - 1], key, v) + (if key(s[|s| - 1]) == v then [s[|s| - 1]] else [])
  }

  lemma WithKeySnoc<T>(s: seq<T>, x: T, key: T -> int, v: int)
    ensures WithKey(s + [x], key, v) == WithKey(s, key, v) + (if key(x) == v then [x] else [])
  {
    assert (s + [x])[..|s|] == s;
  }

  /** Inserting x adds it after every item of its own key, since it only moves past larger
      keys. */
  lemma {:induction false} InsertWithKey<T>(s: seq<T>, x: T, key: T -> int, v: int)
    ensures WithKey(Insert(s, x, key), key, v) == WithKey(s, key, v) + (if key(x) == v then [x] else [])
    decreases |s|
  {
    if |s| == 0 {
      WithKeySnoc([], x, key, v);
      assert [] + [x] == [x];
    } else if key(s[|s| - 1]) <= key(x) {
      WithKeySnoc(s, x, key, v);
    } else {
      var p, last := s[..|s| - 1], s[|s| - 1];
      assert Insert(s, x, key) == Insert(p, x, key) + [last];
      InsertWithKey(p, x, key, v);
      WithKeySnoc(Insert(p, x, key), last, key, v);
      assert WithKey(s, key, v) == WithKey(p, key, v) + (if key(last) == v then [last] else []);
      if key(x) == v {
        assert key(last) != v;
      } else {
        assert WithKey(Insert(p, x, key), key, v) == WithKey(p, key, v);
      }
    }
  }

  /** The sort is stable: the items with any one key come out in their input order. */
  lemma {:induction false} SortByStable<T>(s: seq<T>, key: T -> int, v: int)
    ensures WithKey(SortBy(s, key), key, v) == WithKey(s, key, v)
    decreases |s|
  {
    if |s| > 0 {
      var p, last := s[..|s| - 1], s[|s| - 1];
      SortByStable(p, key, v);
      InsertWithKey(SortBy(p, key), last, key, v);
    }
  }

  /** One backward step of the insertion: moving past an element with a larger key. */
  lemma InsertPastLarger<T>(p: seq<T>, j: int, x: T, key: T -> int)
    requires 0 < j <= |p| && key(p[j - 1]) > key(x)
    ensures Insert(p[..j], x, key) + p[j..] == Insert(p[..j - 1], x, key) + p[j - 1..]
  {
    assert p[..j][..j - 1] == p[..j - 1];
    assert p[j - 1..] == [p[j - 1]] + p[j..];
  }

  /** The insertion stops at the first element from the right whose key does not exceed x's. */
  lemma InsertStop<T>(p: seq<T>, j: int, x: T, key: T -> int)
    requires 0 <= j <= |p| && (j == 0 || key(p[j - 1]) <= key(x))
    ensures Insert(p[..j], x, key) == p[..j] + [x]
  {
  }

  /** Shifting the element left of the hole into it moves the hole one place left. */
  lemma ShiftHole<T>(s: seq<T>, p: seq<T>, rest: seq<T>, j: int)
    requires 0 < j <= |p| && j < |s|
    requires s == p[..j] + [s[j]] + p[j..] + rest
    ensures s[j - 1] == p[j - 1]
    ensures s[j := s[j - 1]] == p[..j - 1] + [p[j - 1]] + p[j - 1..] + rest
  {
    var t := s[j := s[j - 1]];
    var u := p[..j - 1] + [p[j - 1]] + p[j - 1..] + rest;
    assert |t| == |u|;
    forall k | 0 <= k < |t| ensures t[k] == u[k] {
      if k < j - 1 {
        assert t[k] == s[k] == p[k];
      } else if k > j {
        assert t[k] == s[k] == (p[j..] + rest)[k - j - 1] == (p[j - 1..] + rest)[k - j];
      }
    }
  }

  /** Writing x into the hole. */
  lemma FillHole<T>(s: seq<T>, p: seq<T>, rest: seq<T>, j: int, x: T)
    requires 0 <= j <= |p| && j < |s|
    requires s == p[..j] + [s[j]] + p[j..] + rest
    ensures s[j := x][..|p| + 1] == p[..j] + [x] + p[j..]
    ensures s[j := x][|p| + 1..] == rest
  {
    var t := p[..j] + [x] + p[j..];
    assert s[j := x] == t + rest;
  }

  /** Inserts `a[i]` into the sorted prefix `a[..i]`, shifting larger elements one place right. */
  method InsertInto<T>(a: array<T>, i: int, key: T -> int)
    requires 0 <= i < a.Length
    modifies a
    ensures a[..i + 1] == Insert(old(a[..i]), old(a[i]), key)
    ensures a[i + 1..] == old(a[i + 1..])
  {
    ghost var p := a[..i];
    ghost var rest := a[i + 1..];
    var x := a[i];
    var j := i;
    assert p[..i] == p && p[i..] == [];
    assert a[..] == p[..i] + [a[i]] + p[i..] + rest;
    while j > 0 && key(a[j - 1]) > key(x)
      invariant 0 <= j <= i
      invariant a[..] == p[..j] + [a[j]] + p[j..] + rest
      invariant Insert(p, x, key) == Insert(p[..j], x, key) + p[j..]
    {
      InsertPastLarger(p, j, x, key);
      ShiftHole(a[..], p, rest, j);
      a[j] := a[j - 1];
      j := j - 1;
    }
    InsertStop(p, j, x, key);
    FillHole(a[..], p, rest, j, x);
    a[j] := x;
  }

  /** Sorts `a` in place, stably, by `key`. */
  method InsertionSort<T>(a: array<T>, key: T -> int)
    modifies a
    ensures a[..] == SortBy(old(a[..]), key)
  {
    ghost var input := a[..];
    var i := 0;
    while i < a.Length
      invariant 0 <= i <= a.Length
      invariant a[..i] == SortBy(input[..i], key)
      invariant a[i..] == input[i..]
    {
      assert input[..i + 1][..i] == input[..i];
      assert a[i] == input[i];
      InsertInto(a, i, key);
      i := i + 1;
    }
    assert input[..a.Length] == input;
    assert a[..a.Length] == a[..];
  }
}
