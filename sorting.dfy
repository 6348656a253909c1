/** `Array.prototype.sort` with a numeric comparator `(a, b) => key(a) - key(b)`.
    The sort is stable (required of every engine since ES2019), so it is specified
    by insertion sort: each element goes in front of the first element whose key is
    not smaller, which keeps equal keys in their original order. */
module Sorting {

  predicate SortedBy<T>(s: seq<T>, key: T -> real) {
    forall i, j :: 0 <= i < j < |s| ==> key(s[i]) <= key(s[j])
  }

  /** The elements of `s` whose key is `k`, in their order in `s`. */
  function KeyFilter<T>(s: seq<T>, key: T -> real, k: real): seq<T> {
    if s == [] then []
    else (if key(s[0]) == k then [s[0]] else []) + KeyFilter(s[1..], key, k)
  }

  function Insert<T>(x: T, s: seq<T>, key: T -> real): (r: seq<T>)
    requires SortedBy(s, key)
    ensures SortedBy(r, key)
    ensures multiset(r) == multiset(s) + multiset{x}
  {
    if s == [] || key(x) <= key(s[0]) then [x] + s
    else
      var t := Insert(x, s[1..], key);
      assert s == [s[0]] + s[1..];
      InsertLowerBound(x, s, t, key);
      ConsSorted(s[0], t, key);
      [s[0]] + t
  }

  /** Every element of the recursive insertion's result is at least the head it goes behind. */
  lemma InsertLowerBound<T>(x: T, s: seq<T>, t: seq<T>, key: T -> real)
    requires s != [] && SortedBy(s, key) && key(s[0]) < key(x)
    requires multiset(t) == multiset(s[1..]) + multiset{x}
    ensures forall j :: 0 <= j < |t| ==> key(s[0]) <= key(t[j])
  {
    forall j | 0 <= j < |t| ensures key(s[0]) <= key(t[j]) {
      assert t[j] in multiset(t);
      if t[j] != x {
        assert t[j] in multiset(s[1..]);
        var i :| 0 <= i < |s[1..]| && s[1..][i] == t[j];
        assert s[i + 1] == t[j];
      }
    }
  }

  lemma ConsSorted<T>(y: T, t: seq<T>, key: T -> real)
    requires SortedBy(t, key)
    requires forall j :: 0 <= j < |t| ==> key(y) <= key(t[j])
    ensures SortedBy([y] + t, key)
    ensures multiset([y] + t) == multiset{y} + multiset(t)
  {
    var r := [y] + t;
    forall i, j | 0 <= i < j < |r| ensures key(r[i]) <= key(r[j]) {
      assert r[j] == t[j - 1];
      if i > 0 { assert r[i] == t[i - 1]; }
    }
  }

  function SortBy<T>(s: seq<T>, key: T -> real): (r: seq<T>)
    ensures SortedBy(r, key)
    ensures multiset(r) == multiset(s)
  {
    if s == [] then []
    else
      assert s == [s[0]] + s[1..];
      Insert(s[0], SortBy(s[1..], key), key)
  }

  lemma {:induction false} InsertFilter<T>(x: T, s: seq<T>, key: T -> real, k: real)
    requires SortedBy(s, key)
    ensures KeyFilter(Insert(x, s, key), key, k) == (if key(x) == k then [x] else []) + KeyFilter(s, key, k)
  {
    if s == [] || key(x) <= key(s[0]) {
      KeyFilterCons(x, s, key, k);
    } else {
      var t := Insert(x, s[1..], key);
      assert Insert(x, s, key) == [s[0]] + t;
      InsertFilter(x, s[1..], key, k);
      KeyFilterCons(s[0], t, key, k);
      KeyFilterCons(s[0], s[1..], key, k);
      assert [s[0]] + s[1..] == s;
      SwapHeads(if key(s[0]) == k then [s[0]] else [], if key(x) == k then [x] else [], KeyFilter(s[1..], key, k));
    }
  }

  lemma KeyFilterCons<T>(y: T, t: seq<T>, key: T -> real, k: real)
    ensures KeyFilter([y] + t, key, k) == (if key(y) == k then [y] else []) + KeyFilter(t, key, k)
  {
    assert ([y] + t)[0] == y && ([y] + t)[1..] == t;
  }

  lemma SwapHeads<T>(h: seq<T>, f: seq<T>, rest: seq<T>)
    requires h == [] || f == []
    ensures h + (f + rest) == f + (h + rest)
  {
    if h == [] {
      assert h + (f + rest) == f + rest == f + (h + rest);
    } else {
      assert h + (f + rest) == h + rest == f + (h + rest);
    }
  }

  /** Stability: the elements with any one key keep their relative order. */
  lemma {:induction false} SortStable<T>(s: seq<T>, key: T -> real, k: real)
    ensures KeyFilter(SortBy(s, key), key, k) == KeyFilter(s, key, k)
  {
    if s != [] {
      SortStable(s[1..], key, k);
      InsertFilter(s[0], SortBy(s[1..], key), key, k);
    }
  }

  /** Sorting leaves the input untouched and returns a permutation of it, same
      length, in non-decreasing key order, stable on equal keys. */
  lemma SortSpec<T>(s: seq<T>, key: T -> real, k: real)
    ensures |SortBy(s, key)| == |s|
    ensures multiset(SortBy(s, key)) == multiset(s)
    ensures SortedBy(SortBy(s, key), key)
    ensures KeyFilter(SortBy(s, key), key, k) == KeyFilter(s, key, k)
  {
    var r := SortBy(s, key);
    assert |r| == |multiset(r)| == |multiset(s)| == |s|;
    SortStable(s, key, k);
  }

  lemma {:induction false} KeyFilterAppend<T>(a: seq<T>, b: seq<T>, key: T -> real, k: real)
    ensures KeyFilter(a + b, key, k) == KeyFilter(a, key, k) + KeyFilter(b, key, k)
  {
    if a == [] {
      assert a + b == b;
    } else {
      var h := if key(a[0]) == k then [a[0]] else [];
      assert a + b == [a[0]] + (a[1..] + b);
      assert a == [a[0]] + a[1..];
      KeyFilterCons(a[0], a[1..] + b, key, k);
      KeyFilterCons(a[0], a[1..], key, k);
      KeyFilterAppend(a[1..], b, key, k);
      assert h + (KeyFilter(a[1..], key, k) + KeyFilter(b, key, k))
        == (h + KeyFilter(a[1..], key, k)) + KeyFilter(b, key, k);
    }
  }

  lemma {:induction false} KeyFilterNone<T>(s: seq<T>, key: T -> real, k: real)
    requires forall i :: 0 <= i < |s| ==> key(s[i]) != k
    ensures KeyFilter(s, key, k) == []
  {
    if s != [] { KeyFilterNone(s[1..], key, k); }
  }
}
