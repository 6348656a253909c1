/** Summing and grouping over sequences of records: the `reduce((sum, x) => sum + f(x), 0)`
    totals, per-key totals of a group-by, the keys of a group-by in first-seen order
    (the insertion order of a JavaScript object or `Map`), and distinct counts
    (`new Set(values).size`). All are defined by recursion on the last element, the
    order in which `forEach` and `reduce` visit a sequence. */
module Grouping {

  function Sum<T>(s: seq<T>, f: T -> real): real {
    if s == [] then 0.0 else Sum(s[..|s| - 1], f) + f(s[|s| - 1])
  }

  /** The total of `f` over the elements whose key is `k`. */
  function KeyTotal<T, K(==)>(s: seq<T>, key: T -> K, f: T -> real, k: K): real {
    if s == [] then 0.0
    else KeyTotal(s[..|s| - 1], key, f, k) + (if key(s[|s| - 1]) == k then f(s[|s| - 1]) else 0.0)
  }

  predicate NoDuplicates<K(==)>(ks: seq<K>) {
    forall i, j :: 0 <= i < j < |ks| ==> ks[i] != ks[j]
  }

  /** The distinct keys of `s`, each where it first occurs. */
  function FirstSeenKeys<T, K(==)>(s: seq<T>, key: T -> K): (r: seq<K>)
    ensures NoDuplicates(r)
    ensures forall i :: 0 <= i < |s| ==> key(s[i]) in r
    ensures forall k :: k in r ==> exists i :: 0 <= i < |s| && key(s[i]) == k
  {
    if s == [] then []
    else
      var p := FirstSeenKeys(s[..|s| - 1], key);
      var x := key(s[|s| - 1]);
      assert forall i :: 0 <= i < |s| - 1 ==> s[..|s| - 1][i] == s[i];
      if x in p then p else p + [x]
  }

  /** The first-seen order: the first occurrence of `ks[i]` precedes that of `ks[j]` for i < j. */
  lemma {:induction false} FirstSeenOrder<T, K>(s: seq<T>, key: T -> K, i: int, j: int)
    requires 0 <= i < j < |FirstSeenKeys(s, key)|
    ensures exists a :: 0 <= a < |s| && key(s[a]) == FirstSeenKeys(s, key)[i]
              && forall b :: 0 <= b <= a ==> key(s[b]) != FirstSeenKeys(s, key)[j]
  {
    var p := FirstSeenKeys(s[..|s| - 1], key);
    var ks := FirstSeenKeys(s, key);
    var pre := s[..|s| - 1];
    assert forall c :: 0 <= c < |pre| ==> pre[c] == s[c];
    if j < |p| {
      assert ks[i] == p[i] && ks[j] == p[j];
      FirstSeenOrder(pre, key, i, j);
      var a :| 0 <= a < |pre| && key(pre[a]) == p[i] && forall b :: 0 <= b <= a ==> key(pre[b]) != p[j];
      assert key(s[a]) == ks[i];
    } else {
      // ks[j] is the last element's key, new to the prefix
      assert ks[i] == p[i] && ks[j] == key(s[|s| - 1]) && ks[j] !in p;
      assert p[i] in p;
      var a :| 0 <= a < |pre| && key(pre[a]) == p[i];
      forall b | 0 <= b <= a ensures key(s[b]) != ks[j] {
        assert key(pre[b]) in p;
      }
    }
  }

  /** The set of keys occurring in `s` (the keys of a group-by record). */
  function KeySet<T, K(==)>(s: seq<T>, key: T -> K): (r: set<K>)
    ensures forall i :: 0 <= i < |s| ==> key(s[i]) in r
    ensures forall k :: k in r ==> exists i :: 0 <= i < |s| && key(s[i]) == k
  {
    if s == [] then {}
    else
      assert forall i :: 0 <= i < |s| - 1 ==> s[..|s| - 1][i] == s[i];
      KeySet(s[..|s| - 1], key) + {key(s[|s| - 1])}
  }

  /** Σ over the keys `ks` of each key's total. */
  function SumOver<T, K(==)>(ks: seq<K>, s: seq<T>, key: T -> K, f: T -> real): real {
    if ks == [] then 0.0 else SumOver(ks[..|ks| - 1], s, key, f) + KeyTotal(s, key, f, ks[|ks| - 1])
  }

  lemma {:induction false} SumOverSnoc<T, K>(ks: seq<K>, s: seq<T>, x: T, key: T -> K, f: T -> real)
    requires NoDuplicates(ks)
    ensures SumOver(ks, s + [x], key, f) == SumOver(ks, s, key, f) + (if key(x) in ks then f(x) else 0.0)
  {
    assert (s + [x])[..|s + [x]| - 1] == s;
    if ks != [] {
      SumOverSnoc(ks[..|ks| - 1], s, x, key, f);
      assert ks == ks[..|ks| - 1] + [ks[|ks| - 1]];
    }
  }

  /** Grouping loses nothing: when every key occurs once in `ks` and `ks` covers all keys
      present, the per-key totals add up to the grand total. */
  lemma {:induction false} PartitionTotal<T, K>(ks: seq<K>, s: seq<T>, key: T -> K, f: T -> real)
    requires NoDuplicates(ks)
    requires forall i :: 0 <= i < |s| ==> key(s[i]) in ks
    ensures SumOver(ks, s, key, f) == Sum(s, f)
  {
    if s == [] {
      SumOverEmpty(ks, key, f);
    } else {
      var pre := s[..|s| - 1];
      assert s == pre + [s[|s| - 1]];
      assert forall i :: 0 <= i < |pre| ==> pre[i] == s[i];
      PartitionTotal(ks, pre, key, f);
      SumOverSnoc(ks, pre, s[|s| - 1], key, f);
    }
  }

  lemma {:induction false} SumOverEmpty<T, K>(ks: seq<K>, key: T -> K, f: T -> real)
    ensures SumOver(ks, [], key, f) == 0.0
  {
    if ks != [] { SumOverEmpty(ks[..|ks| - 1], key, f); }
  }

  /** The keys in first-seen order partition the grand total. */
  lemma GroupTotal<T, K>(s: seq<T>, key: T -> K, f: T -> real)
    ensures SumOver(FirstSeenKeys(s, key), s, key, f) == Sum(s, f)
  {
    PartitionTotal(FirstSeenKeys(s, key), s, key, f);
  }

  /** A key that never occurs has total 0. */
  lemma {:induction false} AbsentKeyTotal<T, K>(s: seq<T>, key: T -> K, f: T -> real, k: K)
    requires forall i :: 0 <= i < |s| ==> key(s[i]) != k
    ensures KeyTotal(s, key, f, k) == 0.0
  {
    if s != [] {
      assert forall i :: 0 <= i < |s| - 1 ==> s[..|s| - 1][i] == s[i];
      AbsentKeyTotal(s[..|s| - 1], key, f, k);
    }
  }

  // ---------------------------------------------------------------- distinct counts

  /** `new Set(values)` */
  function Distinct<K(==)>(vs: seq<K>): set<K> {
    set v | v in vs
  }

  /** A distinct count is at most the number of values, and at least 1 when there are any. */
  lemma {:induction false} DistinctBounds<K>(vs: seq<K>)
    ensures |Distinct(vs)| <= |vs|
    ensures |vs| > 0 ==> |Distinct(vs)| >= 1
  {
    if vs != [] {
      var pre := vs[..|vs| - 1];
      assert vs == pre + [vs[|vs| - 1]];
      assert Distinct(vs) == Distinct(pre) + {vs[|vs| - 1]};
      assert vs[|vs| - 1] in Distinct(vs);
      DistinctBounds(pre);
    }
  }

  /** A reordering of a duplicate-free sequence is duplicate-free. */
  lemma PermutationKeepsDistinct<T>(a: seq<T>, b: seq<T>)
    requires multiset(a) == multiset(b)
    requires NoDuplicates(b)
    ensures NoDuplicates(a)
  {
    forall i, j | 0 <= i < j < |a| ensures a[i] != a[j] {
      if a[i] == a[j] {
        TwoOccurrences(a, i, j);
        AtMostOnce(b, a[i]);
        assert false;
      }
    }
  }

  lemma TwoOccurrences<T>(s: seq<T>, i: int, j: int)
    requires 0 <= i < j < |s| && s[i] == s[j]
    ensures multiset(s)[s[i]] >= 2
  {
    assert s == s[..i] + [s[i]] + s[i + 1..j] + [s[j]] + s[j + 1..];
  }

  lemma {:induction false} AtMostOnce<T>(s: seq<T>, x: T)
    requires NoDuplicates(s)
    ensures multiset(s)[x] <= 1
  {
    if s != [] {
      var pre := s[..|s| - 1];
      assert s == pre + [s[|s| - 1]];
      AtMostOnce(pre, x);
      if s[|s| - 1] == x {
        assert x !in pre;
      }
    }
  }

  /** A list of group rows, the i-th carrying the total of key `ks[i]`, adds up to the
      per-key totals over `ks`. */
  lemma {:induction false} SumMatchesKeyTotals<U, T, K>(us: seq<U>, g: U -> real, ks: seq<K>, s: seq<T>, key: T -> K, f: T -> real)
    requires |us| == |ks|
    requires forall i :: 0 <= i < |us| ==> g(us[i]) == KeyTotal(s, key, f, ks[i])
    ensures Sum(us, g) == SumOver(ks, s, key, f)
  {
    if us != [] {
      SumMatchesKeyTotals(us[..|us| - 1], g, ks[..|ks| - 1], s, key, f);
    }
  }

  /** A total of differences is the difference of the totals. */
  lemma {:induction false} SumDifference<T>(s: seq<T>, f: T -> real, g: T -> real, h: T -> real)
    requires forall i :: 0 <= i < |s| ==> h(s[i]) == f(s[i]) - g(s[i])
    ensures Sum(s, h) == Sum(s, f) - Sum(s, g)
  {
    if s != [] {
      SumDifference(s[..|s| - 1], f, g, h);
    }
  }
}
