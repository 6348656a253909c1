/** String helpers the application relies on: prefix tests (`startsWith`), substring
    search (`includes`), `Array.prototype.join`, integer-to-text conversion, and the
    default string order of `Array.prototype.sort`. Strings are sequences of Unicode
    scalar values, so lengths and this order agree with JavaScript's UTF-16 code units
    only on text inside the Basic Multilingual Plane. */
module Strings {

  predicate StartsWith(s: string, prefix: string) {
    |prefix| <= |s| && s[..|prefix|] == prefix
  }

  /** `s.includes(sub)` */
  predicate Contains(s: string, sub: string)
    decreases |s|
  {
    StartsWith(s, sub) || (|s| > 0 && Contains(s[1..], sub))
  }

  /** Whatever is spliced into a text is found in it. */
  lemma {:induction false} ContainsPart(a: string, b: string, c: string)
    ensures Contains(a + b + c, b)
    decreases |a|
  {
    if a == [] {
      assert a + b + c == b + c;
      assert (b + c)[..|b|] == b;
    } else {
      ContainsPart(a[1..], b, c);
      assert (a + b + c)[1..] == a[1..] + b + c;
    }
  }

  /** `parts.join(sep)` */
  function Join(parts: seq<string>, sep: string): string {
    if |parts| == 0 then ""
    else if |parts| == 1 then parts[0]
    else parts[0] + sep + Join(parts[1..], sep)
  }

  lemma {:induction false} JoinHasNoChar(parts: seq<string>, c: char)
    requires forall i :: 0 <= i < |parts| ==> c !in parts[i]
    requires |parts| <= 1
    ensures c !in Join(parts, [c])
  {
  }

  /** Joining two or more parts with a one-character separator puts that character in the result. */
  lemma {:induction false} JoinShowsSeparator(parts: seq<string>, c: char)
    requires |parts| >= 2
    ensures c in Join(parts, [c])
  {
    var j := Join(parts, [c]);
    assert j == parts[0] + [c] + Join(parts[1..], [c]);
    assert j[|parts[0]|] == c;
  }

  // ---------------------------------------------------------------- numbers as text

  function DigitChar(d: int): char
    requires 0 <= d < 10
  {
    ['0', '1', '2', '3', '4', '5', '6', '7', '8', '9'][d]
  }

  /** Decimal text of a natural number, as JavaScript prints an integer. */
  function NatToText(n: nat): (r: string)
    ensures |r| >= 1
    ensures forall i :: 0 <= i < |r| ==> '0' <= r[i] <= '9'
    decreases n
  {
    if n < 10 then [DigitChar(n)] else NatToText(n / 10) + [DigitChar(n % 10)]
  }

  function IntToText(n: int): string {
    if n < 0 then "-" + NatToText(-n) else NatToText(n)
  }

  // ---------------------------------------------------------------- default sort order

  /** `a < b` in lexicographic order of characters: JavaScript's default sort order for
      strings without characters outside the Basic Multilingual Plane. */
  predicate Less(a: string, b: string)
    decreases |a|
  {
    if |a| == 0 then |b| > 0
    else if |b| == 0 then false
    else if a[0] == b[0] then Less(a[1..], b[1..])
    else a[0] < b[0]
  }

  lemma {:induction false} LessIrreflexive(a: string)
    ensures !Less(a, a)
    decreases |a|
  {
    if |a| > 0 { LessIrreflexive(a[1..]); }
  }

  lemma {:induction false} LessAsymmetric(a: string, b: string)
    requires Less(a, b)
    ensures !Less(b, a)
    decreases |a|
  {
    if |a| > 0 && |b| > 0 && a[0] == b[0] { LessAsymmetric(a[1..], b[1..]); }
  }

  lemma {:induction false} LessTransitive(a: string, b: string, c: string)
    requires Less(a, b) && Less(b, c)
    ensures Less(a, c)
    decreases |a|
  {
    if |a| > 0 && |b| > 0 && |c| > 0 && a[0] == b[0] && b[0] == c[0] {
      LessTransitive(a[1..], b[1..], c[1..]);
    }
  }

  lemma {:induction false} LessTotal(a: string, b: string)
    requires a != b
    ensures Less(a, b) || Less(b, a)
    decreases |a|
  {
    if |a| > 0 && |b| > 0 && a[0] == b[0] {
      assert a == [a[0]] + a[1..] && b == [b[0]] + b[1..];
      LessTotal(a[1..], b[1..]);
    }
  }

  /** Strictly ascending, hence free of duplicates. */
  predicate StrictlySorted(s: seq<string>) {
    forall i, j :: 0 <= i < j < |s| ==> Less(s[i], s[j])
  }

  /** Inserts `x` into a strictly ascending sequence, unless it is already there. */
  function InsertSorted(x: string, s: seq<string>): (r: seq<string>)
    requires StrictlySorted(s)
    ensures StrictlySorted(r)
    ensures forall y :: y in r <==> y in s || y == x
    ensures |r| == if x in s then |s| else |s| + 1
  {
    if s == [] then [x]
    else if x == s[0] then s
    else if Less(x, s[0]) then
      InsertBeforeHead(x, s);
      [x] + s
    else
      LessTotal(x, s[0]);
      var t := InsertSorted(x, s[1..]);
      InsertAfterHead(x, s, t);
      [s[0]] + t
  }

  lemma InsertBeforeHead(x: string, s: seq<string>)
    requires StrictlySorted(s) && |s| > 0 && Less(x, s[0])
    ensures StrictlySorted([x] + s)
    ensures x !in s
  {
    forall j | 0 < j < |s| ensures Less(x, s[j]) { LessTransitive(x, s[0], s[j]); }
    forall j | 0 <= j < |s| ensures s[j] != x { LessIrreflexive(x); }
  }

  lemma InsertAfterHead(x: string, s: seq<string>, t: seq<string>)
    requires StrictlySorted(s) && |s| > 0 && Less(s[0], x)
    requires StrictlySorted(t)
    requires forall y :: y in t <==> y in s[1..] || y == x
    ensures StrictlySorted([s[0]] + t)
  {
    forall j | 0 <= j < |t| ensures Less(s[0], t[j]) {
      assert t[j] in t;
      if t[j] != x {
        var k :| 0 <= k < |s[1..]| && s[1..][k] == t[j];
        assert s[k + 1] == t[j];
      }
    }
  }

  /** The elements of a set of strings in ascending order. */
  method SortedElements(items: set<string>) returns (r: seq<string>)
    ensures StrictlySorted(r)
    ensures forall y :: y in r <==> y in items
  {
    r := [];
    var rest := items;
    while rest != {}
      invariant StrictlySorted(r)
      invariant rest <= items
      invariant forall y :: y in r <==> y in items && y !in rest
      decreases rest
    {
      var x :| x in rest;
      r := InsertSorted(x, r);
      rest := rest - {x};
    }
  }
}
