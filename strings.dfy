/** Python's string operations used by the controller and the profiles:
    `startswith`, the `in` substring test, the code-point ordering that
    `sorted` uses, `sorted` itself on lists of strings, and `str(int)`. */
module Strings {

  /** `s.startswith(p)`. */
  predicate StartsWith(s: string, p: string) {
    p <= s
  }

  /** `p in s` for two strings: `p` occurs somewhere in `s`. */
  predicate Contains(s: string, p: string)
    decreases |s|
  {
    p <= s || (|s| > 0 && Contains(s[1..], p))
  }

  /** `p` occurs in `s` at offset `i`. */
  predicate OccursAt(s: string, p: string, i: int) {
    0 <= i <= |s| - |p| && s[i..i + |p|] == p
  }

  /** `Contains` is exactly "some slice of `s` equals `p`". */
  lemma {:induction false} ContainsIffSlice(s: string, p: string)
    ensures Contains(s, p) <==> exists i :: OccursAt(s, p, i)
    decreases |s|
  {
    if p <= s {
      assert OccursAt(s, p, 0);
    } else if |s| == 0 {
    } else {
      ContainsIffSlice(s[1..], p);
      if Contains(s[1..], p) {
        var i :| OccursAt(s[1..], p, i);
        assert s[i + 1..i + 1 + |p|] == s[1..][i..i + |p|];
        assert OccursAt(s, p, i + 1);
      }
      if exists i :: OccursAt(s, p, i) {
        var i :| OccursAt(s, p, i);
        assert i != 0;
        assert s[1..][i - 1..i - 1 + |p|] == s[i..i + |p|];
        assert OccursAt(s[1..], p, i - 1);
      }
    }
  }

  /** Python's `a <= b` on `str`: lexicographic by code point, a proper prefix first. */
  predicate LexLe(a: string, b: string)
    decreases |a|
  {
    |a| == 0 || (|b| > 0 && (a[0] < b[0] || (a[0] == b[0] && LexLe(a[1..], b[1..]))))
  }

  lemma {:induction false} LexLeRefl(a: string)
    ensures LexLe(a, a)
  {
    if |a| > 0 {
      LexLeRefl(a[1..]);
    }
  }

  lemma {:induction false} LexLeTotal(a: string, b: string)
    ensures LexLe(a, b) || LexLe(b, a)
  {
    if |a| > 0 && |b| > 0 && a[0] == b[0] {
      LexLeTotal(a[1..], b[1..]);
    }
  }

  lemma {:induction false} LexLeTrans(a: string, b: string, c: string)
    requires LexLe(a, b) && LexLe(b, c)
    ensures LexLe(a, c)
  {
    if |a| > 0 && a[0] == b[0] && b[0] == c[0] {
      LexLeTrans(a[1..], b[1..], c[1..]);
    }
  }

  lemma {:induction false} LexLeAntisym(a: string, b: string)
    requires LexLe(a, b) && LexLe(b, a)
    ensures a == b
  {
    if |a| > 0 {
      LexLeAntisym(a[1..], b[1..]);
      assert a == [a[0]] + a[1..];
      assert b == [b[0]] + b[1..];
    }
  }

  /** Ascending order under `LexLe`, as the result of `sorted`. */
  ghost predicate Sorted(s: seq<string>) {
    forall i, j :: 0 <= i < j < |s| ==> LexLe(s[i], s[j])
  }

  /** The list comprehension `[x for x in xs if p in x]`. */
  function FilterContaining(xs: seq<string>, p: string): (r: seq<string>)
    ensures forall x :: x in r <==> x in xs && Contains(x, p)
  {
    if xs == [] then []
    else (if Contains(xs[0], p) then [xs[0]] else []) + FilterContaining(xs[1..], p)
  }

  /** The list comprehension `[x for x in xs if x.startswith(p)]`. */
  function FilterStartingWith(xs: seq<string>, p: string): (r: seq<string>)
    ensures forall x :: x in r <==> x in xs && StartsWith(x, p)
  {
    if xs == [] then []
    else (if StartsWith(xs[0], p) then [xs[0]] else []) + FilterStartingWith(xs[1..], p)
  }

  /** One step of insertion sort: put `x` into the sorted list `s`. */
  function Insert(x: string, s: seq<string>): (r: seq<string>)
    requires Sorted(s)
    ensures Sorted(r)
    ensures multiset(r) == multiset(s) + multiset{x}
  {
    if s == [] then [x]
    else if LexLe(x, s[0]) then
      InsertFront(x, s);
      [x] + s
    else
      LexLeTotal(x, s[0]);
      var t := Insert(x, s[1..]);
      assert s == [s[0]] + s[1..];
      InsertBehind(s[0], s[1..], x, t);
      [s[0]] + t
  }

  lemma InsertFront(x: string, s: seq<string>)
    requires Sorted(s) && |s| > 0 && LexLe(x, s[0])
    ensures Sorted([x] + s)
  {
    forall j | 0 < j < |s| + 1
      ensures LexLe(([x] + s)[0], ([x] + s)[j])
    {
      if j > 1 {
        LexLeTrans(x, s[0], s[j - 1]);
      }
    }
  }

  lemma InsertBehind(h: string, tail: seq<string>, x: string, t: seq<string>)
    requires Sorted([h] + tail) && LexLe(h, x)
    requires Sorted(t) && multiset(t) == multiset(tail) + multiset{x}
    ensures Sorted([h] + t)
  {
    forall j | 0 <= j < |t|
      ensures LexLe(h, t[j])
    {
      assert t[j] in multiset(t);
      if t[j] != x {
        assert t[j] in multiset(tail);
        var k :| 0 <= k < |tail| && tail[k] == t[j];
        assert ([h] + tail)[k + 1] == t[j];
        assert LexLe(([h] + tail)[0], ([h] + tail)[k + 1]);
      }
    }
    forall i, j | 0 <= i < j < |t| + 1
      ensures LexLe(([h] + t)[i], ([h] + t)[j])
    {
      if i > 0 {
        assert ([h] + t)[i] == t[i - 1] && ([h] + t)[j] == t[j - 1];
      }
    }
  }

  /** `sorted(xs)` on a list of strings (insertion sort; the sorted order of
      strings is unique, so any stable sort gives the same list). */
  function Sort(xs: seq<string>): (r: seq<string>)
    ensures Sorted(r)
    ensures multiset(r) == multiset(xs)
    ensures |r| == |xs|
  {
    if xs == [] then []
    else
      assert xs == [xs[0]] + xs[1..];
      Insert(xs[0], Sort(xs[1..]))
  }

  lemma SortedEnds(s: seq<string>)
    requires Sorted(s) && |s| > 0
    ensures forall x | x in s :: LexLe(s[0], x) && LexLe(x, s[|s| - 1])
  {
    forall x | x in s
      ensures LexLe(s[0], x) && LexLe(x, s[|s| - 1])
    {
      var k :| 0 <= k < |s| && s[k] == x;
      LexLeRefl(x);
    }
  }

  /** `sorted(xs)[-1]` is the greatest element of `xs`, `sorted(xs)[0]` the least. */
  lemma SortedEndsAreExtremes(xs: seq<string>)
    requires |xs| > 0
    ensures Sort(xs)[|xs| - 1] in xs && Sort(xs)[0] in xs
    ensures forall x | x in xs :: LexLe(x, Sort(xs)[|xs| - 1]) && LexLe(Sort(xs)[0], x)
  {
    var s := Sort(xs);
    SortedEnds(s);
    assert s[|xs| - 1] in multiset(s) && s[0] in multiset(s);
    forall x | x in xs
      ensures x in s
    {
      assert x in multiset(xs);
    }
  }

  /** The decimal digit character for `d`. */
  function DigitChar(d: int): char
    requires 0 <= d < 10
  {
    "0123456789"[d]
  }

  /** `str(n)` for a natural number: decimal digits, most significant first. */
  function NatToString(n: nat): (r: string)
    ensures |r| > 0
    ensures forall c | c in r :: '0' <= c <= '9'
    decreases n
  {
    if n < 10 then [DigitChar(n)] else NatToString(n / 10) + [DigitChar(n % 10)]
  }

  /** `str(n)` for any Python int: a minus sign before the digits when negative. */
  function IntToString(n: int): string {
    if n < 0 then "-" + NatToString(-n) else NatToString(n)
  }

  /** Reading back a string of decimal digits. */
  function ParseDigits(s: string): int
    decreases |s|
  {
    if s == [] then 0 else ParseDigits(s[..|s| - 1]) * 10 + (s[|s| - 1] as int - '0' as int)
  }

  /** Reading back the output of `IntToString`. */
  function ParseInt(s: string): int {
    if |s| > 0 && s[0] == '-' then -ParseDigits(s[1..]) else ParseDigits(s)
  }

  lemma {:induction false} NatRoundTrip(n: nat)
    ensures ParseDigits(NatToString(n)) == n
    decreases n
  {
    if n >= 10 {
      NatRoundTrip(n / 10);
      var s := NatToString(n / 10) + [DigitChar(n % 10)];
      assert s[..|s| - 1] == NatToString(n / 10);
    }
  }

  /** `int(str(n)) == n`: the decimal rendering loses nothing. */
  lemma IntRoundTrip(n: int)
    ensures ParseInt(IntToString(n)) == n
  {
    if n < 0 {
      var t := NatToString(-n);
      NatRoundTrip(-n);
      assert ("-" + t)[1..] == t;
      assert ParseInt("-" + t) == -ParseDigits(t);
    } else {
      var t := NatToString(n);
      NatRoundTrip(n);
      assert t[0] in t;
      assert ParseInt(t) == ParseDigits(t);
    }
  }
}
