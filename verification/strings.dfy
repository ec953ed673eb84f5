/**
 * Python's string and list operations that the message classes and web handlers rely on:
 * the ordering `<=` on `str`, `list.sort()` and `sorted(set(...))`, `str.join`,
 * `str.split('.')`, and the decimal rendering of an `int` in an f-string or `%i`.
 */
module Strings {

  // ---------------------------------------------------------------------------
  // Ordering: Python compares strings code point by code point.
  // ---------------------------------------------------------------------------

  /** Python's `a <= b` on strings. */
  predicate Le(a: string, b: string)
    decreases |a|
  {
    |a| == 0 || (|b| > 0 && (a[0] < b[0] || (a[0] == b[0] && Le(a[1..], b[1..]))))
  }

  lemma {:induction false} LeRefl(a: string)
    ensures Le(a, a)
    decreases |a|
  {
    if |a| > 0 { LeRefl(a[1..]); }
  }

  lemma {:induction false} LeTotal(a: string, b: string)
    ensures Le(a, b) || Le(b, a)
    decreases |a|
  {
    if |a| > 0 && |b| > 0 && a[0] == b[0] { LeTotal(a[1..], b[1..]); }
  }

  lemma {:induction false} LeTrans(a: string, b: string, c: string)
    requires Le(a, b) && Le(b, c)
    ensures Le(a, c)
    decreases |a|
  {
    if |a| > 0 && a[0] == b[0] && b[0] == c[0] { LeTrans(a[1..], b[1..], c[1..]); }
  }

  lemma {:induction false} LeAntisym(a: string, b: string)
    requires Le(a, b) && Le(b, a)
    ensures a == b
    decreases |a|
  {
    if |a| > 0 {
      LeAntisym(a[1..], b[1..]);
      assert a == [a[0]] + a[1..];
      assert b == [b[0]] + b[1..];
    }
  }

  ghost predicate Sorted(s: seq<string>) {
    forall i, j :: 0 <= i < j < |s| ==> Le(s[i], s[j])
  }

  ghost predicate NoDup<T>(s: seq<T>) {
    forall i, j :: 0 <= i < j < |s| ==> s[i] != s[j]
  }

  // ---------------------------------------------------------------------------
  // Sorting: `list.sort()` / `sorted(...)`, written as an insertion sort. Any two
  // sorted permutations of one list are equal (SortedUnique), so this stands for
  // whatever algorithm Python uses.
  // ---------------------------------------------------------------------------

  function Insert(x: string, s: seq<string>): seq<string> {
    if s == [] || Le(x, s[0]) then [x] + s else [s[0]] + Insert(x, s[1..])
  }

  function Sort(s: seq<string>): seq<string> {
    if s == [] then [] else Insert(s[0], Sort(s[1..]))
  }

  lemma {:induction false} InsertSorts(x: string, s: seq<string>)
    requires Sorted(s)
    ensures Sorted(Insert(x, s))
    ensures multiset(Insert(x, s)) == multiset(s) + multiset{x}
  {
    InsertPermutes(x, s);
    if s == [] {
    } else if Le(x, s[0]) {
      forall j | 0 < j < |s| ensures Le(x, s[j]) { LeTrans(x, s[0], s[j]); }
    } else {
      LeTotal(x, s[0]);
      InsertSorts(x, s[1..]);
      ConsSorted(s[0], Insert(x, s[1..]), x, s[1..]);
    }
  }

  lemma {:induction false} InsertPermutes(x: string, s: seq<string>)
    ensures multiset(Insert(x, s)) == multiset(s) + multiset{x}
  {
    if s != [] && !Le(x, s[0]) {
      InsertPermutes(x, s[1..]);
      assert s == [s[0]] + s[1..];
    }
  }

  /** Putting `h` in front of a sorted list whose elements are `x` or come from `t` keeps it sorted. */
  lemma ConsSorted(h: string, r: seq<string>, x: string, t: seq<string>)
    requires Sorted(r) && Le(h, x)
    requires forall j :: 0 <= j < |t| ==> Le(h, t[j])
    requires multiset(r) == multiset(t) + multiset{x}
    ensures Sorted([h] + r)
  {
    forall k | 0 <= k < |r| ensures Le(h, r[k]) {
      assert r[k] in multiset(r);
      if r[k] != x {
        assert r[k] in multiset(t);
        var j :| 0 <= j < |t| && t[j] == r[k];
      }
    }
  }

  lemma {:induction false} SortSorts(s: seq<string>)
    ensures Sorted(Sort(s))
    ensures multiset(Sort(s)) == multiset(s)
  {
    if s != [] {
      SortSorts(s[1..]);
      InsertSorts(s[0], Sort(s[1..]));
      assert s == [s[0]] + s[1..];
    }
  }

  /** A sorted permutation is unique: sorting is a function of the multiset alone. */
  lemma {:induction false} SortedUnique(a: seq<string>, b: seq<string>)
    requires Sorted(a) && Sorted(b) && multiset(a) == multiset(b)
    ensures a == b
    decreases |a|
  {
    if a != [] {
      assert |b| == |multiset(b)| == |multiset(a)| == |a|;
      assert a[0] in multiset(b);
      assert b[0] in multiset(a);
      assert Le(a[0], b[0]) by {
        var i :| 0 <= i < |a| && a[i] == b[0];
        if i == 0 { LeRefl(a[0]); }
      }
      assert Le(b[0], a[0]) by {
        var j :| 0 <= j < |b| && b[j] == a[0];
        if j == 0 { LeRefl(b[0]); }
      }
      LeAntisym(a[0], b[0]);
      assert a == [a[0]] + a[1..];
      assert b == [b[0]] + b[1..];
      assert multiset(a[1..]) == multiset(a) - multiset{a[0]};
      assert multiset(b[1..]) == multiset(b) - multiset{b[0]};
      SortedUnique(a[1..], b[1..]);
    }
  }

  // ---------------------------------------------------------------------------
  // Deduplication: `set(...)`, followed by `sorted(...)`.
  // ---------------------------------------------------------------------------

  /** The elements of `s`, each once (the last occurrence is kept). */
  function Distinct<T(==)>(s: seq<T>): seq<T> {
    if s == [] then []
    else if s[0] in s[1..] then Distinct(s[1..])
    else [s[0]] + Distinct(s[1..])
  }

  lemma {:induction false} DistinctSpec<T>(s: seq<T>)
    ensures NoDup(Distinct(s))
    ensures forall x :: x in Distinct(s) <==> x in s
  {
    if s != [] {
      DistinctSpec(s[1..]);
      assert s == [s[0]] + s[1..];
    }
  }

  /** In a list without duplicates every element occurs exactly once. */
  lemma {:induction false} NoDupCount<T>(s: seq<T>)
    requires NoDup(s)
    ensures forall x :: multiset(s)[x] == if x in s then 1 else 0
  {
    if s != [] {
      assert s == [s[0]] + s[1..];
      NoDupCount(s[1..]);
      assert s[0] !in s[1..];
    }
  }

  lemma DupCount<T>(s: seq<T>, i: nat, j: nat)
    requires i < j < |s| && s[i] == s[j]
    ensures multiset(s)[s[i]] >= 2
  {
    assert s == s[..j] + s[j..];
    assert s[i] in s[..j];
    assert s[j] in s[j..];
    assert multiset(s) == multiset(s[..j]) + multiset(s[j..]);
  }

  lemma PermutationNoDup<T>(a: seq<T>, b: seq<T>)
    requires NoDup(a) && multiset(a) == multiset(b)
    ensures NoDup(b)
  {
    NoDupCount(a);
    forall i, j | 0 <= i < j < |b| ensures b[i] != b[j] {
      if b[i] == b[j] { DupCount(b, i, j); }
    }
  }

  /** Python's `sorted(set(s))`. */
  function SortedSet(s: seq<string>): seq<string> {
    Sort(Distinct(s))
  }

  /** `sorted(set(s))` is sorted, free of duplicates, and holds exactly the elements of `s`. */
  lemma SortedSetSpec(s: seq<string>)
    ensures Sorted(SortedSet(s)) && NoDup(SortedSet(s))
    ensures forall x :: x in SortedSet(s) <==> x in s
  {
    DistinctSpec(s);
    SortSorts(Distinct(s));
    PermutationNoDup(Distinct(s), SortedSet(s));
    forall x ensures x in SortedSet(s) <==> x in Distinct(s) {
      assert x in SortedSet(s) <==> x in multiset(SortedSet(s));
    }
  }

  /** Any sorted, duplicate-free list with the elements of `s` is `sorted(set(s))`. */
  lemma SortedSetUnique(s: seq<string>, t: seq<string>)
    requires Sorted(t) && NoDup(t)
    requires forall x :: x in t <==> x in s
    ensures t == SortedSet(s)
  {
    SortedSetSpec(s);
    NoDupCount(t);
    NoDupCount(SortedSet(s));
    assert multiset(t) == multiset(SortedSet(s));
    SortedUnique(t, SortedSet(s));
  }

  // ---------------------------------------------------------------------------
  // `sep.join(xs)` and `s.split(sep)`.
  // ---------------------------------------------------------------------------

  /** Python's `sep.join(xs)`. */
  function Join(sep: string, xs: seq<string>): string {
    if xs == [] then ""
    else if |xs| == 1 then xs[0]
    else xs[0] + sep + Join(sep, xs[1..])
  }

  /** Python's `s.split(sep)` for a one-character separator. */
  function Split(s: string, sep: char): (parts: seq<string>)
    ensures |parts| >= 1
  {
    if s == [] then [""]
    else
      var rest := Split(s[1..], sep);
      if s[0] == sep then [""] + rest else [[s[0]] + rest[0]] + rest[1..]
  }

  /** No part that `split` returns contains the separator. */
  lemma {:induction false} SplitPartsFree(s: string, sep: char)
    ensures forall i :: 0 <= i < |Split(s, sep)| ==> sep !in Split(s, sep)[i]
  {
    if s != [] {
      SplitPartsFree(s[1..], sep);
    }
  }

  /** `sep.join(s.split(sep)) == s`. */
  lemma {:induction false} JoinSplit(s: string, sep: char)
    ensures Join([sep], Split(s, sep)) == s
  {
    if s != [] {
      var rest := Split(s[1..], sep);
      JoinSplit(s[1..], sep);
      assert s == [s[0]] + s[1..];
      if s[0] != sep && |rest| > 1 {
        assert ([[s[0]] + rest[0]] + rest[1..])[1..] == rest[1..];
      }
    }
  }

  lemma {:induction false} SplitConcat(x: string, sep: char, y: string)
    ensures Split(x + [sep] + y, sep) == Split(x, sep) + Split(y, sep)
  {
    if x == [] {
      assert x + [sep] + y == [sep] + y;
      assert ([sep] + y)[1..] == y;
    } else {
      var z := x + [sep] + y;
      assert z[1..] == x[1..] + [sep] + y;
      assert z[0] == x[0];
      SplitConcat(x[1..], sep, y);
      var px, py := Split(x[1..], sep), Split(y, sep);
      assert Split(z, sep) == if x[0] == sep then [""] + (px + py) else [[x[0]] + (px + py)[0]] + (px + py)[1..];
      assert Split(x, sep) == if x[0] == sep then [""] + px else [[x[0]] + px[0]] + px[1..];
      PrependToParts(x[0] == sep, x[0], px, py);
    }
  }

  /** Growing the first part, or adding an empty one before it, distributes over a concatenation of parts. */
  lemma PrependToParts(atSep: bool, c: char, px: seq<string>, py: seq<string>)
    requires |px| >= 1
    ensures (if atSep then [""] + (px + py) else [[c] + (px + py)[0]] + (px + py)[1..])
         == (if atSep then [""] + px else [[c] + px[0]] + px[1..]) + py
  {
    if !atSep {
      assert (px + py)[0] == px[0];
      assert (px + py)[1..] == px[1..] + py;
    }
  }

  lemma {:induction false} SplitNoSep(s: string, sep: char)
    requires sep !in s
    ensures Split(s, sep) == [s]
  {
    if s != [] {
      SplitNoSep(s[1..], sep);
      assert s == [s[0]] + s[1..];
    }
  }

  /** `sep.join(xs).split(sep) == xs` when no element holds the separator. */
  lemma {:induction false} SplitJoin(xs: seq<string>, sep: char)
    requires |xs| > 0
    requires forall i :: 0 <= i < |xs| ==> sep !in xs[i]
    ensures Split(Join([sep], xs), sep) == xs
  {
    if |xs| == 1 {
      SplitNoSep(xs[0], sep);
    } else {
      SplitJoin(xs[1..], sep);
      SplitConcat(xs[0], sep, Join([sep], xs[1..]));
      SplitNoSep(xs[0], sep);
      assert [xs[0]] + xs[1..] == xs;
    }
  }

  /** Python's `s.split('.')[-1]`. */
  function LastSegment(s: string): string {
    var parts := Split(s, '.');
    parts[|parts| - 1]
  }

  /** The last `.`-segment of `prefix + "." + last` is `last` when `last` has no dot. */
  lemma LastSegmentOf(prefix: string, last: string)
    requires '.' !in last
    ensures LastSegment(prefix + "." + last) == last
  {
    SplitConcat(prefix, '.', last);
    SplitNoSep(last, '.');
  }

  // ---------------------------------------------------------------------------
  // Decimal rendering of integers (`f"{n}"`, `str(n)`, `"%i" % n`).
  // ---------------------------------------------------------------------------

  function DigitChar(d: nat): (c: char)
    requires d < 10
    ensures IsDigit(c) && DigitValue(c) == d
  {
    ('0' as int + d) as char
  }

  function NatToString(n: nat): string
    decreases n
  {
    if n < 10 then [DigitChar(n)] else NatToString(n / 10) + [DigitChar(n % 10)]
  }

  function IntToString(i: int): string {
    if i < 0 then "-" + NatToString(-i) else NatToString(i)
  }

  predicate IsDigit(c: char) { '0' <= c <= '9' }

  /** Reads a decimal numeral back; the partner of NatToString. */
  function DigitValue(c: char): nat
    requires IsDigit(c)
  {
    c as int - '0' as int
  }

  function ParseNat(s: string): nat
    requires forall i :: 0 <= i < |s| ==> IsDigit(s[i])
  {
    if s == [] then 0 else ParseNat(s[..|s| - 1]) * 10 + DigitValue(s[|s| - 1])
  }

  /** The rendering of a count is a numeral that reads back as that count. */
  lemma {:induction false} NatToStringRoundTrip(n: nat)
    ensures |NatToString(n)| > 0
    ensures forall i :: 0 <= i < |NatToString(n)| ==> IsDigit(NatToString(n)[i])
    ensures ParseNat(NatToString(n)) == n
    decreases n
  {
    if n >= 10 {
      NatToStringRoundTrip(n / 10);
      var s := NatToString(n);
      assert s[..|s| - 1] == NatToString(n / 10);
    }
  }

  // ---------------------------------------------------------------------------
  // Substrings.
  // ---------------------------------------------------------------------------

  /** `t in s` for strings. */
  ghost predicate Contains(s: string, t: string) {
    exists i :: OccursAt(s, t, i)
  }

  ghost predicate OccursAt(s: string, t: string, i: int) {
    0 <= i <= |s| - |t| && s[i..i + |t|] == t
  }

  lemma ContainsMiddle(a: string, t: string, b: string)
    ensures Contains(a + t + b, t)
  {
    assert OccursAt(a + t + b, t, |a|);
  }

  /** Text added after a string keeps what the string contains. */
  lemma ContainsAppend(s: string, t: string, b: string)
    requires Contains(s, t)
    ensures Contains(s + b, t)
  {
    var i :| OccursAt(s, t, i);
    assert (s + b)[i..i + |t|] == s[i..i + |t|];
    assert OccursAt(s + b, t, i);
  }

  /** `s.endswith(t)`. */
  predicate EndsWith(s: string, t: string) {
    |t| <= |s| && s[|s| - |t|..] == t
  }

  lemma EndsWithConcat(a: string, t: string)
    ensures EndsWith(a + t, t)
  {
    assert (a + t)[|a|..] == t;
  }
}
