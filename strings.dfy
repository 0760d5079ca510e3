/** String helpers used by the configuration generator: the ordering Kotlin's
    `sorted()` uses on strings, sorting a set, joining, substring search,
    character replacement, lower-casing, blank test and decimal rendering. */
module Strings {

  // ---------------------------------------------------------------------------
  // Lexicographic order (Kotlin `String.compareTo`)
  // ---------------------------------------------------------------------------

  /** `a` sorts strictly before `b`: at the first differing character `a` has the
      smaller one, or `a` is a proper prefix of `b`. */
  predicate LexLess(a: string, b: string) {
    if |a| == 0 then |b| > 0
    else if |b| == 0 then false
    else if a[0] < b[0] then true
    else if a[0] == b[0] then LexLess(a[1..], b[1..])
    else false
  }

  lemma {:induction false} LexTotal(a: string, b: string)
    ensures a == b || LexLess(a, b) || LexLess(b, a)
  {
    if |a| > 0 && |b| > 0 && a[0] == b[0] {
      LexTotal(a[1..], b[1..]);
      if a[1..] == b[1..] {
        assert a == [a[0]] + a[1..] && b == [b[0]] + b[1..];
      }
    }
  }

  lemma {:induction false} LexAsymmetric(a: string, b: string)
    ensures !(LexLess(a, b) && LexLess(b, a))
  {
    if |a| > 0 && |b| > 0 && a[0] == b[0] {
      LexAsymmetric(a[1..], b[1..]);
    }
  }

  lemma {:induction false} LexTransitive(a: string, b: string, c: string)
    requires LexLess(a, b) && LexLess(b, c)
    ensures LexLess(a, c)
  {
    if |a| > 0 && |b| > 0 && |c| > 0 && a[0] == b[0] && b[0] == c[0] {
      LexTransitive(a[1..], b[1..], c[1..]);
    }
  }

  /** Every element of a strictly sorted sequence is smaller than every later one. */
  predicate StrictlySorted(r: seq<string>) {
    forall i, j :: 0 <= i < j < |r| ==> LexLess(r[i], r[j])
  }

  // ---------------------------------------------------------------------------
  // Sorting a set of strings (Kotlin `sorted()` / `toSortedSet()`)
  // ---------------------------------------------------------------------------

  lemma {:induction false} MinExists(s: set<string>)
    requires s != {}
    ensures exists m :: m in s && forall y :: y in s && y != m ==> LexLess(m, y)
  {
    var x :| x in s;
    if s == {x} {
      assert forall y :: y in s && y != x ==> LexLess(x, y);
    } else {
      MinExists(s - {x});
      var m :| m in s - {x} && forall y :: y in s - {x} && y != m ==> LexLess(m, y);
      LexTotal(x, m);
      if LexLess(x, m) {
        forall y | y in s && y != x
          ensures LexLess(x, y)
        {
          if y != m { LexTransitive(x, m, y); }
        }
        assert x in s;
      } else {
        assert LexLess(m, x);
        assert m in s && forall y :: y in s && y != m ==> LexLess(m, y);
      }
    }
  }

  /** The least element of a non-empty set. */
  function MinOf(s: set<string>): (m: string)
    requires s != {}
    ensures m in s
    ensures forall y :: y in s && y != m ==> LexLess(m, y)
  {
    MinExists(s);
    forall a, b ensures !(LexLess(a, b) && LexLess(b, a)) { LexAsymmetric(a, b); }
    var m :| m in s && forall y :: y in s && y != m ==> LexLess(m, y);
    m
  }

  /** The elements of `s` in ascending order, each once. */
  function SortedElements(s: set<string>): (r: seq<string>)
    ensures forall x :: x in r <==> x in s
    ensures StrictlySorted(r)
    decreases |s|
  {
    if s == {} then []
    else
      var m := MinOf(s);
      [m] + SortedElements(s - {m})
  }

  /** A strictly sorted sequence is determined by its elements: whatever
      iteration produces the elements of `s` in ascending order produces
      exactly `SortedElements(s)`. */
  lemma {:induction false} SortedElementsUnique(r: seq<string>, s: set<string>)
    requires StrictlySorted(r)
    requires forall x :: x in r <==> x in s
    ensures r == SortedElements(s)
    decreases |r|
  {
    var t := SortedElements(s);
    if r == [] {
      assert s == {};
    } else {
      assert r[0] in s;
      var m := MinOf(s);
      if r[0] != m {
        assert LexLess(m, r[0]);
        var k :| 0 <= k < |r| && r[k] == m;
        assert k != 0;
        assert LexLess(r[0], r[k]);
        LexAsymmetric(m, r[0]);
        assert false;
      }
      forall x
        ensures x in r[1..] <==> x in s - {m}
      {
        if x in r[1..] {
          var k :| 1 <= k < |r| && r[k] == x;
          assert LexLess(r[0], r[k]);
          LexAsymmetric(r[0], r[0]);
        }
        if x in s - {m} {
          var k :| 0 <= k < |r| && r[k] == x;
          assert k != 0;
          assert r[1..][k - 1] == x;
        }
      }
      SortedElementsUnique(r[1..], s - {m});
      assert r == [r[0]] + r[1..];
    }
  }

  // ---------------------------------------------------------------------------
  // Concatenating parts
  // ---------------------------------------------------------------------------

  /** The parts one after the other. */
  function Flatten<T>(parts: seq<seq<T>>): seq<T> {
    if |parts| == 0 then [] else Flatten(parts[..|parts| - 1]) + parts[|parts| - 1]
  }

  /** An element of the concatenation comes from one of the parts, and every
      element of every part is in the concatenation. */
  lemma {:induction false} FlattenMembership<T>(parts: seq<seq<T>>, x: T)
    ensures x in Flatten(parts) <==> exists i :: 0 <= i < |parts| && x in parts[i]
    decreases |parts|
  {
    if |parts| > 0 {
      var n := |parts| - 1;
      FlattenMembership(parts[..n], x);
      if exists i :: 0 <= i < |parts| && x in parts[i] {
        var i :| 0 <= i < |parts| && x in parts[i];
        if i < n { assert parts[..n][i] == parts[i]; }
      }
    }
  }

  /** Concatenating two lists of parts concatenates their concatenations. */
  lemma {:induction false} FlattenAppend<T>(a: seq<seq<T>>, b: seq<seq<T>>)
    ensures Flatten(a + b) == Flatten(a) + Flatten(b)
    decreases |b|
  {
    if |b| == 0 {
      assert a + b == a;
    } else {
      var n := |b| - 1;
      assert (a + b)[..|a + b| - 1] == a + b[..n];
      FlattenAppend(a, b[..n]);
    }
  }

  /** Split at part `j`, something from an earlier part falls before the cut
      and part `j` after it. */
  lemma FlattenSplitAt<T>(parts: seq<seq<T>>, i: nat, j: nat, x: T, y: T) returns (before: seq<T>, after: seq<T>)
    requires i < j < |parts| && x in parts[i] && y in parts[j]
    ensures Flatten(parts) == before + after && x in before && y in after
  {
    assert parts == parts[..j] + parts[j..];
    FlattenAppend(parts[..j], parts[j..]);
    assert parts[..j][i] == parts[i];
    assert parts[j..][0] == parts[j];
    FlattenMembership(parts[..j], x);
    FlattenMembership(parts[j..], y);
    before, after := Flatten(parts[..j]), Flatten(parts[j..]);
  }

  /** After any prefix, something from an earlier part comes before something
      from a later one. */
  lemma FlattenOrder<T>(head: seq<T>, parts: seq<seq<T>>, i: nat, j: nat, x: T, y: T)
    requires i < j < |parts| && x in parts[i] && y in parts[j]
    ensures exists before, after :: (head + Flatten(parts) == before + after && x in before && y in after)
  {
    var before, after := FlattenSplitAt(parts, i, j, x, y);
    assert head + Flatten(parts) == (head + before) + after;
    assert x in head + before;
  }

  // ---------------------------------------------------------------------------
  // Joining, searching and mapping characters
  // ---------------------------------------------------------------------------

  /** Kotlin `joinToString(sep)`: the items with `sep` between neighbours. */
  function Join(items: seq<string>, sep: string): string {
    if |items| == 0 then ""
    else if |items| == 1 then items[0]
    else items[0] + sep + Join(items[1..], sep)
  }

  /** Kotlin `needle in hay` on strings: `needle` occurs as a contiguous
      substring of `hay` (the empty string occurs in every string). */
  predicate Contains(hay: string, needle: string)
    decreases |hay|
  {
    needle <= hay || (|hay| > 0 && Contains(hay[1..], needle))
  }

  /** `needle` occurs in `hay` starting at index `i`. */
  predicate OccursAt(hay: string, needle: string, i: int) {
    0 <= i && i + |needle| <= |hay| && hay[i..i + |needle|] == needle
  }

  /** `Contains` is exactly "occurs at some index". */
  lemma {:induction false} ContainsAt(hay: string, needle: string)
    ensures Contains(hay, needle) <==> exists i :: OccursAt(hay, needle, i)
    decreases |hay|
  {
    if needle <= hay {
      assert OccursAt(hay, needle, 0);
    } else if |hay| > 0 {
      ContainsAt(hay[1..], needle);
      if Contains(hay[1..], needle) {
        var i :| OccursAt(hay[1..], needle, i);
        assert OccursAt(hay, needle, i + 1);
      }
      if exists i :: OccursAt(hay, needle, i) {
        var i :| OccursAt(hay, needle, i);
        if i > 0 {
          assert OccursAt(hay[1..], needle, i - 1);
        }
      }
    } else {
      assert forall i :: !OccursAt(hay, needle, i);
    }
  }

  predicate NoSpace(s: string) {
    forall i :: 0 <= i < |s| ==> s[i] != ' '
  }

  /** The number of occurrences of `c` in `s`. */
  function CountChar(s: string, c: char): nat {
    if |s| == 0 then 0 else (if s[0] == c then 1 else 0) + CountChar(s[1..], c)
  }

  /** Kotlin `s.replace(from, to)` on characters. */
  function ReplaceChar(s: string, from: char, to: char): (r: string)
    ensures |r| == |s|
    ensures forall i :: 0 <= i < |s| ==> r[i] == (if s[i] == from then to else s[i])
  {
    if |s| == 0 then ""
    else [if s[0] == from then to else s[0]] + ReplaceChar(s[1..], from, to)
  }

  function LowerChar(c: char): char {
    if 'A' <= c <= 'Z' then (c as int - 'A' as int + 'a' as int) as char else c
  }

  /** Kotlin `lowercase()`, for the ASCII letters only. */
  function LowerAscii(s: string): (r: string)
    ensures |r| == |s|
    ensures forall i :: 0 <= i < |s| ==> r[i] == LowerChar(s[i])
  {
    if |s| == 0 then "" else [LowerChar(s[0])] + LowerAscii(s[1..])
  }

  /** Kotlin's `Char.isWhitespace()` on the JVM: `Character.isWhitespace` or
      `Character.isSpaceChar` (the Unicode space, line and paragraph separators). */
  predicate IsWhitespace(c: char) {
    || '\U{0009}' <= c <= '\U{000D}'
    || '\U{001C}' <= c <= '\U{0020}'
    || c == '\U{00A0}' || c == '\U{1680}'
    || '\U{2000}' <= c <= '\U{200A}'
    || c == '\U{2028}' || c == '\U{2029}' || c == '\U{202F}' || c == '\U{205F}' || c == '\U{3000}'
  }

  /** Kotlin `isBlank()`: empty or whitespace only. */
  predicate IsBlank(s: string) {
    forall i :: 0 <= i < |s| ==> IsWhitespace(s[i])
  }

  function DigitChar(d: nat): char
    requires d < 10
  {
    ('0' as int + d) as char
  }

  /** The decimal rendering of `n`, as `JavaLanguageVersion.toString()` gives it. */
  function NatToString(n: nat): (r: string)
    ensures |r| > 0
    ensures forall i :: 0 <= i < |r| ==> '0' <= r[i] <= '9'
  {
    if n < 10 then [DigitChar(n)] else NatToString(n / 10) + [DigitChar(n % 10)]
  }
}
