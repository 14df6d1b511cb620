/** Character and string operations of the Kotlin standard library that the app relies on. */
module Text {

  /**
   * Kotlin's `Char.isWhitespace()`: Java's whitespace characters together with
   * every Unicode space, line and paragraph separator.
   */
  predicate IsWhitespace(c: char) {
    c == '\t' || c == '\n' || c == '\U{0B}' || c == '\U{0C}' || c == '\r'
    || ('\U{1C}' <= c <= '\U{1F}') || c == ' ' || c == '\U{A0}' || c == '\U{1680}'
    || ('\U{2000}' <= c <= '\U{200A}') || c == '\U{2028}' || c == '\U{2029}'
    || c == '\U{202F}' || c == '\U{205F}' || c == '\U{3000}'
  }

  /** `isBlank()`: empty or whitespace only. */
  predicate IsBlank(s: string) {
    forall i | 0 <= i < |s| :: IsWhitespace(s[i])
  }

  /** Drops leading whitespace. */
  function TrimStart(s: string): (r: string)
    ensures |r| <= |s| && r == s[|s| - |r|..] && IsBlank(s[..|s| - |r|])
    ensures r == [] || !IsWhitespace(r[0])
    ensures s == [] || !IsWhitespace(s[0]) ==> r == s
  {
    if s == [] || !IsWhitespace(s[0]) then s
    else
      var r := TrimStart(s[1..]);
      assert s[..|s| - |r|] == [s[0]] + s[1..][..|s[1..]| - |r|];
      r
  }

  /** Drops trailing whitespace. */
  function TrimEnd(s: string): (r: string)
    ensures |r| <= |s| && r == s[..|r|] && IsBlank(s[|r|..])
    ensures r == [] || !IsWhitespace(r[|r| - 1])
    ensures s == [] || !IsWhitespace(s[|s| - 1]) ==> r == s
  {
    if s == [] || !IsWhitespace(s[|s| - 1]) then s
    else
      var r := TrimEnd(s[..|s| - 1]);
      assert s[|r|..] == s[..|s| - 1][|r|..] + [s[|s| - 1]];
      r
  }

  lemma TrimParts(s: string)
    ensures var r := TrimEnd(TrimStart(s));
      |r| <= |s| && (r == [] <==> IsBlank(s))
      && (r == [] || (!IsWhitespace(r[0]) && !IsWhitespace(r[|r| - 1])))
  {
    var t := TrimStart(s);
    var r := TrimEnd(t);
    var i := |s| - |t|;
    if r == [] {
      assert t[|r|..] == t;
      assert t == [];
      assert s == s[..i];
    } else {
      assert s[i] == t[0] == r[0];
      assert !IsWhitespace(s[i]);
    }
  }

  /** `trim()`: drops leading and trailing whitespace. */
  function Trim(s: string): (r: string)
    ensures |r| <= |s|
    ensures r == [] || (!IsWhitespace(r[0]) && !IsWhitespace(r[|r| - 1]))
    ensures r == [] <==> IsBlank(s)
  {
    TrimParts(s);
    TrimEnd(TrimStart(s))
  }

  /** Trimming is idempotent. */
  lemma TrimIdempotent(s: string)
    ensures Trim(Trim(s)) == Trim(s)
  {
  }

  /** Upper-casing of the ASCII letters. */
  function AsciiUpper(c: char): char {
    if 'a' <= c <= 'z' then (c as int - 'a' as int + 'A' as int) as char else c
  }

  /** `Char.equals(other, ignoreCase = true)` on ASCII letters. */
  predicate EqualsIgnoreCase(a: char, b: char) {
    a == b || AsciiUpper(a) == AsciiUpper(b)
  }

  predicate RegionMatchesIgnoreCase(s: string, i: int, q: string)
    requires 0 <= i <= |s| - |q|
  {
    forall k | 0 <= k < |q| :: EqualsIgnoreCase(s[i + k], q[k])
  }

  /** `s.contains(q, ignoreCase = true)` */
  predicate ContainsIgnoreCase(s: string, q: string) {
    exists i | 0 <= i <= |s| - |q| :: RegionMatchesIgnoreCase(s, i, q)
  }

  /** An empty query is found in every text, and a query longer than the text never is. */
  lemma ContainsIgnoreCaseBounds(s: string, q: string)
    ensures q == [] ==> ContainsIgnoreCase(s, q)
    ensures |q| > |s| ==> !ContainsIgnoreCase(s, q)
  {
    if q == [] {
      assert RegionMatchesIgnoreCase(s, 0, q);
    }
  }

  /** A query that occurs verbatim is found; so is one that differs from it only in the case of ASCII letters. */
  lemma ContainsIgnoreCaseOccurrence(s: string, q: string, i: int)
    requires 0 <= i <= |s| - |q|
    requires forall k | 0 <= k < |q| :: AsciiUpper(s[i + k]) == AsciiUpper(q[k])
    ensures ContainsIgnoreCase(s, q)
  {
    assert RegionMatchesIgnoreCase(s, i, q);
  }

  /** `a < b` for Kotlin strings: lexicographic, a proper prefix first. */
  predicate StrLess(a: string, b: string) {
    if a == [] then b != []
    else if b == [] then false
    else if a[0] != b[0] then a[0] < b[0]
    else StrLess(a[1..], b[1..])
  }

  /** `a <= b` for Kotlin strings. */
  predicate StrLe(a: string, b: string) {
    !StrLess(b, a)
  }

  lemma {:induction false} StrLessIrreflexive(a: string)
    ensures !StrLess(a, a)
  {
    if a != [] {
      StrLessIrreflexive(a[1..]);
    }
  }

  /** String order is a strict total order. */
  lemma {:induction false} StrLessTotal(a: string, b: string)
    ensures a == b || StrLess(a, b) || StrLess(b, a)
    ensures !(StrLess(a, b) && StrLess(b, a))
  {
    if a != [] && b != [] && a[0] == b[0] {
      StrLessTotal(a[1..], b[1..]);
      if a[1..] == b[1..] {
        assert a == [a[0]] + a[1..] && b == [b[0]] + b[1..];
      }
    }
  }

  lemma {:induction false} StrLessTransitive(a: string, b: string, c: string)
    requires StrLess(a, b) && StrLess(b, c)
    ensures StrLess(a, c)
  {
    if a != [] && a[0] == b[0] && b[0] == c[0] {
      StrLessTransitive(a[1..], b[1..], c[1..]);
    }
  }

  lemma StrLessLeTransitive(a: string, b: string, c: string)
    ensures StrLess(a, b) && StrLe(b, c) ==> StrLess(a, c)
  {
    StrLessTotal(b, c);
    if StrLess(a, b) && StrLess(b, c) {
      StrLessTransitive(a, b, c);
    }
  }

  lemma StrLeTransitive(a: string, b: string, c: string)
    requires StrLe(a, b) && StrLe(b, c)
    ensures StrLe(a, c)
  {
    StrLessLeTransitive(c, a, b);
  }

  /** Comparing equal-length heads decides, or else the tails decide. */
  lemma {:induction false} StrLessConcat(x: string, y: string, u: string, v: string)
    requires |x| == |y|
    ensures StrLess(x + u, y + v) <==> StrLess(x, y) || (x == y && StrLess(u, v))
  {
    if x != [] {
      assert (x + u)[1..] == x[1..] + u && (x + u)[0] == x[0];
      assert (y + v)[1..] == y[1..] + v && (y + v)[0] == y[0];
      StrLessConcat(x[1..], y[1..], u, v);
      if x[0] == y[0] && x[1..] == y[1..] {
        assert x == [x[0]] + x[1..] && y == [y[0]] + y[1..];
      }
    } else {
      assert x + u == u && y + v == v;
    }
  }

  /** `s.replace(from, to)` for one-character patterns. */
  function ReplaceChar(s: string, from: char, to: char): (r: string)
    ensures |r| == |s|
    ensures forall i | 0 <= i < |s| :: r[i] == (if s[i] == from then to else s[i])
  {
    if s == [] then [] else [if s[0] == from then to else s[0]] + ReplaceChar(s[1..], from, to)
  }

  /** `s.replace(c.toString(), "")` */
  function RemoveChar(s: string, c: char): (r: string)
    ensures c !in r
    ensures |r| <= |s|
    ensures c !in s ==> r == s
  {
    if s == [] then [] else (if s[0] == c then [] else [s[0]]) + RemoveChar(s[1..], c)
  }

  lemma RemoveCharConcat(s: string, t: string, c: char)
    ensures RemoveChar(s + t, c) == RemoveChar(s, c) + RemoveChar(t, c)
  {
    if s != [] {
      assert (s + t)[1..] == s[1..] + t;
    } else {
      assert s + t == t;
    }
  }

  /** `joinToString(separator)` */
  function Join(parts: seq<string>, separator: string): string {
    if parts == [] then ""
    else if |parts| == 1 then parts[0]
    else parts[0] + separator + Join(parts[1..], separator)
  }

  /** A joined text opens with its first part. */
  lemma JoinStartsWithFirst(parts: seq<string>, separator: string)
    requires parts != []
    ensures IsPrefix(parts[0], Join(parts, separator))
  {
    if |parts| > 1 {
      PrefixOfConcat(parts[0], separator + Join(parts[1..], separator));
      assert Join(parts, separator) == parts[0] + (separator + Join(parts[1..], separator));
    }
  }

  predicate IsPrefix(p: string, s: string) {
    |p| <= |s| && s[..|p|] == p
  }

  lemma PrefixOfConcat(p: string, s: string)
    ensures IsPrefix(p, p + s)
  {
    assert (p + s)[..|p|] == p;
  }

  /** The first of three joined texts is a prefix, and the last is what follows the first two. */
  lemma ConcatEnds(a: string, b: string, c: string)
    ensures IsPrefix(a, a + b + c) && (a + b + c)[|a + b|..] == c
  {
    assert (a + b + c)[..|a|] == a;
    assert (a + b + c)[|a + b|..] == c;
  }

  /** A prefix stays a prefix once the same text is put in front of both. */
  lemma PrefixAfterHead(head: string, p: string, s: string)
    requires IsPrefix(p, s)
    ensures IsPrefix(head + p, head + s)
  {
    assert (head + s)[..|head + p|] == head + s[..|p|];
  }
}
