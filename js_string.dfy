/**
 * The JavaScript string primitives the core relies on: `trim`,
 * `toLowerCase`, `repeat`, and the containment and counting notions used to
 * state properties of composed strings. A `char` is a Unicode character; it
 * matches one UTF-16 code unit of the JavaScript string only inside the Basic
 * Multilingual Plane.
 */
module JsString {

  /** ECMAScript WhiteSpace and LineTerminator code points: what `trim` removes. */
  predicate IsWhitespace(c: char) {
    c == '\t' || c == '\n' || c == '\U{000B}' || c == '\U{000C}' || c == '\r' || c == ' '
    || c == '\U{00A0}' || c == '\U{1680}' || ('\U{2000}' <= c <= '\U{200A}')
    || c == '\U{2028}' || c == '\U{2029}' || c == '\U{202F}' || c == '\U{205F}'
    || c == '\U{3000}' || c == '\U{FEFF}'
  }

  predicate AllWhitespace(s: string) {
    forall i :: 0 <= i < |s| ==> IsWhitespace(s[i])
  }

  /** Neither end of `s` is whitespace. */
  predicate IsTrimmed(s: string) {
    s == [] || (!IsWhitespace(s[0]) && !IsWhitespace(s[|s| - 1]))
  }

  /** `s` with its leading whitespace removed: a suffix of `s`. */
  function TrimStart(s: string): (r: string)
    ensures |r| <= |s| && r == s[|s| - |r|..]
    ensures AllWhitespace(s[..|s| - |r|])
    ensures r == [] || !IsWhitespace(r[0])
  {
    if s != [] && IsWhitespace(s[0]) then TrimStart(s[1..]) else s
  }

  /** `s` with its trailing whitespace removed: a prefix of `s`. */
  function TrimEnd(s: string): (r: string)
    ensures |r| <= |s| && r == s[..|r|]
    ensures AllWhitespace(s[|r|..])
    ensures r == [] || !IsWhitespace(r[|r| - 1])
  {
    if s != [] && IsWhitespace(s[|s| - 1]) then TrimEnd(s[..|s| - 1]) else s
  }

  /** `r` is the slice of `s` at `lo` and only whitespace lies around it. */
  ghost predicate TrimmedAt(s: string, r: string, lo: int) {
    0 <= lo && lo + |r| <= |s| && s[lo..lo + |r|] == r
    && AllWhitespace(s[..lo]) && AllWhitespace(s[lo + |r|..])
  }

  /**
   * `String.prototype.trim`: the result is a slice of `s`, everything cut
   * away on either side is whitespace, and neither end of the result is.
   */
  function Trim(s: string): (r: string)
    ensures IsTrimmed(r)
    ensures exists lo :: TrimmedAt(s, r, lo)
  {
    var t := TrimStart(s);
    var r := TrimEnd(t);
    TrimEndKeepsStart(t);
    TrimStartThenEnd(s, t, r);
    r
  }

  /** Trimming the end of a string that starts with a non-space keeps that start. */
  lemma TrimEndKeepsStart(t: string)
    requires t == [] || !IsWhitespace(t[0])
    ensures IsTrimmed(TrimEnd(t))
  {
    var r := TrimEnd(t);
    if r != [] {
      assert r[0] == t[..|r|][0] == t[0];
    }
  }

  /** A prefix of a suffix, with whitespace only around it, is a trimmed slice. */
  lemma TrimStartThenEnd(s: string, t: string, r: string)
    requires |t| <= |s| && t == s[|s| - |t|..] && AllWhitespace(s[..|s| - |t|])
    requires |r| <= |t| && r == t[..|r|] && AllWhitespace(t[|r|..])
    ensures TrimmedAt(s, r, |s| - |t|)
  {
    var lo := |s| - |t|;
    assert s[lo..] == t;
    assert s[lo..lo + |r|] == t[..|r|];
    assert s[lo + |r|..] == t[|r|..];
  }

  /** A string without whitespace at either end is its own trim. */
  lemma TrimmedIsFixpoint(s: string)
    requires IsTrimmed(s)
    ensures Trim(s) == s
  {
  }

  /** Trimming twice is trimming once. */
  lemma TrimIdempotent(s: string)
    ensures Trim(Trim(s)) == Trim(s)
  {
    TrimmedIsFixpoint(Trim(s));
  }

  /** `toLowerCase` of one character, on the ASCII letters. */
  function LowerChar(c: char): char {
    if 'A' <= c <= 'Z' then (c as int + 32) as char else c
  }

  /** `String.prototype.toLowerCase`, character by character. */
  function ToLower(s: string): (r: string)
    ensures |r| == |s|
    ensures forall i :: 0 <= i < |s| ==> r[i] == LowerChar(s[i])
  {
    if s == [] then [] else [LowerChar(s[0])] + ToLower(s[1..])
  }

  /** Lowering an already lowered string changes nothing. */
  lemma {:induction false} ToLowerIdempotent(s: string)
    ensures ToLower(ToLower(s)) == ToLower(s)
  {
    if s != [] {
      ToLowerIdempotent(s[1..]);
      assert ToLower(s)[1..] == ToLower(s[1..]);
    }
  }

  /** `c.repeat(n)`. */
  function Repeat(c: char, n: nat): (r: string)
    ensures |r| == n
    ensures forall i :: 0 <= i < n ==> r[i] == c
  {
    if n == 0 then [] else [c] + Repeat(c, n - 1)
  }

  /** The number of occurrences of `c` in `s`. */
  function Count(s: string, c: char): (n: nat)
    ensures n <= |s|
  {
    if s == [] then 0 else (if s[0] == c then 1 else 0) + Count(s[1..], c)
  }

  lemma {:induction false} CountAppend(a: string, b: string, c: char)
    ensures Count(a + b, c) == Count(a, c) + Count(b, c)
  {
    if a != [] {
      assert (a + b)[0] == a[0];
      assert (a + b)[1..] == a[1..] + b;
      CountAppend(a[1..], b, c);
    } else {
      assert a + b == b;
    }
  }

  /** A string made only of `c` counts `c` once per position. */
  lemma {:induction false} CountUniform(s: string, c: char)
    requires forall i :: 0 <= i < |s| ==> s[i] == c
    ensures Count(s, c) == |s|
  {
    if s != [] {
      CountUniform(s[1..], c);
    }
  }

  /** `t` occurs in `s` starting at index `i`. */
  ghost predicate InfixAt(t: string, s: string, i: int) {
    0 <= i <= |s| - |t| && s[i..i + |t|] == t
  }

  /** `t` occurs in `s` as a contiguous substring (`s.includes(t)`). */
  ghost predicate IsInfix(t: string, s: string) {
    exists i :: InfixAt(t, s, i)
  }

  lemma InfixOfConcat(a: string, t: string, b: string)
    ensures IsInfix(t, a + t + b)
  {
    var s := a + t + b;
    assert s[|a|..|a| + |t|] == t;
    assert InfixAt(t, s, |a|);
  }

  /** An occurrence survives appending text after it. */
  lemma InfixAppend(t: string, s: string, u: string)
    requires IsInfix(t, s)
    ensures IsInfix(t, s + u)
  {
    var i :| InfixAt(t, s, i);
    assert (s + u)[i..i + |t|] == s[i..i + |t|];
    assert InfixAt(t, s + u, i);
  }

  lemma InfixTransitive(a: string, b: string, c: string)
    requires IsInfix(a, b) && IsInfix(b, c)
    ensures IsInfix(a, c)
  {
    var i :| InfixAt(a, b, i);
    var j :| InfixAt(b, c, j);
    forall k | 0 <= k < |a|
      ensures c[j + i + k] == a[k]
    {
      assert a[k] == b[i + k];
      assert b[i + k] == c[j + i + k];
    }
    assert c[j + i..j + i + |a|] == a;
    assert InfixAt(a, c, j + i);
  }
}
