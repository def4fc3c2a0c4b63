/**
 * The JavaScript string built-ins the front end relies on.
 *
 * A string is a `seq<char>`.  A `char` is one Unicode character, so `|s|` is
 * JavaScript's `s.length` only for text inside the Basic Multilingual Plane:
 * a character outside it is one `char` here but a surrogate pair, two units of
 * `length`, in JavaScript, and length checks and cuts count it differently.
 *
 * `Trim` removes exactly the characters ECMAScript's `String.prototype.trim`
 * removes (the WhiteSpace and LineTerminator productions).  Case mapping is
 * ASCII-only: `ToUpperCase`/`ToLowerCase` change `a`-`z`/`A`-`Z` and leave every
 * other character alone, which is what JavaScript does on ASCII text.
 */
module JsString {

  /** ECMAScript WhiteSpace (TAB, VT, FF, ZWNBSP and the Zs space separators) or LineTerminator. */
  predicate IsWhitespace(c: char) {
    c == '\t' || c == '\n' || c == '\U{000B}' || c == '\U{000C}' || c == '\r' ||
    c == ' ' || c == '\U{00A0}' || c == '\U{1680}' ||
    ('\U{2000}' <= c <= '\U{200A}') ||
    c == '\U{2028}' || c == '\U{2029}' || c == '\U{202F}' || c == '\U{205F}' ||
    c == '\U{3000}' || c == '\U{FEFF}'
  }

  /** True when `s.trim()` is empty, i.e. when JavaScript's `!s.trim()` holds. */
  predicate IsBlank(s: string) {
    forall i :: 0 <= i < |s| ==> IsWhitespace(s[i])
  }

  /** Drops the leading whitespace: the result is a suffix of `s`, and what was dropped is all whitespace. */
  function TrimStart(s: string): (r: string)
    ensures |r| <= |s| && r == s[|s| - |r|..]
    ensures forall i :: 0 <= i < |s| - |r| ==> IsWhitespace(s[i])
    ensures r != [] ==> !IsWhitespace(r[0])
  {
    if s != [] && IsWhitespace(s[0]) then TrimStart(s[1..]) else s
  }

  /** Drops the trailing whitespace: the result is a prefix of `s`, and what was dropped is all whitespace. */
  function TrimEnd(s: string): (r: string)
    ensures |r| <= |s| && r == s[..|r|]
    ensures forall i :: |r| <= i < |s| ==> IsWhitespace(s[i])
    ensures r != [] ==> !IsWhitespace(r[|r| - 1])
  {
    if s != [] && IsWhitespace(s[|s| - 1]) then TrimEnd(s[..|s| - 1]) else s
  }

  /** `s.trim()`: empty exactly when `s` is blank, otherwise starting and ending with a non-whitespace character. */
  function Trim(s: string): (r: string)
    ensures |r| <= |s|
    ensures r == [] <==> IsBlank(s)
    ensures r != [] ==> !IsWhitespace(r[0]) && !IsWhitespace(r[|r| - 1])
  {
    var t := TrimStart(s);
    var r := TrimEnd(t);
    assert r == [] <==> IsBlank(s) by {
      if r == [] {
        assert |t| == 0;
      } else {
        assert !IsWhitespace(r[0]) && r[0] == t[0] == s[|s| - |t|];
      }
    }
    r
  }

  /**
   * `s.trim()` is `s` with its surrounding whitespace cut off: a slice
   * `s[a..b]` where everything before `a` and everything from `b` on is
   * whitespace.
   */
  lemma TrimRemovesSurroundingWhitespace(s: string) returns (a: nat, b: nat)
    ensures a <= b <= |s| && Trim(s) == s[a..b]
    ensures forall i :: 0 <= i < a ==> IsWhitespace(s[i])
    ensures forall i :: b <= i < |s| ==> IsWhitespace(s[i])
  {
    var t := TrimStart(s);
    var r := TrimEnd(t);
    a := |s| - |t|;
    b := a + |r|;
    assert t == s[a..];
    assert r == t[..|r|];
    assert r == s[a..b];
    forall i | b <= i < |s| ensures IsWhitespace(s[i]) {
      assert s[i] == t[i - a];
    }
  }

  /** Whitespace appended to a string is exactly what `TrimEnd` takes off again. */
  lemma {:induction false} TrimEndIgnoresTrailingWhitespace(s: string, w: string)
    requires IsBlank(w)
    ensures TrimEnd(s + w) == TrimEnd(s)
  {
    if w == [] {
      assert s + w == s;
    } else {
      var n := |w| - 1;
      var sw := s + w;
      assert sw[|sw| - 1] == w[n] && IsWhitespace(w[n]);
      assert sw[..|sw| - 1] == s + w[..n];
      assert TrimEnd(sw) == TrimEnd(s + w[..n]);
      TrimEndIgnoresTrailingWhitespace(s, w[..n]);
    }
  }

  /** Trimming is idempotent: a trimmed string has nothing left to trim. */
  lemma TrimIdempotent(s: string)
    ensures Trim(Trim(s)) == Trim(s)
  {
    var r := Trim(s);
    if r != [] {
      assert TrimStart(r) == r;
      assert TrimEnd(r) == r;
    }
  }

  /** JavaScript's `Math.min`/`Math.max` on integers, and the clamp `substring` applies to its indices. */
  function Clamp(i: int, len: nat): (c: nat)
    ensures c <= len
    ensures 0 <= i <= len ==> c == i
  {
    if i < 0 then 0 else if i > len then len else i
  }

  /** `s.substring(start, end)`: both indices are clamped to `[0, s.length]` and swapped when out of order. */
  function Substring(s: string, start: int, end: int): (r: string)
    ensures |r| <= |s|
    ensures 0 <= start <= end <= |s| ==> r == s[start..end]
    ensures start <= 0 ==> r == s[..Clamp(end, |s|)]
  {
    var a, b := Clamp(start, |s|), Clamp(end, |s|);
    if a <= b then s[a..b] else s[b..a]
  }

  /** `s.slice(start)`: a negative start counts from the end. */
  function Slice(s: string, start: int): (r: string)
    ensures |r| <= |s| && r == s[|s| - |r|..]
    ensures 0 <= start <= |s| ==> |r| == |s| - start
    ensures -|s| <= start < 0 ==> |r| == -start
  {
    if start < 0 then s[Clamp(|s| + start, |s|)..] else s[Clamp(start, |s|)..]
  }

  /** `s.charAt(pos)`: the one character at `pos`, or the empty string when `pos` is out of range. */
  function CharAt(s: string, pos: int): (r: string)
    ensures |r| <= 1
    ensures r == [] <==> !(0 <= pos < |s|)
    ensures r != [] ==> r[0] == s[pos]
  {
    if 0 <= pos < |s| then [s[pos]] else []
  }

  predicate IsAsciiLower(c: char) { 'a' <= c <= 'z' }

  predicate IsAsciiUpper(c: char) { 'A' <= c <= 'Z' }

  /** Upper-cases an ASCII letter; every other character is its own upper case. */
  function ToUpperChar(c: char): (u: char)
    ensures !IsAsciiLower(u)
    ensures IsAsciiLower(c) <==> u != c
    ensures ToLowerChar(u) == ToLowerChar(c)
  {
    if IsAsciiLower(c) then (c as int - 32) as char else c
  }

  /** Lower-cases an ASCII letter; every other character is its own lower case. */
  function ToLowerChar(c: char): (l: char)
    ensures !IsAsciiUpper(l)
    ensures IsAsciiUpper(c) <==> l != c
  {
    if IsAsciiUpper(c) then (c as int + 32) as char else c
  }

  /** `s.toUpperCase()` on the ASCII letters: position by position, same length. */
  function ToUpperCase(s: string): (r: string)
    ensures |r| == |s|
    ensures forall i :: 0 <= i < |s| ==> r[i] == ToUpperChar(s[i])
  {
    if s == [] then [] else [ToUpperChar(s[0])] + ToUpperCase(s[1..])
  }

  /** `s.toLowerCase()` on the ASCII letters: position by position, same length. */
  function ToLowerCase(s: string): (r: string)
    ensures |r| == |s|
    ensures forall i :: 0 <= i < |s| ==> r[i] == ToLowerChar(s[i])
  {
    if s == [] then [] else [ToLowerChar(s[0])] + ToLowerCase(s[1..])
  }

  /** Lower-casing twice is lower-casing once. */
  lemma ToLowerCaseIdempotent(s: string)
    ensures ToLowerCase(ToLowerCase(s)) == ToLowerCase(s)
  {
  }

  /** Upper-casing twice is upper-casing once. */
  lemma ToUpperCaseIdempotent(s: string)
    ensures ToUpperCase(ToUpperCase(s)) == ToUpperCase(s)
  {
  }
}
