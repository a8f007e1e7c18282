/**
 * The JavaScript string operations the dashboard relies on: `trim`, `includes`,
 * `startsWith`, `split(sep)[1]`, `toLowerCase`, `Number(s)` and number-to-text.
 */
module Text {
  import opened Wrappers

  /** The characters `String.prototype.trim` removes: WhiteSpace and LineTerminator of ECMA-262. */
  const JsWhitespace: set<char> :=
    {'\t', '\n', '\U{0B}', '\U{0C}', '\r', ' ', '\U{A0}', '\U{1680}',
     '\U{2000}', '\U{2001}', '\U{2002}', '\U{2003}', '\U{2004}', '\U{2005}',
     '\U{2006}', '\U{2007}', '\U{2008}', '\U{2009}', '\U{200A}',
     '\U{2028}', '\U{2029}', '\U{202F}', '\U{205F}', '\U{3000}', '\U{FEFF}'}

  /** `!s.trim()`: the string is empty once whitespace is removed. */
  predicate IsBlank(s: string) {
    forall i :: 0 <= i < |s| ==> s[i] in JsWhitespace
  }

  function TrimStart(s: string): (r: string)
    ensures |r| <= |s| && r == s[|s| - |r|..]
    ensures r != [] ==> r[0] !in JsWhitespace
    ensures IsBlank(s[..|s| - |r|])
  {
    if s != [] && s[0] in JsWhitespace then
      var r := TrimStart(s[1..]);
      assert s[..|s| - |r|] == [s[0]] + s[1..][..|s| - 1 - |r|];
      assert s[1..][|s| - 1 - |r|..] == s[|s| - |r|..];
      r
    else
      assert s[..0] == [];
      s
  }

  function TrimEnd(s: string): (r: string)
    ensures |r| <= |s| && r == s[..|r|]
    ensures r != [] ==> r[|r| - 1] !in JsWhitespace
    ensures IsBlank(s[|r|..])
  {
    if s != [] && s[|s| - 1] in JsWhitespace then TrimEnd(s[..|s| - 1]) else s
  }

  /** `s.trim()` */
  function Trim(s: string): string {
    TrimEnd(TrimStart(s))
  }

  /** `s.trim()` is empty exactly when every character of `s` is whitespace. */
  lemma TrimEmptyIffBlank(s: string)
    ensures Trim(s) == "" <==> IsBlank(s)
  {
    var u := TrimStart(s);
    assert u != [] ==> u[0] == s[|s| - |u|];
    if Trim(s) == "" {
      assert u[0..] == u;
      assert s[..|s|] == s;
    }
  }

  /** `s.startsWith(p)` */
  predicate StartsWith(s: string, p: string) {
    |p| <= |s| && s[..|p|] == p
  }

  /** `s.includes(t)`, scanning `s` from the left. */
  predicate Contains(s: string, t: string)
    decreases |s|
  {
    StartsWith(s, t) || (s != [] && Contains(s[1..], t))
  }

  /** A string that lacks the first character of `t` does not include `t`. */
  lemma {:induction false} NoFirstCharNoContains(s: string, t: string)
    requires t != [] && t[0] !in s
    ensures !Contains(s, t)
  {
    if s != [] {
      assert s[0] != t[0];
      NoFirstCharNoContains(s[1..], t);
    }
  }

  /** Putting a prefix without the first character of `t` in front of `s` does not change whether `t` is included. */
  lemma {:induction false} ContainsAfterPrefix(p: string, s: string, t: string)
    requires t != [] && t[0] !in p
    ensures Contains(p + s, t) <==> Contains(s, t)
  {
    if p == [] {
      assert p + s == s;
    } else {
      assert (p + s)[0] == p[0] && (p + s)[1..] == p[1..] + s;
      assert !StartsWith(p + s, t);
      ContainsAfterPrefix(p[1..], s, t);
    }
  }

  /** The text between the first and the second occurrence of `sep`: `s.split(sep)[1]`. */
  function SecondSegment(s: string, sep: char): (r: Option<string>)
    ensures r.Some? <==> sep in s
  {
    if s == [] then None
    else if s[0] == sep then Some(UpToSeparator(s[1..], sep))
    else SecondSegment(s[1..], sep)
  }

  function UpToSeparator(s: string, sep: char): (r: string)
    ensures sep !in r && StartsWith(s, r)
  {
    if s == [] || s[0] == sep then [] else [s[0]] + UpToSeparator(s[1..], sep)
  }

  /** The text before a separator that does not occur in it is recovered whole. */
  lemma {:induction false} UpToSeparatorOfJoin(a: string, sep: char, b: string)
    requires sep !in a
    ensures UpToSeparator(a + [sep] + b, sep) == a
  {
    if a != [] {
      assert (a + [sep] + b)[1..] == a[1..] + [sep] + b;
      UpToSeparatorOfJoin(a[1..], sep, b);
    } else {
      assert a + [sep] + b == [sep] + b;
    }
  }

  /** `toLowerCase`/`toUpperCase` on one character, for the letters A-Z. */
  function LowerChar(c: char): char {
    if 'A' <= c <= 'Z' then (c as int + 32) as char else c
  }

  function UpperChar(c: char): char {
    if 'a' <= c <= 'z' then (c as int - 32) as char else c
  }

  function ToLower(s: string): (r: string)
    ensures |r| == |s|
    ensures forall i :: 0 <= i < |s| ==> r[i] == LowerChar(s[i])
  {
    seq(|s|, i requires 0 <= i < |s| => LowerChar(s[i]))
  }

  function ToUpper(s: string): (r: string)
    ensures |r| == |s|
    ensures forall i :: 0 <= i < |s| ==> r[i] == UpperChar(s[i])
  {
    seq(|s|, i requires 0 <= i < |s| => UpperChar(s[i]))
  }

  /** Upper-casing first loses nothing that lower-casing keeps. */
  lemma LowerOfUpper(s: string)
    ensures ToLower(ToUpper(s)) == ToLower(s)
  {
    forall i | 0 <= i < |s| ensures LowerChar(UpperChar(s[i])) == LowerChar(s[i]) {
      var c := s[i];
      if 'a' <= c <= 'z' {
        assert UpperChar(c) as int == c as int - 32;
      }
    }
  }

  predicate IsDigit(c: char) {
    '0' <= c <= '9'
  }

  predicate AllDigits(s: string) {
    forall i :: 0 <= i < |s| ==> IsDigit(s[i])
  }

  /** The value of a decimal digit string; the empty string reads as 0. */
  function DigitsValue(s: string): (n: nat)
    requires AllDigits(s)
  {
    if s == [] then 0 else 10 * DigitsValue(s[..|s| - 1]) + (s[|s| - 1] as int - '0' as int)
  }

  function Pow10(k: nat): (p: nat)
    ensures p >= 1
  {
    if k == 0 then 1 else 10 * Pow10(k - 1)
  }

  /** The position of the first `c` in `s`. */
  function IndexOf(s: string, c: char): (k: nat)
    requires c in s
    ensures k < |s| && s[k] == c && c !in s[..k]
  {
    if s[0] == c then 0 else 1 + IndexOf(s[1..], c)
  }

  /** An unsigned decimal numeral `d*[.d*]` with at least one digit; anything else is NaN (`None`). */
  function UnsignedDecimal(t: string): Option<real> {
    if '.' in t then
      var k := IndexOf(t, '.');
      var whole, frac := t[..k], t[k + 1..];
      if AllDigits(whole) && AllDigits(frac) && |whole| + |frac| > 0
      then Some(DigitsValue(whole) as real + DigitsValue(frac) as real / Pow10(|frac|) as real)
      else None
    else if AllDigits(t) && t != [] then Some(DigitsValue(t) as real)
    else None
  }

  /**
   * `Number(s)` for the forms a form field holds: surrounding whitespace is ignored, a blank
   * string is 0, an optionally signed decimal numeral is its value, anything else is NaN (`None`).
   */
  function ToNumber(s: string): (r: Option<real>)
    ensures IsBlank(s) ==> r == Some(0.0)
  {
    var t := Trim(s);
    TrimEmptyIffBlank(s);
    if t == "" then Some(0.0)
    else if t[0] == '-' then
      match UnsignedDecimal(t[1..])
      case Some(v) => Some(-v)
      case None => None
    else if t[0] == '+' then UnsignedDecimal(t[1..])
    else UnsignedDecimal(t)
  }

  function DigitChar(d: nat): char
    requires d < 10
  {
    ('0' as int + d) as char
  }

  /** The decimal rendering of a non-negative integer (`String(n)`). */
  function NatToString(n: nat): (r: string)
    ensures r != [] && AllDigits(r)
    ensures DigitsValue(r) == n
  {
    if n < 10 then [DigitChar(n)]
    else
      var r := NatToString(n / 10) + [DigitChar(n % 10)];
      assert r[..|r| - 1] == NatToString(n / 10);
      r
  }
}
