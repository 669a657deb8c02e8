/**
 * Strings as the JavaScript runtime sees them: the whitespace class shared by
 * `String.prototype.trim` and the regular expression `\s`, trimming, substring
 * search, ASCII lower-casing and decimal rendering of integers.
 */
module Text {

  /** ECMAScript WhiteSpace and LineTerminator code points (the set `trim` removes and `\s` matches). */
  predicate IsWhitespace(c: char)
  {
    || c == '\t' || c == '\n' || c == '\U{0B}' || c == '\U{0C}' || c == '\r' || c == ' '
    || c == '\U{A0}' || c == '\U{1680}' || ('\U{2000}' <= c <= '\U{200A}')
    || c == '\U{2028}' || c == '\U{2029}' || c == '\U{202F}' || c == '\U{205F}'
    || c == '\U{3000}' || c == '\U{FEFF}'
  }

  predicate AllWhitespace(s: string)
  {
    forall i :: 0 <= i < |s| ==> IsWhitespace(s[i])
  }

  /** `trimStart`: the suffix of `s` that begins at its first non-whitespace character. */
  function TrimStart(s: string): (r: string)
    ensures |r| <= |s| && r == s[|s| - |r|..]
    ensures r == [] || !IsWhitespace(r[0])
  {
    if s != [] && IsWhitespace(s[0]) then TrimStart(s[1..]) else s
  }

  /** `trimEnd`: the prefix of `s` that ends at its last non-whitespace character. */
  function TrimEnd(s: string): (r: string)
    ensures |r| <= |s| && r == s[..|r|]
    ensures r == [] || !IsWhitespace(r[|r| - 1])
  {
    if s != [] && IsWhitespace(s[|s| - 1]) then TrimEnd(s[..|s| - 1]) else s
  }

  /**
   * `String.prototype.trim`: whitespace dropped at both ends. The result is
   * empty, or starts and ends with a non-whitespace character; `TrimIsSlice`
   * shows it is a slice of `s` with only whitespace before and after it.
   */
  function Trim(s: string): (r: string)
    ensures |r| <= |s|
    ensures r == [] <==> AllWhitespace(s)
    ensures r != [] ==> !IsWhitespace(r[0]) && !IsWhitespace(r[|r| - 1])
  {
    TrimStartEmpty(s);
    TrimEndEmpty(TrimStart(s));
    TrimEnd(TrimStart(s))
  }

  /** White space all through: the first character and all the rest. */
  lemma AllWhitespaceFirst(s: string)
    requires s != []
    ensures AllWhitespace(s) <==> IsWhitespace(s[0]) && AllWhitespace(s[1..])
  {
    if IsWhitespace(s[0]) && AllWhitespace(s[1..]) {
      forall i | 0 < i < |s| ensures IsWhitespace(s[i]) {
        assert s[i] == s[1..][i - 1];
      }
    }
  }

  /** White space all through: the last character and all before it. */
  lemma AllWhitespaceLast(s: string)
    requires s != []
    ensures AllWhitespace(s) <==> IsWhitespace(s[|s| - 1]) && AllWhitespace(s[..|s| - 1])
  {
    if IsWhitespace(s[|s| - 1]) && AllWhitespace(s[..|s| - 1]) {
      forall i | 0 <= i < |s| - 1 ensures IsWhitespace(s[i]) {
        assert s[i] == s[..|s| - 1][i];
      }
    }
  }

  lemma {:induction false} TrimStartEmpty(s: string)
    ensures TrimStart(s) == [] <==> AllWhitespace(s)
    decreases |s|
  {
    if s != [] {
      AllWhitespaceFirst(s);
      if IsWhitespace(s[0]) {
        TrimStartEmpty(s[1..]);
      }
    }
  }

  lemma {:induction false} TrimEndEmpty(s: string)
    ensures TrimEnd(s) == [] <==> AllWhitespace(s)
    decreases |s|
  {
    if s != [] {
      AllWhitespaceLast(s);
      if IsWhitespace(s[|s| - 1]) {
        TrimEndEmpty(s[..|s| - 1]);
      }
    }
  }

  /** What `trimStart` drops is white space. */
  lemma {:induction false} TrimStartDropsWhitespace(s: string)
    ensures AllWhitespace(s[..|s| - |TrimStart(s)|])
    decreases |s|
  {
    if s != [] && IsWhitespace(s[0]) {
      TrimStartDropsWhitespace(s[1..]);
      var d := s[..|s| - |TrimStart(s)|];
      assert d != [] && d[0] == s[0];
      assert d[1..] == s[1..][..|s[1..]| - |TrimStart(s[1..])|];
      AllWhitespaceFirst(d);
    }
  }

  /** What `trimEnd` drops is white space. */
  lemma {:induction false} TrimEndDropsWhitespace(s: string)
    ensures AllWhitespace(s[|TrimEnd(s)|..])
    decreases |s|
  {
    if s != [] && IsWhitespace(s[|s| - 1]) {
      var u := s[..|s| - 1];
      TrimEndDropsWhitespace(u);
      var d := s[|TrimEnd(s)|..];
      assert d != [] && d[|d| - 1] == s[|s| - 1];
      assert d[..|d| - 1] == u[|TrimEnd(u)|..];
      AllWhitespaceLast(d);
    }
  }

  /** `t` is what is left of `s` once white space is dropped from its front. */
  predicate AfterLeadingWhitespace(s: string, t: string)
  {
    |t| <= |s| && t == s[|s| - |t|..] && AllWhitespace(s[..|s| - |t|])
  }

  /** `r` is what is left of `t` once white space is dropped from its end. */
  predicate BeforeTrailingWhitespace(t: string, r: string)
  {
    |r| <= |t| && r == t[..|r|] && AllWhitespace(t[|r|..])
  }

  /** `r` is the slice `s[i..j]`, with only white space before `i` and after `j`. */
  predicate SliceBetweenWhitespace(s: string, r: string, i: int, j: int)
  {
    && 0 <= i <= j <= |s| && r == s[i..j]
    && AllWhitespace(s[..i]) && AllWhitespace(s[j..])
  }

  lemma TrimStartDropsLeading(s: string)
    ensures AfterLeadingWhitespace(s, TrimStart(s))
  {
    TrimStartDropsWhitespace(s);
  }

  lemma TrimEndDropsTrailing(t: string)
    ensures BeforeTrailingWhitespace(t, TrimEnd(t))
  {
    TrimEndDropsWhitespace(t);
  }

  /** White space, then `t`; `t` is `r`, then white space: so `r` sits between the two. */
  lemma SliceBetween(s: string, t: string, r: string)
    requires AfterLeadingWhitespace(s, t) && BeforeTrailingWhitespace(t, r)
    ensures SliceBetweenWhitespace(s, r, |s| - |t|, |s| - |t| + |r|)
  {
    var i := |s| - |t|;
    assert t[|r|..] == s[i + |r|..];
    assert t[..|r|] == s[i..i + |r|];
  }

  /**
   * `Trim(s)` is `TrimEnd(TrimStart(s))`, named `r` here with `t` the text after
   * the leading whitespace: `r` is the slice of `s` that starts where `t` does,
   * and only whitespace lies before and after it.
   */
  lemma TrimIsSlice(s: string, t: string, r: string)
    requires t == TrimStart(s) && r == TrimEnd(t)
    ensures SliceBetweenWhitespace(s, r, |s| - |t|, |s| - |t| + |r|)
  {
    TrimStartDropsLeading(s);
    TrimEndDropsTrailing(t);
    SliceBetween(s, t, r);
  }

  /** `haystack.includes(needle)`. */
  predicate Contains(haystack: string, needle: string)
    decreases |haystack|
  {
    needle <= haystack || (haystack != [] && Contains(haystack[1..], needle))
  }

  /** `s.startsWith(prefix)`. */
  predicate StartsWith(s: string, prefix: string)
  {
    prefix <= s
  }

  /** `toLowerCase` on the ASCII letters; every other character is kept. */
  function LowerChar(c: char): char
  {
    if 'A' <= c <= 'Z' then (c as int + 32) as char else c
  }

  function Lower(s: string): (r: string)
    ensures |r| == |s|
  {
    if s == [] then [] else [LowerChar(s[0])] + Lower(s[1..])
  }

  // ---------------------------------------------------------------- decimal

  predicate IsDigit(c: char)
  {
    '0' <= c <= '9'
  }

  predicate AllDigits(s: string)
  {
    forall i :: 0 <= i < |s| ==> IsDigit(s[i])
  }

  function DigitChar(d: nat): (c: char)
    requires d < 10
    ensures IsDigit(c)
  {
    ('0' as int + d) as char
  }

  function DigitValue(c: char): (d: nat)
    requires IsDigit(c)
    ensures d < 10
  {
    c as int - '0' as int
  }

  /** The number a string of decimal digits denotes. */
  function DigitsValue(s: string): nat
    requires AllDigits(s)
  {
    if s == [] then 0 else 10 * DigitsValue(s[..|s| - 1]) + DigitValue(s[|s| - 1])
  }

  /** `n.toString()` for a non-negative integer: digits only, no leading zero. */
  function NatToString(n: nat): (r: string)
    ensures r != [] && AllDigits(r)
    ensures r[0] == '0' ==> r == "0"
  {
    if n < 10 then [DigitChar(n)] else NatToString(n / 10) + [DigitChar(n % 10)]
  }

  /** `i.toString()` for any integer: a minus sign before the digits of a negative one. */
  function IntToString(i: int): (r: string)
    ensures i >= 0 ==> r == NatToString(i)
    ensures i < 0 ==> r == "-" + NatToString(-i)
  {
    if i < 0 then "-" + NatToString(-i) else NatToString(i)
  }

  /** Reading back the decimal rendering gives the number. */
  lemma {:induction false} NatToStringRoundTrip(n: nat)
    ensures DigitsValue(NatToString(n)) == n
  {
    if n >= 10 {
      NatToStringRoundTrip(n / 10);
      var r := NatToString(n);
      assert r[..|r| - 1] == NatToString(n / 10);
    }
  }

  /** `n.toString().padStart(2, '0')` for a number below one hundred. */
  function PadTwo(n: nat): (r: string)
    requires n < 100
    ensures |r| == 2 && AllDigits(r) && DigitsValue(r) == n
  {
    NatToStringRoundTrip(n);
    if n < 10 then
      var r := "0" + NatToString(n);
      assert r[..1] == "0";
      r
    else NatToString(n)
  }
}
