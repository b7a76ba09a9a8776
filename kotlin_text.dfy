/**
 * Kotlin string operations used by the validators and enum parsers:
 * String.trim(), String.lowercase() (ASCII part) and String.toIntOrNull().
 */
module KotlinText {
  import opened Wrappers
  import opened KotlinNumbers

  /**
   * Kotlin's Char.isWhitespace(): Java's isWhitespace or isSpaceChar, that is
   * TAB..CR, the four separators U+001C..U+001F, and the Unicode space,
   * line and paragraph separators (including the no-break spaces).
   */
  predicate IsWhitespace(c: char) {
    || ('\U{0009}' <= c <= '\U{000D}')
    || ('\U{001C}' <= c <= '\U{0020}')
    || c == '\U{00A0}' || c == '\U{1680}'
    || ('\U{2000}' <= c <= '\U{200A}')
    || c == '\U{2028}' || c == '\U{2029}' || c == '\U{202F}' || c == '\U{205F}' || c == '\U{3000}'
  }

  predicate AllWhitespace(s: string) {
    forall i :: 0 <= i < |s| ==> IsWhitespace(s[i])
  }

  function TrimStart(s: string): (r: string)
    ensures |r| <= |s| && r == s[|s| - |r|..]
    ensures r == [] || !IsWhitespace(r[0])
    ensures AllWhitespace(s[..|s| - |r|])
  {
    if s == [] || !IsWhitespace(s[0]) then s
    else
      var r := TrimStart(s[1..]);
      assert s[1..][..|s| - 1 - |r|] == s[1..|s| - |r|];
      r
  }

  function TrimEnd(s: string): (r: string)
    ensures |r| <= |s| && r == s[..|r|]
    ensures r == [] || !IsWhitespace(r[|r| - 1])
    ensures AllWhitespace(s[|r|..])
  {
    if s == [] || !IsWhitespace(s[|s| - 1]) then s
    else
      var r := TrimEnd(s[..|s| - 1]);
      assert s[..|s| - 1][|r|..] == s[|r|..|s| - 1];
      r
  }

  /** Kotlin's String.trim(): drops leading and trailing whitespace. */
  function Trim(s: string): (r: string)
    ensures |r| <= |s|
    ensures r == [] || (!IsWhitespace(r[0]) && !IsWhitespace(r[|r| - 1]))
  {
    TrimEnd(TrimStart(s))
  }

  /** A string with no whitespace at either end is its own trim. */
  lemma TrimOfTrimmed(s: string)
    requires s == [] || (!IsWhitespace(s[0]) && !IsWhitespace(s[|s| - 1]))
    ensures Trim(s) == s
  {
  }

  /** Trimming twice is trimming once. */
  lemma TrimIdempotent(s: string)
    ensures Trim(Trim(s)) == Trim(s)
  {
    TrimOfTrimmed(Trim(s));
  }

  lemma {:induction false} TrimStartSkipsWhitespace(w: string, s: string)
    requires AllWhitespace(w)
    ensures TrimStart(w + s) == TrimStart(s)
  {
    if w != [] {
      assert (w + s)[1..] == w[1..] + s;
      TrimStartSkipsWhitespace(w[1..], s);
    } else {
      assert w + s == s;
    }
  }

  lemma {:induction false} TrimEndSkipsWhitespace(s: string, w: string)
    requires AllWhitespace(w)
    ensures TrimEnd(s + w) == TrimEnd(s)
  {
    if w != [] {
      assert (s + w)[..|s + w| - 1] == s + w[..|w| - 1];
      TrimEndSkipsWhitespace(s, w[..|w| - 1]);
    } else {
      assert s + w == s;
    }
  }

  lemma {:induction false} TrimStartOfSuffixed(s: string, w: string)
    requires AllWhitespace(w)
    ensures TrimStart(s + w) == TrimStart(s) + w || (TrimStart(s) == [] && TrimStart(s + w) == [])
  {
    if s == [] {
      assert s + w == w;
      TrimStartSkipsWhitespace(w, []);
      assert w + [] == w;
    } else if !IsWhitespace(s[0]) {
    } else {
      assert (s + w)[1..] == s[1..] + w;
      TrimStartOfSuffixed(s[1..], w);
    }
  }

  /** Whitespace around a string does not change its trim. */
  lemma TrimIgnoresSurroundingWhitespace(w1: string, s: string, w2: string)
    requires AllWhitespace(w1) && AllWhitespace(w2)
    ensures Trim(w1 + s + w2) == Trim(s)
  {
    calc {
      Trim(w1 + s + w2);
      { assert w1 + s + w2 == w1 + (s + w2); }
      TrimEnd(TrimStart(w1 + (s + w2)));
      { TrimStartSkipsWhitespace(w1, s + w2); }
      TrimEnd(TrimStart(s + w2));
    }
    TrimStartOfSuffixed(s, w2);
    if TrimStart(s) == [] && TrimStart(s + w2) == [] {
    } else {
      TrimEndSkipsWhitespace(TrimStart(s), w2);
    }
  }

  /** One leading space is dropped by trimming an otherwise trimmed string. */
  lemma TrimOfSpacePrefixed(s: string)
    requires s == [] || (!IsWhitespace(s[0]) && !IsWhitespace(s[|s| - 1]))
    ensures Trim(" " + s) == s
  {
    assert AllWhitespace(" ") && AllWhitespace("");
    assert " " + s == " " + s + "";
    TrimIgnoresSurroundingWhitespace(" ", s, "");
    TrimOfTrimmed(s);
  }

  /** A string made only of whitespace trims to the empty string. */
  lemma TrimOfBlank(w: string)
    requires AllWhitespace(w)
    ensures Trim(w) == []
  {
    TrimStartSkipsWhitespace(w, []);
    assert w + [] == w;
  }

  function LowerChar(c: char): char {
    if 'A' <= c <= 'Z' then (c as int + 32) as char else c
  }

  /** String.lowercase() restricted to ASCII letters. */
  function Lower(s: string): (r: string)
    ensures |r| == |s|
    ensures forall i :: 0 <= i < |s| ==> r[i] == LowerChar(s[i])
  {
    seq(|s|, i requires 0 <= i < |s| => LowerChar(s[i]))
  }

  lemma LowerIdempotent(s: string)
    ensures Lower(Lower(s)) == Lower(s)
  {
  }

  predicate IsDigit(c: char) { '0' <= c <= '9' }

  /** The value of a string of decimal digits. */
  function DigitsValue(d: string): (v: int)
    requires forall i :: 0 <= i < |d| ==> IsDigit(d[i])
    ensures v >= 0
  {
    if d == [] then 0
    else
      assert IsDigit(d[|d| - 1]);
      10 * DigitsValue(d[..|d| - 1]) + (d[|d| - 1] as int - '0' as int)
  }

  /**
   * String.toIntOrNull() in radix 10: an optional sign, at least one digit,
   * nothing else, and a value inside the Int range.
   */
  function ParseInt(s: string): (r: Option<int>)
    ensures r.Some? ==> INT_MIN <= r.value <= INT_MAX
    ensures r.Some? ==> s != [] && !IsWhitespace(s[0]) && !IsWhitespace(s[|s| - 1])
  {
    if s == [] then None
    else
      var negative := s[0] == '-';
      var digits := if s[0] == '-' || s[0] == '+' then s[1..] else s;
      if digits == [] || exists i :: 0 <= i < |digits| && !IsDigit(digits[i]) then None
      else
        var v: int := if negative then -DigitsValue(digits) else DigitsValue(digits);
        if INT_MIN <= v <= INT_MAX then Some(v) else None
  }

  /** A number written in decimal digits, with or without a leading '+', parses to its value. */
  lemma ParsePositiveDigits(d: string)
    requires d != [] && forall i :: 0 <= i < |d| ==> IsDigit(d[i])
    requires DigitsValue(d) <= INT_MAX
    ensures ParseInt(d) == Some(DigitsValue(d))
    ensures ParseInt("+" + d) == Some(DigitsValue(d))
  {
    assert ("+" + d)[1..] == d;
  }

  /** Blank strings never parse as a number. */
  lemma ParseIntRejectsBlank(w: string)
    requires AllWhitespace(w)
    ensures ParseInt(w) == None
  {
  }
}
