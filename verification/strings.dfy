/**
 * The JavaScript string operations the application relies on, written out:
 * the relational operators on strings (lexicographic order), `String.prototype.trim`,
 * and the decimal text `String(n)` gives for an integer.
 */
module Strings {
  import opened Wrappers

  // ---------------------------------------------------------------------------
  // Lexicographic order (`a <= b` on two JavaScript strings)
  // ---------------------------------------------------------------------------

  /** `a <= b` in JavaScript: the first differing character decides; a proper prefix sorts first. */
  predicate LexLe(a: string, b: string)
    decreases |a|
  {
    a == [] || (b != [] && (a[0] < b[0] || (a[0] == b[0] && LexLe(a[1..], b[1..]))))
  }

  lemma {:induction false} LexLeReflexive(a: string)
    ensures LexLe(a, a)
    decreases |a|
  {
    if a != [] {
      LexLeReflexive(a[1..]);
    }
  }

  lemma {:induction false} LexLeTransitive(a: string, b: string, c: string)
    requires LexLe(a, b) && LexLe(b, c)
    ensures LexLe(a, c)
    decreases |a|
  {
    if a != [] && a[0] == b[0] && b[0] == c[0] {
      LexLeTransitive(a[1..], b[1..], c[1..]);
    }
  }

  lemma {:induction false} LexLeTotal(a: string, b: string)
    ensures LexLe(a, b) || LexLe(b, a)
    decreases |a|
  {
    if a != [] && b != [] && a[0] == b[0] {
      LexLeTotal(a[1..], b[1..]);
    }
  }

  lemma {:induction false} LexLeAntisymmetric(a: string, b: string)
    requires LexLe(a, b) && LexLe(b, a)
    ensures a == b
    decreases |a|
  {
    if a != [] {
      LexLeAntisymmetric(a[1..], b[1..]);
    }
  }

  // ---------------------------------------------------------------------------
  // `String.prototype.trim`
  // ---------------------------------------------------------------------------

  /** The characters ECMAScript's `trim` removes: WhiteSpace and LineTerminator. */
  predicate IsJsWhitespace(c: char) {
    var n := c as int;
    n == 0x09 || n == 0x0A || n == 0x0B || n == 0x0C || n == 0x0D || n == 0x20 || n == 0xA0
    || n == 0x1680 || (0x2000 <= n <= 0x200A) || n == 0x2028 || n == 0x2029
    || n == 0x202F || n == 0x205F || n == 0x3000 || n == 0xFEFF
  }

  /** Every character of `s` is whitespace (the empty string included). */
  predicate IsBlank(s: string) {
    forall i :: 0 <= i < |s| ==> IsJsWhitespace(s[i])
  }

  /** Drops the leading whitespace: the result is the suffix that starts at the first other character. */
  function TrimStart(s: string): (r: string)
    ensures |r| <= |s| && r == s[|s| - |r|..]
    ensures IsBlank(s[..|s| - |r|])
    ensures r == [] || !IsJsWhitespace(r[0])
  {
    if s != [] && IsJsWhitespace(s[0]) then
      var r := TrimStart(s[1..]);
      BlankCons(s[0], s[1..][..|s| - 1 - |r|]);
      assert [s[0]] + s[1..][..|s| - 1 - |r|] == s[..|s| - |r|];
      r
    else
      s
  }

  /** A whitespace character in front of blank text leaves it blank. */
  lemma BlankCons(c: char, t: string)
    requires IsJsWhitespace(c) && IsBlank(t)
    ensures IsBlank([c] + t)
  {
    forall i | 0 <= i < |[c] + t| ensures IsJsWhitespace(([c] + t)[i]) {
      if i > 0 {
        assert ([c] + t)[i] == t[i - 1];
      }
    }
  }

  /** Drops the trailing whitespace: the result is the prefix that ends at the last other character. */
  function TrimEnd(s: string): (r: string)
    ensures |r| <= |s| && r == s[..|r|]
    ensures IsBlank(s[|r|..])
    ensures r == [] || !IsJsWhitespace(r[|r| - 1])
  {
    if s != [] && IsJsWhitespace(s[|s| - 1]) then TrimEnd(s[..|s| - 1]) else s
  }

  /**
   * `r` is the stretch of `s` that starts at index `k`, and everything in `s` before and after
   * it is whitespace.
   */
  predicate BlankAround(s: string, k: int, r: string) {
    0 <= k <= |s| - |r| && s[k..k + |r|] == r && IsBlank(s[..k]) && IsBlank(s[k + |r|..])
  }

  /**
   * Both ends stripped: the result is the stretch of `s` left once the whitespace before and
   * after it is dropped, and it neither starts nor ends with whitespace.
   */
  function Trim(s: string): (r: string)
    ensures |r| <= |s|
    ensures exists k :: BlankAround(s, k, r)
    ensures r == [] || (!IsJsWhitespace(r[0]) && !IsJsWhitespace(r[|r| - 1]))
  {
    var t := TrimStart(s);
    var r := TrimEnd(t);
    assert r == [] || r[0] == t[0];
    TrimWindow(s, t, r);
    r
  }

  /** A prefix `r` of a suffix `t` of `s`, with blank text cut off on both sides, lies blank-around in `s`. */
  lemma TrimWindow(s: string, t: string, r: string)
    requires |t| <= |s| && t == s[|s| - |t|..] && IsBlank(s[..|s| - |t|])
    requires |r| <= |t| && r == t[..|r|] && IsBlank(t[|r|..])
    ensures BlankAround(s, |s| - |t|, r)
  {
    var k := |s| - |t|;
    assert s[k..k + |r|] == r;
    assert s[k + |r|..] == t[|r|..];
  }

  /** `!s.trim()` holds exactly when every character of `s` is whitespace. */
  lemma TrimEmptyIffBlank(s: string)
    ensures Trim(s) == [] <==> IsBlank(s)
  {
    var t := TrimStart(s);
    if t == [] {
      assert s[..|s|] == s;
    } else {
      assert s[|s| - |t|] == t[0];
    }
  }

  // ---------------------------------------------------------------------------
  // Decimal text of an integer (`String(n)`, and `[..].join(',')` on numbers)
  // ---------------------------------------------------------------------------

  predicate IsDigit(c: char) {
    '0' <= c <= '9'
  }

  predicate AllDigits(s: string) {
    forall i :: 0 <= i < |s| ==> IsDigit(s[i])
  }

  function DigitChar(d: int): (c: char)
    requires 0 <= d < 10
    ensures IsDigit(c) && c as int - '0' as int == d
  {
    ('0' as int + d) as char
  }

  /** The decimal digits of `n`, most significant first, without leading zeros. */
  function NatToText(n: nat): (r: string)
    ensures |r| > 0 && AllDigits(r)
    ensures |r| > 1 ==> r[0] != '0'
    decreases n
  {
    if n < 10 then [DigitChar(n)] else NatToText(n / 10) + [DigitChar(n % 10)]
  }

  /** `String(n)` for an integer `n`: a minus sign for negatives, then the digits. */
  function IntToText(n: int): (r: string)
    ensures |r| > 0
    ensures forall i :: 0 <= i < |r| ==> IsDigit(r[i]) || r[i] == '-'
  {
    if n < 0 then "-" + NatToText(-n) else NatToText(n)
  }

  /** The value of a string of decimal digits. */
  function DigitsValue(s: string): nat
    requires AllDigits(s)
  {
    if s == [] then 0 else DigitsValue(s[..|s| - 1]) * 10 + (s[|s| - 1] as int - '0' as int)
  }

  /** Reads an optionally signed decimal integer; anything else is not a number. */
  function ParseDecimal(s: string): Option<int> {
    if |s| > 1 && s[0] == '-' && AllDigits(s[1..]) then Some(-(DigitsValue(s[1..]) as int))
    else if |s| > 0 && AllDigits(s) then Some(DigitsValue(s))
    else None
  }

  lemma {:induction false} NatTextValue(n: nat)
    ensures DigitsValue(NatToText(n)) == n
    decreases n
  {
    if n >= 10 {
      var r := NatToText(n);
      NatTextValue(n / 10);
      assert r[..|r| - 1] == NatToText(n / 10);
    }
  }

  /** The decimal text of an integer reads back as that integer. */
  lemma IntTextRoundTrip(n: int)
    ensures ParseDecimal(IntToText(n)) == Some(n)
  {
    if n < 0 {
      NatTextValue(-n);
      assert IntToText(n)[1..] == NatToText(-n);
    } else {
      NatTextValue(n);
    }
  }
}
