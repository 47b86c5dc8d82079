/**
 * Decimal numerals over ASCII digits: reading a referral payload as a number
 * (int() on the /start argument) and writing a user id into text (the
 * referral link ?start=<id> and the fallback name user_<id>).
 */
module Decimal {
  import opened Wrappers

  predicate IsAsciiDigit(c: char) {
    '0' <= c <= '9'
  }

  predicate AllAsciiDigits(s: string) {
    forall i | 0 <= i < |s| :: IsAsciiDigit(s[i])
  }

  /** A non-empty string of ASCII digits, leading zeros allowed. */
  predicate IsNumeral(s: string) {
    |s| > 0 && AllAsciiDigits(s)
  }

  /** No leading zero, except for the numeral "0" itself. */
  predicate IsCanonical(s: string) {
    IsNumeral(s) && (|s| == 1 || s[0] != '0')
  }

  function DigitValue(c: char): (d: nat)
    requires IsAsciiDigit(c)
    ensures d < 10
  {
    c as int - '0' as int
  }

  function DigitChar(d: nat): (c: char)
    requires d < 10
    ensures IsAsciiDigit(c) && DigitValue(c) == d
  {
    ('0' as int + d) as char
  }

  /** The value of a digit string, most significant digit first. */
  function ValueOf(s: string): nat
    requires AllAsciiDigits(s)
    decreases |s|
  {
    if |s| == 0 then 0 else ValueOf(s[..|s| - 1]) * 10 + DigitValue(s[|s| - 1])
  }

  /** int(s) for a string of ASCII digits; None for anything else. */
  function Parse(s: string): (r: Option<nat>)
    ensures r.Some? <==> IsNumeral(s)
  {
    if IsNumeral(s) then Some(ValueOf(s)) else None
  }

  /** str(n) for a natural number. */
  function Show(n: nat): (s: string)
    ensures IsCanonical(s)
  {
    if n < 10 then [DigitChar(n)] else Show(n / 10) + [DigitChar(n % 10)]
  }

  /** Reading back a written number gives the number. */
  lemma {:induction false} ParseShow(n: nat)
    ensures Parse(Show(n)) == Some(n)
  {
    var s := Show(n);
    if n >= 10 {
      ParseShow(n / 10);
      assert s[..|s| - 1] == Show(n / 10);
      assert ValueOf(s) == ValueOf(Show(n / 10)) * 10 + n % 10;
    }
  }

  lemma {:induction false} LeadingDigitPositive(s: string)
    requires IsNumeral(s) && s[0] != '0'
    ensures ValueOf(s) >= 1
  {
    if |s| > 1 {
      var p := s[..|s| - 1];
      assert p[0] == s[0];
      LeadingDigitPositive(p);
    }
  }

  /** Appending a digit to a positive number's numeral appends its character. */
  lemma ShowAppend(q: nat, d: nat)
    requires q >= 1 && d < 10
    ensures Show(q * 10 + d) == Show(q) + [DigitChar(d)]
  {
  }

  /** Writing back a canonical numeral that was read gives the same text. */
  lemma {:induction false} ShowParse(s: string)
    requires IsCanonical(s)
    ensures Show(ValueOf(s)) == s
  {
    if |s| > 1 {
      var p, last := s[..|s| - 1], s[|s| - 1];
      assert s == p + [last];
      assert p[0] == s[0];
      assert IsCanonical(p);
      LeadingDigitPositive(p);
      ShowParse(p);
      assert DigitChar(DigitValue(last)) == last;
      var q, d := ValueOf(p), DigitValue(last);
      assert ValueOf(s) == q * 10 + d;
      ShowAppend(q, d);
    }
  }
}
