/**
 * Decimal numerals: the representation of row indices in program ids, and
 * the number grammar that JavaScript's `parseFloat` and PHP's `floatval`
 * accept at the start of a string.
 */
module Numbers {
  import opened Wrappers
  import opened Text

  function DigitChar(d: nat): char
    requires d < 10
  {
    ('0' as int + d) as char
  }

  function DigitValue(c: char): nat
    requires IsDigit(c)
  {
    c as int - '0' as int
  }

  predicate AllDigits(s: string) {
    forall i :: 0 <= i < |s| ==> IsDigit(s[i])
  }

  /** Value of a string of decimal digits, most significant digit first. */
  function DigitsValue(s: string): nat
    requires AllDigits(s)
  {
    if s == [] then 0 else DigitsValue(s[..|s| - 1]) * 10 + DigitValue(s[|s| - 1])
  }

  /** Decimal representation of a natural number, as `${row}` and `'program_' . $row` print it. */
  function NatToString(n: nat): (s: string)
    ensures |s| > 0 && AllDigits(s)
  {
    if n < 10 then [DigitChar(n)] else NatToString(n / 10) + [DigitChar(n % 10)]
  }

  /** Reading the digits back gives the number: the representation loses nothing. */
  lemma {:induction false} NatToStringRoundTrip(n: nat)
    ensures DigitsValue(NatToString(n)) == n
  {
    if n >= 10 {
      var s := NatToString(n);
      assert s[..|s| - 1] == NatToString(n / 10);
      NatToStringRoundTrip(n / 10);
    }
  }

  /** Distinct numbers print differently. */
  lemma NatToStringInjective(a: nat, b: nat)
    requires NatToString(a) == NatToString(b)
    ensures a == b
  {
    NatToStringRoundTrip(a);
    NatToStringRoundTrip(b);
  }

  function Pow10(k: nat): (r: nat)
    ensures r >= 1
  {
    if k == 0 then 1 else 10 * Pow10(k - 1)
  }

  /** `s` without one leading sign character. */
  function UnsignedPart(s: string): string {
    if |s| > 0 && (s[0] == '-' || s[0] == '+') then s[1..] else s
  }

  /** After an optional sign, `s` starts with a digit or with a point followed by a digit. */
  predicate StartsNumeric(s: string) {
    var t := UnsignedPart(s);
    (|t| > 0 && IsDigit(t[0])) || (|t| > 1 && t[0] == '.' && IsDigit(t[1]))
  }

  /** The exponent part `e`, optional sign, digits at the start of `s`; 0 when there is none. */
  function ExponentPrefix(s: string): int {
    if |s| < 2 || !(s[0] == 'e' || s[0] == 'E') then 0
    else
      var t := if s[1] == '-' || s[1] == '+' then s[2..] else s[1..];
      var k := CountPrefix(t, IsDigit);
      if k == 0 then 0
      else if s[1] == '-' then 0 - DigitsValue(t[..k]) as int
      else DigitsValue(t[..k])
  }

  /**
   * The longest prefix of `s` that is a decimal literal (sign, digits, point,
   * digits, exponent), read as a number; None (NaN) when there is none.
   */
  function ParseDecimalPrefix(s: string): (r: Option<real>)
    ensures r.Some? <==> StartsNumeric(s)
  {
    var t := UnsignedPart(s);
    var k := CountPrefix(t, IsDigit);
    var rest := t[k..];
    var point := |rest| > 0 && rest[0] == '.';
    var m := if point then CountPrefix(rest[1..], IsDigit) else 0;
    if k + m == 0 then None
    else
      var frac := if point then rest[1..1 + m] else [];
      var afterFrac := if point then rest[1 + m..] else rest;
      var magnitude := LiteralValue(t[..k], frac, ExponentPrefix(afterFrac));
      Some(if |s| > 0 && s[0] == '-' then -magnitude else magnitude)
  }

  /** The value of `digits.fraction` times ten to the power `e`. */
  function LiteralValue(digits: string, fraction: string, e: int): real
    requires AllDigits(digits) && AllDigits(fraction)
  {
    var mantissa := DigitsValue(digits) as real + DigitsValue(fraction) as real / Pow10(|fraction|) as real;
    if e >= 0 then mantissa * Pow10(e) as real else mantissa / Pow10(-e) as real
  }

  /** JavaScript's `parseFloat`: leading white space is skipped, NaN is None. */
  function JsParseFloat(s: string): Option<real> {
    ParseDecimalPrefix(TrimStart(s, IsJsWhitespace))
  }

  /** PHP's `floatval` on a string: leading white space is skipped, no number reads as 0. */
  function PhpFloatval(s: string): real {
    ParseDecimalPrefix(TrimStart(s, IsPcreSpace)).GetOr(0.0)
  }

  lemma CountPrefixAll(s: string, p: char -> bool)
    requires forall i :: 0 <= i < |s| ==> p(s[i])
    ensures CountPrefix(s, p) == |s|
  {
  }

  /** A plain digit string reads back as the number it prints. */
  lemma ParseNatString(n: nat)
    ensures ParseDecimalPrefix(NatToString(n)) == Some(n as real)
  {
    var s := NatToString(n);
    assert UnsignedPart(s) == s;
    CountPrefixAll(s, IsDigit);
    assert s[..|s|] == s;
    NatToStringRoundTrip(n);
  }

  /** Digits followed by a character that is not a digit: the count stops at the end of the digits. */
  lemma {:induction false} CountPrefixOfDigits(d: string, rest: string)
    requires AllDigits(d)
    requires rest != [] ==> !IsDigit(rest[0])
    ensures CountPrefix(d + rest, IsDigit) == |d|
  {
    if d != [] {
      assert (d + rest)[1..] == d[1..] + rest;
      CountPrefixOfDigits(d[1..], rest);
    } else {
      assert d + rest == rest;
    }
  }

  /**
   * A literal with a fraction and no exponent: the digits after the point
   * are tenths, hundredths and so on.
   */
  lemma ParseDecimalWithFraction(d: string, f: string, s: string)
    requires |d| > 0 && AllDigits(d) && AllDigits(f)
    requires s == d + "." + f
    ensures ParseDecimalPrefix(s) == Some(LiteralValue(d, f, 0))
  {
    var rest := "." + f;
    assert s == d + rest;
    assert UnsignedPart(s) == s by {
      assert s[0] == d[0];
    }
    assert CountPrefix(s, IsDigit) == |d| by {
      CountPrefixOfDigits(d, rest);
    }
    assert s[..|d|] == d && s[|d|..] == rest;
    assert CountPrefix(rest[1..], IsDigit) == |f| by {
      assert rest[1..] == f;
      CountPrefixAll(f, IsDigit);
    }
    assert rest[1..1 + |f|] == f && rest[1 + |f|..] == [];
  }

  /** A minus sign before a digit string gives the negated number. */
  lemma ParseNegativeNatString(n: nat)
    ensures ParseDecimalPrefix("-" + NatToString(n)) == Some(-(n as real))
  {
    var d := NatToString(n);
    var s := "-" + d;
    assert UnsignedPart(s) == d;
    CountPrefixAll(d, IsDigit);
    assert d[..|d|] == d;
    NatToStringRoundTrip(n);
  }
}
