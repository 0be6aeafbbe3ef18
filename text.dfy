/** Decimal rendering of unsigned numbers, as `std::to_string` and `operator<<`
    print them, and the zero-padded three-digit field `std::setw(3)` with
    `std::setfill('0')` produces; each with the parser that reads it back. */
module Text {

  predicate IsDigit(c: char) {
    '0' <= c <= '9'
  }

  predicate IsDigits(s: string) {
    forall i :: 0 <= i < |s| ==> IsDigit(s[i])
  }

  function Digit(d: nat): (c: char)
    requires d < 10
    ensures IsDigit(c) && c as int - '0' as int == d
  {
    ('0' as int + d) as char
  }

  function DigitValue(c: char): (d: nat)
    requires IsDigit(c)
    ensures d < 10 && Digit(d) == c
  {
    c as int - '0' as int
  }

  /** The value of a string of decimal digits, most significant first. */
  function DecimalValue(s: string): nat
    requires IsDigits(s)
  {
    if s == [] then 0 else DecimalValue(s[..|s| - 1]) * 10 + DigitValue(s[|s| - 1])
  }

  /** The shortest decimal form of n. */
  function DecimalString(n: nat): string
    decreases n
  {
    if n < 10 then [Digit(n)] else DecimalString(n / 10) + [Digit(n % 10)]
  }

  /** The decimal form is digits only, never empty, starts with '0' only
      when it is "0", and reads back as n. */
  lemma {:induction false} DecimalRoundTrip(n: nat)
    ensures |DecimalString(n)| >= 1 && IsDigits(DecimalString(n))
    ensures DecimalString(n)[0] == '0' ==> n == 0
    ensures DecimalValue(DecimalString(n)) == n
    decreases n
  {
    var s := DecimalString(n);
    if n >= 10 {
      DecimalRoundTrip(n / 10);
      assert s[..|s| - 1] == DecimalString(n / 10);
    }
  }

  /** Distinct numbers print differently. */
  lemma DecimalStringInjective(m: nat, n: nat)
    requires DecimalString(m) == DecimalString(n)
    ensures m == n
  {
    DecimalRoundTrip(m);
    DecimalRoundTrip(n);
  }

  /** The three-digit, zero-filled field of a number below 1000. */
  function ZeroPad3(n: nat): string
    requires n < 1000
  {
    [Digit(n / 100), Digit(n / 10 % 10), Digit(n % 10)]
  }

  /** The field is three digits that read back as the number. */
  lemma ZeroPad3Digits(n: nat)
    requires n < 1000
    ensures |ZeroPad3(n)| == 3 && IsDigits(ZeroPad3(n)) && DecimalValue(ZeroPad3(n)) == n
  {
    var s := ZeroPad3(n);
    assert DecimalValue(s[..1]) == n / 100 by {
      assert s[..1][..0] == [];
    }
    assert DecimalValue(s[..2]) == n / 10 by {
      assert s[..2][..1] == s[..1];
    }
    assert s[..3] == s;
  }
}
