/** Decimal text of natural numbers, as Python's str() writes a non-negative int:
    the digits from most to least significant, no sign, no leading zero. */
module Decimal {

  predicate IsDigit(c: char) {
    '0' <= c <= '9'
  }

  predicate AllDigits(s: string) {
    forall i :: 0 <= i < |s| ==> IsDigit(s[i])
  }

  function DigitChar(d: nat): (c: char)
    requires d < 10
    ensures IsDigit(c)
  {
    ('0' as int + d) as char
  }

  function DigitValue(c: char): (d: nat)
    requires IsDigit(c)
    ensures d < 10
  {
    c as int - '0' as int
  }

  /** str(n) for a non-negative int n. */
  function DecimalString(n: nat): string
    decreases n
  {
    if n < 10 then [DigitChar(n)] else DecimalString(n / 10) + [DigitChar(n % 10)]
  }

  /** int(s) for a string of decimal digits (the empty string reads as 0). */
  function DecimalValue(s: string): nat
    requires AllDigits(s)
  {
    if s == [] then 0 else DecimalValue(s[..|s| - 1]) * 10 + DigitValue(s[|s| - 1])
  }

  /** The number of decimal digits of n. */
  function NumDigits(n: nat): nat {
    if n < 10 then 1 else 1 + NumDigits(n / 10)
  }

  /** A string is the decimal text of a number between lo and hi. */
  predicate IsDecimalIn(s: string, lo: nat, hi: nat) {
    AllDigits(s) && DecimalString(DecimalValue(s)) == s && lo <= DecimalValue(s) <= hi
  }

  /** str(n) is made of NumDigits(n) digits and has no leading zero. */
  lemma {:induction false} DecimalStringShape(n: nat)
    ensures AllDigits(DecimalString(n))
    ensures |DecimalString(n)| == NumDigits(n)
    ensures n >= 10 ==> DecimalString(n)[0] != '0'
  {
    if n >= 10 {
      DecimalStringShape(n / 10);
      assert DecimalString(n)[0] == DecimalString(n / 10)[0];
    }
  }

  /** Reading back str(n) gives n. */
  lemma {:induction false} DecimalRoundTrip(n: nat)
    ensures AllDigits(DecimalString(n))
    ensures DecimalValue(DecimalString(n)) == n
  {
    DecimalStringShape(n);
    if n >= 10 {
      var s := DecimalString(n);
      assert s[..|s| - 1] == DecimalString(n / 10);
      DecimalRoundTrip(n / 10);
    }
  }

  /** Two numbers with the same decimal text are equal. */
  lemma DecimalStringInjective(m: nat, n: nat)
    ensures DecimalString(m) == DecimalString(n) <==> m == n
  {
    DecimalRoundTrip(m);
    DecimalRoundTrip(n);
  }

  /** str(n) for n between lo and hi is a decimal text in that range. */
  lemma DecimalStringIn(n: nat, lo: nat, hi: nat)
    requires lo <= n <= hi
    ensures IsDecimalIn(DecimalString(n), lo, hi)
  {
    DecimalRoundTrip(n);
  }

  /** A decimal text in 10000..99999 has five digits, and one in 1000..9999 four. */
  lemma DecimalWidth(s: string)
    ensures IsDecimalIn(s, 10000, 99999) ==> |s| == 5
    ensures IsDecimalIn(s, 1000, 9999) ==> |s| == 4
  {
    if AllDigits(s) {
      var n := DecimalValue(s);
      DecimalStringShape(n);
      if 1000 <= n <= 99999 {
        assert NumDigits(n / 1000) == 1 + (if n >= 10000 then 1 else 0);
        assert n / 10 / 10 / 10 == n / 1000;
        assert NumDigits(n) == 1 + NumDigits(n / 10);
        assert NumDigits(n / 10) == 1 + NumDigits(n / 10 / 10);
        assert NumDigits(n / 10 / 10) == 1 + NumDigits(n / 10 / 10 / 10);
      }
    }
  }
}
