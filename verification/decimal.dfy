/**
 * Decimal rendering of counters as .NET's "D4" format specifier does it for a
 * non-negative integer: the decimal digits, left-padded with zeros to at least
 * four characters. A reader of such digit strings is the partner that shows
 * the padding loses nothing.
 */
module Decimal {

  predicate IsDigit(c: char) {
    '0' <= c <= '9'
  }

  predicate AllDigits(s: string) {
    forall i :: 0 <= i < |s| ==> IsDigit(s[i])
  }

  function DigitChar(d: nat): (c: char)
    requires d < 10
    ensures IsDigit(c)
  {
    "0123456789"[d]
  }

  function DigitValue(c: char): nat
    requires IsDigit(c)
  {
    (c as int - '0' as int) as nat
  }

  lemma DigitCharValue(d: nat)
    requires d < 10
    ensures DigitValue(DigitChar(d)) == d
  {
  }

  /** Decimal digits of n, most significant first, no leading zeros ("0" for zero). */
  function Digits(n: nat): (s: string)
    ensures |s| >= 1 && AllDigits(s)
    decreases n
  {
    if n < 10 then [DigitChar(n)] else Digits(n / 10) + [DigitChar(n % 10)]
  }

  /** The value of a digit string (the empty string reads as zero). */
  function ParseDigits(s: string): nat
    requires AllDigits(s)
    decreases |s|
  {
    if s == [] then 0 else ParseDigits(s[..|s| - 1]) * 10 + DigitValue(s[|s| - 1])
  }

  function Zeros(k: nat): (s: string)
    ensures |s| == k && AllDigits(s)
    ensures forall i :: 0 <= i < k ==> s[i] == '0'
  {
    seq(k, _ => '0')
  }

  /** `{n:D4}`: at least four digits, zero-padded on the left. */
  function D4(n: nat): (s: string)
    ensures AllDigits(s)
    ensures |s| == if |Digits(n)| < 4 then 4 else |Digits(n)|
  {
    var d := Digits(n);
    if |d| < 4 then Zeros(4 - |d|) + d else d
  }

  lemma {:induction false} ParseDigitsOfDigits(n: nat)
    ensures ParseDigits(Digits(n)) == n
    decreases n
  {
    if n < 10 {
      DigitCharValue(n);
      assert Digits(n)[..0] == [];
    } else {
      var d := Digits(n);
      ParseDigitsOfDigits(n / 10);
      DigitCharValue(n % 10);
      assert d[..|d| - 1] == Digits(n / 10);
      assert d[|d| - 1] == DigitChar(n % 10);
    }
  }

  /** Leading zeros do not change the value. */
  lemma {:induction false} ParseDigitsLeadingZeros(k: nat, s: string)
    requires AllDigits(s)
    ensures ParseDigits(Zeros(k) + s) == ParseDigits(s)
    decreases |s|
  {
    if s == [] {
      assert Zeros(k) + s == Zeros(k);
      ParseDigitsZeros(k);
    } else {
      var t := Zeros(k) + s;
      ParseDigitsLeadingZeros(k, s[..|s| - 1]);
      assert t[..|t| - 1] == Zeros(k) + s[..|s| - 1];
      assert t[|t| - 1] == s[|s| - 1];
    }
  }

  lemma {:induction false} ParseDigitsZeros(k: nat)
    ensures ParseDigits(Zeros(k)) == 0
    decreases k
  {
    if k > 0 {
      ParseDigitsZeros(k - 1);
      assert Zeros(k)[..k - 1] == Zeros(k - 1);
    }
  }

  /** Reading a D4-rendered counter gives the counter back. */
  lemma D4RoundTrip(n: nat)
    ensures ParseDigits(D4(n)) == n
  {
    var d := Digits(n);
    ParseDigitsOfDigits(n);
    if |d| < 4 {
      ParseDigitsLeadingZeros(4 - |d|, d);
    }
  }

  /** Distinct counters render differently. */
  lemma D4Injective(m: nat, n: nat)
    requires D4(m) == D4(n)
    ensures m == n
  {
    D4RoundTrip(m);
    D4RoundTrip(n);
  }
}
