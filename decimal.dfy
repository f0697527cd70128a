/**
 * Decimal rendering of integers, as Rust's `Display` for integers and the
 * zero-padded numeric fields of chrono's date formatting produce it, with a
 * reader that turns the digits back into the number.
 */
module Decimal {

  predicate IsDigit(c: char) {
    '0' <= c <= '9'
  }

  predicate AllDigits(s: string) {
    forall i :: 0 <= i < |s| ==> IsDigit(s[i])
  }

  function DigitChar(d: nat): (c: char)
    requires d < 10
    ensures IsDigit(c)
  {
    ('0' as int + d) as char
  }

  function DigitValue(c: char): (d: nat)
    requires IsDigit(c)
    ensures d < 10
  {
    c as int - '0' as int
  }

  function Pow10(w: nat): (p: nat)
    ensures p >= 1
  {
    if w == 0 then 1 else 10 * Pow10(w - 1)
  }

  /** The shortest decimal numeral of `n`, most significant digit first. */
  function NatToDecimal(n: nat): (s: string)
    ensures |s| >= 1 && AllDigits(s)
    ensures s[0] == '0' <==> n == 0
    decreases n
  {
    if n < 10 then [DigitChar(n)] else NatToDecimal(n / 10) + [DigitChar(n % 10)]
  }

  /** The number a string of digits denotes (leading zeros allowed). */
  function ValueOf(s: string): nat
    requires AllDigits(s)
  {
    if |s| == 0 then 0 else 10 * ValueOf(s[..|s| - 1]) + DigitValue(s[|s| - 1])
  }

  /** Reading back a numeral gives the number it was made from. */
  lemma {:induction false} NatToDecimalRoundTrip(n: nat)
    ensures ValueOf(NatToDecimal(n)) == n
    decreases n
  {
    var s := NatToDecimal(n);
    if n >= 10 {
      NatToDecimalRoundTrip(n / 10);
      assert s[..|s| - 1] == NatToDecimal(n / 10);
    }
  }

  /** A number below 10^w has at most w digits. */
  lemma {:induction false} NatToDecimalLength(n: nat, w: nat)
    requires 1 <= w && n < Pow10(w)
    ensures |NatToDecimal(n)| <= w
    decreases w
  {
    if n >= 10 {
      NatToDecimalLength(n / 10, w - 1);
    }
  }

  function Zeros(k: nat): (s: string)
    ensures |s| == k && AllDigits(s)
  {
    if k == 0 then [] else Zeros(k - 1) + ['0']
  }

  /** Leading zeros do not change the value of a numeral. */
  lemma {:induction false} LeadingZeros(k: nat, s: string)
    requires AllDigits(s)
    ensures ValueOf(Zeros(k) + s) == ValueOf(s)
    decreases |s|, k
  {
    var t := Zeros(k) + s;
    if |s| == 0 {
      assert t == Zeros(k);
      if k > 0 {
        assert t[..|t| - 1] == Zeros(k - 1) + [];
        LeadingZeros(k - 1, []);
      }
    } else {
      assert t[..|t| - 1] == Zeros(k) + s[..|s| - 1];
      LeadingZeros(k, s[..|s| - 1]);
    }
  }

  /**
   * `n` zero-padded on the left to at least `width` digits (the `%m`, `%d`
   * and `%Y` fields of chrono's formatter).
   */
  function ZeroPad(n: nat, width: nat): (s: string)
    ensures AllDigits(s) && |s| >= width && ValueOf(s) == n
    ensures 1 <= width && n < Pow10(width) ==> |s| == width
  {
    var d := NatToDecimal(n);
    NatToDecimalRoundTrip(n);
    PaddedLength(n, width);
    if |d| >= width then d
    else
      LeadingZeros(width - |d|, d);
      Zeros(width - |d|) + d
  }

  lemma PaddedLength(n: nat, width: nat)
    ensures 1 <= width && n < Pow10(width) ==> |NatToDecimal(n)| <= width
  {
    if 1 <= width && n < Pow10(width) {
      NatToDecimalLength(n, width);
    }
  }

  /**
   * Rust's `Display` for a signed integer: a minus sign exactly for negative
   * numbers, then the digits, with no leading zero.
   */
  function IntToDecimal(n: int): (s: string)
    ensures |s| >= 1 && '&' !in s
    ensures n < 0 <==> s[0] == '-'
    ensures var d := s[if n < 0 then 1 else 0..];
      |d| >= 1 && AllDigits(d) && (|d| > 1 ==> d[0] != '0')
    ensures ParseInt(s) == n
  {
    var digits := NatToDecimal(if n < 0 then -n else n);
    NatToDecimalRoundTrip(if n < 0 then -n else n);
    if n < 0 then "-" + digits else digits
  }

  /** Reads an optionally signed decimal numeral; anything else reads as 0. */
  function ParseInt(s: string): int {
    if |s| > 0 && s[0] == '-' && AllDigits(s[1..]) then -(ValueOf(s[1..]) as int)
    else if AllDigits(s) then ValueOf(s)
    else 0
  }
}
