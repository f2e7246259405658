/** How JavaScript's `String(n)` writes an integral number: optional minus sign,
    then decimal digits without leading zeros. */
module Decimal {

  predicate IsDigit(c: char) {
    '0' <= c <= '9'
  }

  predicate AllDigits(s: string) {
    forall i :: 0 <= i < |s| ==> IsDigit(s[i])
  }

  function DigitChar(d: nat): (c: char)
    requires d < 10
    ensures IsDigit(c) && c as int - '0' as int == d
  {
    (d + '0' as int) as char
  }

  /** The decimal digits of a natural number. */
  function NatToDecimal(n: nat): (s: string)
    ensures |s| >= 1 && AllDigits(s)
    ensures s[0] == '0' <==> n == 0
    ensures n == 0 ==> s == "0"
    decreases n
  {
    if n < 10 then [DigitChar(n)] else NatToDecimal(n / 10) + [DigitChar(n % 10)]
  }

  /** `Number.MAX_SAFE_INTEGER`, 2^53 - 1. */
  const MaxSafeInteger := 0x1F_FFFF_FFFF_FFFF

  /** The integers a JavaScript number holds exactly. Below 10^21 `String` writes them
      without an exponent, so plain digits are what it prints for all of them. */
  type SafeInteger = n: int | -MaxSafeInteger <= n <= MaxSafeInteger

  /** `String(n)` for an integral number n. */
  function IntToDecimal(n: SafeInteger): (s: string)
    ensures |s| >= 1
    ensures n >= 0 ==> s == NatToDecimal(n)
    ensures n < 0 ==> s == "-" + NatToDecimal(-n)
  {
    if n < 0 then "-" + NatToDecimal(-n) else NatToDecimal(n)
  }

  /** The number a string of decimal digits stands for (the reference reading). */
  function DecimalValue(s: string): nat
    requires AllDigits(s)
    decreases |s|
  {
    if s == [] then 0
    else DecimalValue(s[..|s| - 1]) * 10 + (s[|s| - 1] as int - '0' as int)
  }

  /** Reading back the digits gives the number: the text of a numeric id determines it. */
  lemma {:induction false} DecimalRoundTrip(n: nat)
    ensures DecimalValue(NatToDecimal(n)) == n
    decreases n
  {
    if n >= 10 {
      DecimalRoundTrip(n / 10);
      var s := NatToDecimal(n);
      assert s[..|s| - 1] == NatToDecimal(n / 10);
    }
  }

  /** Distinct naturals have distinct digit strings. */
  lemma NaturalsPrintDistinctly(a: nat, b: nat)
    requires a != b
    ensures NatToDecimal(a) != NatToDecimal(b)
  {
    DecimalRoundTrip(a);
    DecimalRoundTrip(b);
  }

  /** Distinct integral ids print as distinct strings. */
  lemma DistinctIntegersPrintDistinctly(a: SafeInteger, b: SafeInteger)
    requires a != b
    ensures IntToDecimal(a) != IntToDecimal(b)
  {
    var sa, sb := IntToDecimal(a), IntToDecimal(b);
    if a >= 0 && b >= 0 {
      NaturalsPrintDistinctly(a, b);
    } else if a < 0 && b < 0 {
      NaturalsPrintDistinctly(-a, -b);
      assert sa[1..] == NatToDecimal(-a);
      assert sb[1..] == NatToDecimal(-b);
    } else if a < 0 {
      assert sa[0] == '-' && IsDigit(sb[0]);
    } else {
      assert sb[0] == '-' && IsDigit(sa[0]);
    }
  }

}
