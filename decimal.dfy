/**
 * Decimal rendering of integers: Go's `fmt.Sprintf("%d", n)` (used to put
 * integers into string command bodies) and `fmt.Sprint` of a float64 that
 * holds an integer (used when a reply element is stringified), with a parser
 * that reads `%d` text back.
 */
module Decimal {

  import opened Wrappers

  predicate IsDigit(c: char)
  {
    '0' <= c <= '9'
  }

  function DigitChar(d: nat): (c: char)
    requires d < 10
    ensures IsDigit(c) && c as int - '0' as int == d
  {
    ('0' as int + d) as char
  }

  /** The digits of `n`, most significant first, without leading zeros. */
  function NatString(n: nat): (s: string)
    ensures |s| >= 1
    ensures forall i :: 0 <= i < |s| ==> IsDigit(s[i])
    ensures |s| > 1 ==> s[0] != '0'
    ensures n < 10 <==> |s| == 1
  {
    if n < 10 then [DigitChar(n)] else NatString(n / 10) + [DigitChar(n % 10)]
  }

  /** `fmt.Sprintf("%d", n)`: a minus sign for negative numbers, then the digits. */
  function DecimalString(n: int): string
  {
    if n < 0 then "-" + NatString(-n) else NatString(n)
  }

  predicate AllDigits(s: string)
  {
    forall i :: 0 <= i < |s| ==> IsDigit(s[i])
  }

  /** The value of a run of decimal digits. */
  function DigitsValue(s: string): nat
    requires AllDigits(s)
  {
    if |s| == 0 then 0
    else DigitsValue(s[..|s| - 1]) * 10 + (s[|s| - 1] as int - '0' as int)
  }

  /**
   * Reads an optionally signed run of digits, the way the server reads an
   * integer argument; anything else is not a number.
   */
  function ParseDecimal(s: string): Option<int>
  {
    if |s| > 0 && s[0] == '-' then
      if |s| > 1 && AllDigits(s[1..]) then Some(-(DigitsValue(s[1..]) as int)) else None
    else if |s| > 0 && AllDigits(s) then Some(DigitsValue(s))
    else None
  }

  lemma {:induction false} DigitsValueNatString(n: nat)
    ensures DigitsValue(NatString(n)) == n
  {
    if n >= 10 {
      var s := NatString(n);
      assert s[..|s| - 1] == NatString(n / 10);
      DigitsValueNatString(n / 10);
    }
  }

  /** `%d` text always reads back as the number it was made from. */
  lemma ParseDecimalString(n: int)
    ensures ParseDecimal(DecimalString(n)) == Some(n)
  {
    var s := DecimalString(n);
    if n < 0 {
      assert s[1..] == NatString(-n);
      DigitsValueNatString(-n);
    } else {
      assert s == NatString(n) && IsDigit(s[0]);
      DigitsValueNatString(n);
    }
  }

  /** Distinct integers never share a rendering. */
  lemma DecimalStringInjective(a: int, b: int)
    requires DecimalString(a) == DecimalString(b)
    ensures a == b
  {
    ParseDecimalString(a);
    ParseDecimalString(b);
  }

  /** `s` with its trailing zero digits removed (at least one character is kept). */
  function TrimZeros(s: string): (r: string)
    requires |s| >= 1
    ensures 1 <= |r| <= |s| && r == s[..|r|]
    ensures |r| > 1 ==> r[|r| - 1] != '0'
  {
    if |s| > 1 && s[|s| - 1] == '0' then TrimZeros(s[..|s| - 1]) else s
  }

  /**
   * `fmt.Sprint(float64(n))`: Go's `%v` of a float64 is `%g` with the
   * shortest digits and exponent form once the exponent reaches 6, so
   * 123456 prints as "123456" and 1000000 as "1e+06".  Exact for
   * |n| <= 2^53, where float64 holds the integer exactly.
   */
  function FloatText(n: int): (r: string)
  {
    var sign := if n < 0 then "-" else "";
    var digits := NatString(if n < 0 then -n else n);
    if |digits| <= 6 then sign + digits
    else
      var mantissa := TrimZeros(digits);
      var exponent := |digits| - 1;
      sign + [mantissa[0]] + (if |mantissa| > 1 then "." + mantissa[1..] else "")
        + "e+" + (if exponent < 10 then "0" else "") + NatString(exponent)
  }

  /** A number below 10^k in magnitude has at most k digits. */
  lemma {:induction false} NatStringLength(n: nat, k: nat)
    requires k >= 1 && n < Pow10(k)
    ensures |NatString(n)| <= k
  {
    if n >= 10 {
      NatStringLength(n / 10, k - 1);
    }
  }

  function Pow10(k: nat): (r: nat)
    ensures r >= 1
  {
    if k == 0 then 1 else 10 * Pow10(k - 1)
  }

  /** Below a million, `fmt.Sprint` of a whole float64 is its `%d` text. */
  lemma FloatTextSmall(n: int)
    requires -1000000 < n < 1000000
    ensures FloatText(n) == DecimalString(n)
  {
    NatStringLength(if n < 0 then -n else n, 6);
  }

  lemma NatStringTimesTen(n: nat)
    requires n > 0
    ensures NatString(n * 10) == NatString(n) + "0"
  {
    assert (n * 10) / 10 == n && (n * 10) % 10 == 0;
  }

  lemma TrimZerosOfZeroSuffix(s: string)
    requires |s| >= 1
    ensures TrimZeros(s + "0") == TrimZeros(s)
  {
    assert (s + "0")[..|s|] == s;
  }

  /** From a million on, it switches to exponent form: 1000000 prints as "1e+06". */
  lemma FloatTextMillion()
    ensures FloatText(1000000) == "1e+06"
  {
    NatStringTimesTen(1); NatStringTimesTen(10); NatStringTimesTen(100);
    NatStringTimesTen(1000); NatStringTimesTen(10000); NatStringTimesTen(100000);
    var d := NatString(1000000);
    assert d == "1000000";
    TrimZerosOfZeroSuffix("1"); TrimZerosOfZeroSuffix("10"); TrimZerosOfZeroSuffix("100");
    TrimZerosOfZeroSuffix("1000"); TrimZerosOfZeroSuffix("10000"); TrimZerosOfZeroSuffix("100000");
    assert TrimZeros(d) == "1";
    assert NatString(6) == "6";
  }
}
