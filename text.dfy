/** String helpers used by the tool: prefix tests and Python's decimal rendering of integers. */
module Text {

  /** Python's `s.startswith(prefix)`. */
  predicate StartsWith(s: string, prefix: string) {
    |prefix| <= |s| && s[..|prefix|] == prefix
  }

  predicate IsDigit(c: char) {
    '0' <= c <= '9'
  }

  predicate AllDigits(s: string) {
    forall i :: 0 <= i < |s| ==> IsDigit(s[i])
  }

  function DigitChar(d: nat): (c: char)
    requires d < 10
    ensures IsDigit(c)
  {
    ('0' as int + d) as char
  }

  function DigitValue(c: char): nat
    requires IsDigit(c)
  {
    c as int - '0' as int
  }

  /** The number a decimal numeral denotes, most significant digit first. */
  function DecimalValue(s: string): nat
    requires AllDigits(s)
  {
    if s == [] then 0 else DecimalValue(s[..|s| - 1]) * 10 + DigitValue(s[|s| - 1])
  }

  /** Python's `str(n)` for a non-negative integer: a canonical numeral that reads back as `n`. */
  function NatToDecimal(n: nat): (r: string)
    ensures |r| >= 1 && AllDigits(r)
    ensures DecimalValue(r) == n
    ensures r[0] == '0' ==> |r| == 1
  {
    if n < 10 then [DigitChar(n)]
    else
      var front := NatToDecimal(n / 10);
      var r := front + [DigitChar(n % 10)];
      assert r[..|r| - 1] == front;
      r
  }

  /** Python's `str(n)` for any integer: a minus sign before the magnitude when negative. */
  function IntToDecimal(n: int): (r: string)
    ensures |r| >= 1
    ensures n >= 0 ==> AllDigits(r) && DecimalValue(r) == n
    ensures n < 0 ==> r[0] == '-' && AllDigits(r[1..]) && |r| >= 2 && DecimalValue(r[1..]) == -n
    ensures n >= 0 && r[0] == '0' ==> |r| == 1
    ensures n < 0 ==> r[1] != '0'
  {
    if n >= 0 then NatToDecimal(n) else "-" + NatToDecimal(-n)
  }

  /** Distinct integers render differently, so the rendering loses nothing. */
  lemma IntToDecimalInjective(m: int, n: int)
    requires IntToDecimal(m) == IntToDecimal(n)
    ensures m == n
  {
  }
}
