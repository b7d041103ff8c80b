/** Decimal rendering of a natural number, as JavaScript's template
    literals render `${response.status}`, and its inverse. */
module Decimal {

  predicate IsDigit(c: char) {
    '0' <= c <= '9'
  }

  predicate AllDigits(s: string) {
    forall i :: 0 <= i < |s| ==> IsDigit(s[i])
  }

  function DigitChar(d: nat): (c: char)
    requires d < 10
    ensures IsDigit(c) && c as int - '0' as int == d
  {
    (d + '0' as int) as char
  }

  function DigitValue(c: char): nat
    requires IsDigit(c)
  {
    c as int - '0' as int
  }

  /** Shortest decimal rendering of `n`: digits only, no leading zero. */
  function NatToString(n: nat): (s: string)
    ensures |s| >= 1 && AllDigits(s)
    ensures s[0] == '0' <==> n == 0
    ensures n < 10 <==> |s| == 1
    decreases n
  {
    if n < 10 then [DigitChar(n)] else NatToString(n / 10) + [DigitChar(n % 10)]
  }

  /** Reads a string of decimal digits back as a number. */
  function ParseDecimal(s: string): nat
    requires AllDigits(s)
    decreases |s|
  {
    if s == [] then 0 else ParseDecimal(s[..|s| - 1]) * 10 + DigitValue(s[|s| - 1])
  }

  /** Reading the rendering of `n` gives back `n`. */
  lemma {:induction false} ParseNatToString(n: nat)
    ensures ParseDecimal(NatToString(n)) == n
    decreases n
  {
    var s := NatToString(n);
    if n >= 10 {
      ParseNatToString(n / 10);
      assert s[..|s| - 1] == NatToString(n / 10);
    }
  }

  /** Every three-digit number, such as an HTTP status code, renders as three digits. */
  lemma ThreeDigits(n: nat)
    requires 100 <= n <= 999
    ensures |NatToString(n)| == 3
    ensures NatToString(n) == [DigitChar(n / 100), DigitChar(n / 10 % 10), DigitChar(n % 10)]
  {
    assert NatToString(n / 10) == NatToString(n / 10 / 10) + [DigitChar(n / 10 % 10)];
  }
}
