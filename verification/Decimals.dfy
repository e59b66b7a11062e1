/** Decimal text of natural numbers. */
module Decimals {

  predicate Digit(c: char) {
    '0' <= c <= '9'
  }

  predicate Digits(t: string) {
    forall n :: 0 <= n < |t| ==> Digit(t[n])
  }

  function Value(t: string): nat
    requires Digits(t)
  {
    if t == "" then 0
    else
      assert Digit(t[|t| - 1]);
      10 * Value(t[..|t| - 1]) + (t[|t| - 1] as int - '0' as int)
  }

  function DigitChar(d: nat): (c: char)
    requires d < 10
    ensures Digit(c) && c as int - '0' as int == d
  {
    '0' + d as char
  }

  function Decimal(n: nat): (t: string)
    ensures t != "" && Digits(t)
  {
    if n < 10 then [DigitChar(n)] else Decimal(n / 10) + [DigitChar(n % 10)]
  }

  /** Decimal text reads back as the number. */
  lemma {:induction false} DecimalReads(n: nat)
    ensures Value(Decimal(n)) == n
  {
    var t := Decimal(n);
    if n < 10 {
      assert t[..0] == "";
    } else {
      DecimalReads(n / 10);
      assert t[..|t| - 1] == Decimal(n / 10);
    }
  }

  function Power(k: nat): nat {
    if k == 0 then 1 else 10 * Power(k - 1)
  }

  /** A number below the k-th power of ten has at most k digits. */
  lemma {:induction false} DecimalShort(n: nat, k: nat)
    requires k >= 1 && n < Power(k)
    ensures |Decimal(n)| <= k
    decreases k
  {
    if n >= 10 {
      assert k > 1;
      DecimalShort(n / 10, k - 1);
    }
  }
}
