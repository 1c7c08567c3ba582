/** Decimal numbers as text. */
module Decimal {

  function NatText(n: nat): string {
    (if n < 10 then "" else NatText(n / 10)) + ["0123456789"[n % 10]]
  }

  predicate IsDigit(ch: char) { '0' <= ch <= '9' }

  predicate Digits(s: string) { forall i :: 0 <= i < |s| ==> IsDigit(s[i]) }

  /** The number that digits stand for; leading zeros do not matter. */
  function NumberOf(digits: string): nat
    requires Digits(digits)
  {
    if digits == [] then 0
    else 10 * NumberOf(digits[..|digits| - 1]) + (digits[|digits| - 1] as int - '0' as int)
  }

  lemma {:induction false} NatTextReads(n: nat)
    ensures NatText(n) != [] && Digits(NatText(n)) && NumberOf(NatText(n)) == n
  {
    var last := "0123456789"[n % 10];
    assert last as int == '0' as int + n % 10;
    if n >= 10 {
      NatTextReads(n / 10);
      assert NatText(n)[..|NatText(n)| - 1] == NatText(n / 10);
    } else {
      assert NatText(n)[..0] == [];
    }
  }

  lemma NatTextInjective(a: nat, b: nat)
    requires NatText(a) == NatText(b)
    ensures a == b
  {
    NatTextReads(a);
    NatTextReads(b);
  }
}
