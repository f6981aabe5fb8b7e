/** Decimal numerals: what std::to_string prints for an integer, and how it reads back. */
module Numerals {

  predicate IsDigit(c: char) {
    '0' <= c <= '9'
  }

  predicate AllDigits(s: string) {
    forall i :: 0 <= i < |s| ==> IsDigit(s[i])
  }

  function DigitsOf(n: nat): (s: string)
    ensures s != "" && AllDigits(s)
  {
    var last := [(n % 10 + 48) as char];
    if n < 10 then last else DigitsOf(n / 10) + last
  }

  function NatOf(s: string): nat
    requires AllDigits(s)
  {
    if s == "" then 0 else 10 * NatOf(s[..|s| - 1]) + (s[|s| - 1] as int - 48)
  }

  lemma {:induction false} NatOfDigits(n: nat)
    ensures NatOf(DigitsOf(n)) == n
  {
    var s := DigitsOf(n);
    if n >= 10 {
      NatOfDigits(n / 10);
      assert s[..|s| - 1] == DigitsOf(n / 10);
    } else {
      assert s[..0] == "";
    }
  }

  /** std::to_string(int) */
  function IntText(n: int): string {
    if n < 0 then "-" + DigitsOf(-n) else DigitsOf(n)
  }
}
