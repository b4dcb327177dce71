/** Decimal digits. */
module Digits {
  predicate IsDigit(c: char) { '0' <= c <= '9' }

  function Digit(n: nat): (c: char)
    requires n < 10
    ensures IsDigit(c)
  {
    '0' + n as char
  }

  function Value(c: char): nat
    requires IsDigit(c)
  {
    (c - '0') as nat
  }

  lemma ValueOfDigit(n: nat)
    requires n < 10
    ensures Value(Digit(n)) == n
  {}
}
