/** Decimal numerals as the formatter writes them: no sign for naturals, no leading zero,
    most significant digit first. Shared by the JSON printer, the LSP header and the diff markers. */
module Decimal {

  predicate IsDigit(c: char) {
    '0' <= c <= '9'
  }

  predicate AllDigits(s: string) {
    forall i :: 0 <= i < |s| ==> IsDigit(s[i])
  }

  function Digit(d: nat): (c: char)
    requires d < 10
    ensures IsDigit(c) && DigitValue(c) == d
  {
    (48 + d) as char
  }

  function DigitValue(c: char): (d: nat)
    requires IsDigit(c)
    ensures d < 10
  {
    (c as int) - 48
  }

  function Print(n: nat): (s: string)
    ensures s != [] && AllDigits(s)
  {
    if n < 10 then [Digit(n)] else Print(n / 10) + [Digit(n % 10)]
  }

  /** The number a digit string denotes; the empty string denotes zero. */
  function Value(s: string): nat
    requires AllDigits(s)
  {
    if s == [] then 0 else 10 * Value(s[..|s| - 1]) + DigitValue(s[|s| - 1])
  }

  lemma {:induction false} ValueOfPrint(n: nat)
    ensures Value(Print(n)) == n
  {
    if n >= 10 {
      ValueOfPrint(n / 10);
      assert Print(n)[..|Print(n)| - 1] == Print(n / 10);
    }
  }

  /** Two numbers print alike exactly when they are equal. */
  lemma PrintInjective(m: nat, n: nat)
    ensures Print(m) == Print(n) <==> m == n
  {
    ValueOfPrint(m);
    ValueOfPrint(n);
  }

  /** A signed integer: a minus sign only in front of negative numbers. */
  function PrintInt(n: int): (s: string)
    ensures s != []
  {
    if n < 0 then "-" + Print(-n) else Print(n)
  }

  predicate IsIntToken(s: string) {
    if s != [] && s[0] == '-' then |s| > 1 && AllDigits(s[1..]) else s != [] && AllDigits(s)
  }

  function ParseInt(s: string): int
    requires IsIntToken(s)
  {
    if s[0] == '-' then -(Value(s[1..]) as int) else Value(s) as int
  }

  lemma ParseIntOfPrintInt(n: int)
    ensures IsIntToken(PrintInt(n)) && ParseInt(PrintInt(n)) == n
  {
    if n < 0 {
      ValueOfPrint(-n);
      assert PrintInt(n)[1..] == Print(-n);
    } else {
      ValueOfPrint(n);
    }
  }
}
