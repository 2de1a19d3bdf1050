/** Decimal digit strings: what `parseInt(digits, 10)` reads from a run of
  * digits and what `String(n)` writes for an integer. */
module Decimal {

  predicate IsDigit(c: char) {
    '0' <= c <= '9'
  }

  function DigitValue(c: char): (d: nat)
    requires IsDigit(c)
    ensures d < 10
  {
    c as int - '0' as int
  }

  predicate AllDigits(s: string) {
    forall i | 0 <= i < |s| :: IsDigit(s[i])
  }

  /** The number a run of decimal digits denotes, most significant digit first. */
  function Value(s: string): nat
    requires AllDigits(s)
  {
    if s == [] then 0 else 10 * Value(s[..|s| - 1]) + DigitValue(s[|s| - 1])
  }

  function DigitChar(d: nat): (c: char)
    requires d < 10
    ensures IsDigit(c) && DigitValue(c) == d
  {
    ('0' as int + d) as char
  }

  /** `String(n)` for a non-negative integer: its shortest decimal writing. */
  function Format(n: nat): (s: string)
    ensures 1 <= |s| && AllDigits(s)
    ensures s[0] == '0' ==> n == 0 && s == "0"
  {
    if n < 10 then [DigitChar(n)] else Format(n / 10) + [DigitChar(n % 10)]
  }

  /** Reading back what `Format` writes gives the number again. */
  lemma {:induction false} ValueOfFormat(n: nat)
    ensures Value(Format(n)) == n
  {
    if n >= 10 {
      var s := Format(n / 10) + [DigitChar(n % 10)];
      assert s[..|s| - 1] == Format(n / 10);
      ValueOfFormat(n / 10);
    }
  }

  /** `String(i)` for any integer: a minus sign before a negative one. */
  function FormatInt(i: int): (s: string)
    ensures i >= 0 ==> 1 <= |s| && AllDigits(s) && Value(s) == i && (s[0] == '0' ==> i == 0)
    ensures i == 0 ==> s == "0"
    ensures i < 0 ==> 2 <= |s| && s[0] == '-' && s[1] != '0' && AllDigits(s[1..]) && Value(s[1..]) == -i
  {
    if i < 0 then
      ValueOfFormat(-i);
      assert ("-" + Format(-i))[1..] == Format(-i);
      "-" + Format(-i)
    else
      ValueOfFormat(i);
      Format(i)
  }
}
