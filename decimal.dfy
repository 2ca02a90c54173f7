/**
 * Decimal rendering of a non-negative integer, as a template literal
 * prints a whole number, with the parser that inverts it.
 */
module Decimal {

  predicate IsDigit(c: char)
  {
    '0' <= c <= '9'
  }

  predicate AllDigits(s: string)
  {
    forall i :: 0 <= i < |s| ==> IsDigit(s[i])
  }

  function DigitChar(d: nat): (c: char)
    requires d < 10
    ensures IsDigit(c) && c as int - '0' as int == d
  {
    ('0' as int + d) as char
  }

  /** The shortest decimal spelling of n. */
  function Show(n: nat): (s: string)
    ensures 1 <= |s| && AllDigits(s)
    ensures |s| == 1 <==> n < 10
    decreases n
  {
    if n < 10 then [DigitChar(n)] else Show(n / 10) + [DigitChar(n % 10)]
  }

  /** The value of a string of decimal digits. */
  function Value(s: string): nat
    requires AllDigits(s)
  {
    if s == [] then 0 else 10 * Value(s[..|s| - 1]) + (s[|s| - 1] as int - '0' as int)
  }

  /** Reading back a rendered number gives the number. */
  lemma {:induction false} ShowValue(n: nat)
    ensures Value(Show(n)) == n
    decreases n
  {
    if n >= 10 {
      var s := Show(n);
      assert s[..|s| - 1] == Show(n / 10);
      ShowValue(n / 10);
    }
  }

  /** Rendering is injective. */
  lemma ShowInjective(m: nat, n: nat)
    requires Show(m) == Show(n)
    ensures m == n
  {
    ShowValue(m);
    ShowValue(n);
  }

  /** A number from 1000 through 9999 is written with exactly four digits. */
  lemma {:induction false} ShowFourDigits(n: nat)
    requires 1000 <= n <= 9999
    ensures |Show(n)| == 4
  {
    assert |Show(n / 10)| == 3 by {
      assert |Show(n / 100)| == 2 by {
        assert |Show(n / 1000)| == 1;
      }
    }
  }
}
