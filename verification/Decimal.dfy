/** Decimal rendering of integers, as string interpolation does it. */
module Decimal {

  function Digit(d: nat): char
    requires d < 10
  {
    "0123456789"[d]
  }

  function Digits(n: nat): (s: string)
    ensures |s| > 0 && forall c | c in s :: '0' <= c <= '9'
  {
    if n < 10 then [Digit(n)] else Digits(n / 10) + [Digit(n % 10)]
  }

  function Render(n: int): string {
    if n < 0 then "-" + Digits(-n) else Digits(n)
  }

  /** The number that a text of decimal digits stands for, read from the left. */
  function Value(s: string): int {
    if s == "" then 0 else 10 * Value(s[..|s| - 1]) + (s[|s| - 1] as int - '0' as int)
  }

  lemma DigitValue(d: nat)
    requires d < 10
    ensures Digit(d) as int - '0' as int == d
  {
  }

  /** The rendering reads as the number and has no leading zero. */
  lemma {:induction false} DigitsValue(n: nat)
    ensures Value(Digits(n)) == n
    ensures Digits(n)[0] == '0' ==> n == 0
  {
    var s := Digits(n);
    DigitValue(n % 10);
    if n < 10 {
      assert s[..0] == "";
    } else {
      DigitsValue(n / 10);
      assert s[..|s| - 1] == Digits(n / 10);
    }
  }

  lemma DigitsInjective(m: nat, n: nat)
    requires Digits(m) == Digits(n)
    ensures m == n
  {
    DigitsValue(m);
    DigitsValue(n);
  }

  lemma RenderSign(n: int)
    ensures Render(n) != "" && (Render(n)[0] == '-' <==> n < 0)
  {
    if n >= 0 {
      assert Digits(n)[0] in Digits(n);
    }
  }

  lemma RenderInjective(m: int, n: int)
    requires Render(m) == Render(n)
    ensures m == n
  {
    RenderSign(m);
    RenderSign(n);
    if m < 0 {
      assert Digits(-m) == Render(m)[1..] && Digits(-n) == Render(n)[1..];
      DigitsInjective(-m, -n);
    } else {
      DigitsInjective(m, n);
    }
  }
}
