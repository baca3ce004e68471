/** Numbers written in decimal. */
module Decimal {
  function Digit(d: nat): char
    requires d < 10
  {
    "0123456789"[d]
  }

  function Digits(n: nat): string {
    if n < 10 then [Digit(n)] else Digits(n / 10) + [Digit(n % 10)]
  }

  function Dec(n: int): string {
    if n < 0 then "-" + Digits(-n) else Digits(n)
  }

  lemma DigitFacts(d: nat, e: nat)
    requires d < 10 && e < 10
    ensures Digit(d) == Digit(e) ==> d == e
    ensures Digit(d) !in {'.', '-', '*', '#', 'u'}
  {
  }

  lemma {:induction false} DigitsFacts(n: nat)
    ensures Digits(n) != ""
    ensures forall c :: c in Digits(n) ==> c !in {'.', '-', '*', '#', 'u'}
  {
    DigitFacts(n % 10, 0);
    if n >= 10 {
      DigitsFacts(n / 10);
    }
  }

  lemma {:induction false} DigitsInjective(a: nat, b: nat)
    requires Digits(a) == Digits(b)
    ensures a == b
  {
    DigitsFacts(a / 10);
    DigitsFacts(b / 10);
    var sa, sb := Digits(a), Digits(b);
    assert sa[|sa| - 1] == Digit(a % 10) && sb[|sb| - 1] == Digit(b % 10);
    DigitFacts(a % 10, b % 10);
    if a >= 10 && b >= 10 {
      assert sa[..|sa| - 1] == Digits(a / 10) && sb[..|sb| - 1] == Digits(b / 10);
      DigitsInjective(a / 10, b / 10);
    }
  }

  lemma DecInjective(a: int, b: int)
    requires Dec(a) == Dec(b)
    ensures a == b
  {
    var na: nat, nb: nat := if a < 0 then -a else a, if b < 0 then -b else b;
    DigitsFacts(na);
    DigitsFacts(nb);
    assert a >= 0 ==> Dec(a)[0] in Digits(na);
    assert b >= 0 ==> Dec(b)[0] in Digits(nb);
    assert a < 0 ==> Dec(a)[1..] == Digits(na);
    assert b < 0 ==> Dec(b)[1..] == Digits(nb);
    DigitsInjective(na, nb);
  }
}
