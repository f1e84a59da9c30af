/** Decimal printing, as integers are formatted into keys and tokens. */
module Decimals {

  const DIGITS := "0123456789"

  predicate IsDigit(c: char) { '0' <= c <= '9' }

  function Decimal(n: nat): (s: string)
    ensures s != [] && forall c <- s :: IsDigit(c)
    ensures |s| == 1 <==> n < 10
  {
    if n < 10 then [DIGITS[n]] else Decimal(n / 10) + [DIGITS[n % 10]]
  }

  lemma {:induction false} DecimalInjective(a: nat, b: nat)
    requires Decimal(a) == Decimal(b)
    ensures a == b
  {
    var x, y := Decimal(a), Decimal(b);
    if a >= 10 && b >= 10 {
      assert x[..|x| - 1] == Decimal(a / 10) && y[..|y| - 1] == Decimal(b / 10);
      assert x[|x| - 1] == DIGITS[a % 10] && y[|y| - 1] == DIGITS[b % 10];
      DecimalInjective(a / 10, b / 10);
    }
  }

  lemma {:induction false} DigitRunEnds(p: string, q: string, x: string, y: string)
    requires p + x == q + y
    requires (forall c <- p :: IsDigit(c)) && (forall c <- q :: IsDigit(c))
    requires x == [] || !IsDigit(x[0])
    requires y == [] || !IsDigit(y[0])
    ensures p == q && x == y
  {
    if p != [] && q != [] {
      assert p[0] == (p + x)[0] && (p + x)[1..] == p[1..] + x;
      assert q[0] == (q + y)[0] && (q + y)[1..] == q[1..] + y;
      DigitRunEnds(p[1..], q[1..], x, y);
    } else {
      assert [] + x == x && [] + y == y;
    }
  }

  /** A number followed by a non-digit reads back as the number and what follows. */
  lemma DecimalPrefix(a: nat, b: nat, x: string, y: string)
    requires Decimal(a) + x == Decimal(b) + y
    requires x == [] || !IsDigit(x[0])
    requires y == [] || !IsDigit(y[0])
    ensures a == b && x == y
  {
    DigitRunEnds(Decimal(a), Decimal(b), x, y);
    DecimalInjective(a, b);
  }

  function Signed(n: int): (text: string)
    ensures |text| > 0 && (text[0] == '-' <==> n < 0)
  {
    if n < 0 then "-" + Decimal(-n)
    else
      var digits := Decimal(n);
      assert IsDigit(digits[0]);
      digits
  }

  lemma SignedInjective(n: int, m: int)
    requires Signed(n) == Signed(m)
    ensures n == m
  {
    if n < 0 {
      assert Signed(n)[1..] == Decimal(-n) && Signed(m)[1..] == Decimal(-m);
      DecimalInjective(-n, -m);
    } else {
      DecimalInjective(n, m);
    }
  }
}
