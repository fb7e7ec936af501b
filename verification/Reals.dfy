/** Products and quotients of reals, one algebraic law at a time. */
module Reals {

  /** Products are named so that the inductive proofs can treat them as atoms and leave all
      nonlinear arithmetic to the lemmas below. */
  function Times(a: real, b: real): real { a * b }

  lemma Distribute(a: real, b: real, c: real)
    ensures Times(a, b + c) == Times(a, b) + Times(a, c)
    ensures Times(b + c, a) == Times(b, a) + Times(c, a)
  {
  }

  lemma ProductOfDifferences(a: real, b: real, c: real, d: real)
    ensures Times(a - b, c - d) == Times(a, c) - Times(a, d) - Times(b, c) + Times(b, d)
  {
    assert (a - b) * (c - d) == a * (c - d) - b * (c - d);
    assert a * (c - d) == a * c - a * d && b * (c - d) == b * c - b * d;
  }

  lemma ProductOfSums(a: real, b: real, c: real, d: real)
    ensures Times(a + b, c + d) == Times(a, c) + Times(a, d) + Times(b, c) + Times(b, d)
  {
    assert (a + b) * (c + d) == a * (c + d) + b * (c + d);
    assert a * (c + d) == a * c + a * d && b * (c + d) == b * c + b * d;
  }

  lemma Commute(a: real, b: real)
    ensures Times(a, b) == Times(b, a)
  {
  }

  lemma OneTimes(a: real)
    ensures Times(1.0, a) == a && Times(a, 1.0) == a && Times(0.0, a) == 0.0 == Times(a, 0.0)
  {
  }

  lemma SquarePositive(a: real)
    requires a != 0.0
    ensures Times(a, a) > 0.0
  {
    if a > 0.0 {
      PositiveProduct(a, a);
    } else {
      PositiveProduct(-a, -a);
    }
  }

  lemma PositiveProduct(a: real, b: real)
    requires a > 0.0 && b > 0.0
    ensures Times(a, b) > 0.0
  {
  }

  lemma TimesMonotone(a: real, b: real, c: real)
    requires a >= 0.0 && b <= c
    ensures Times(a, b) <= Times(a, c)
  {
  }

  lemma Reassociate(a: real, b: real, c: real)
    ensures Times(a, Times(b, c)) == Times(b, Times(a, c))
  {
    assert a * (b * c) == (a * b) * c == (b * a) * c == b * (a * c);
  }

  lemma QuotientTimes(a: real, d: real)
    requires d > 0.0
    ensures Times(a / d, d) == a
  {
  }

  lemma LargerProduct(a: real, b: real, d: real)
    requires d > 0.0 && a > b
    ensures Times(a, d) > Times(b, d)
  {
    PositiveProduct(a - b, d);
    Distribute(d, a - b, b);
  }

  lemma OrderOfFactors(a: real, b: real, d: real)
    requires d > 0.0 && Times(a, d) <= Times(b, d)
    ensures a <= b
  {
    hide Times;
    if a > b {
      LargerProduct(a, b, d);
    }
  }

  lemma DivideMonotone(a: real, b: real, d: real)
    requires d > 0.0 && a <= b
    ensures a / d <= b / d
  {
    QuotientTimes(a, d);
    QuotientTimes(b, d);
    OrderOfFactors(a / d, b / d, d);
  }
}
