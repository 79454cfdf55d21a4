/** Small facts about products that the solver does not find by itself
    when the factors are variables. */
module Arithmetic {

  /** A product of two positive reals is positive. */
  lemma PositiveProduct(x: real, y: real, e: real)
    requires x > 0.0 && y > 0.0 && e == x * y
    ensures e > 0.0
  {
  }

  /** A product of two positive integers is positive. */
  lemma PositiveIntProduct(a: int, b: int)
    requires a > 0 && b > 0
    ensures a * b > 0
  {
  }

  /** A product of two non-negative reals is non-negative. */
  lemma MulNonNegative(a: real, b: real, e: real)
    requires a >= 0.0 && b >= 0.0 && e == a * b
    ensures e >= 0.0
  {
    if a > 0.0 && b > 0.0 {
      PositiveProduct(a, b, e);
    }
  }

  /** A square `e` of `d` is non-negative, and zero only for `d` zero. */
  lemma SquareNonNegative(d: real, e: real)
    requires e == d * d
    ensures e >= 0.0
    ensures e == 0.0 ==> d == 0.0
  {
    if d > 0.0 {
      PositiveProduct(d, d, e);
    } else if d < 0.0 {
      PositiveProduct(-d, -d, e);
    }
  }

  /** Multiplying by a non-negative factor keeps the order. */
  lemma MulMonotone(a: real, b: real, c: real, p: real, q: real)
    requires a <= b && c >= 0.0 && p == a * c && q == b * c
    ensures p <= q
  {
    assert q - p == (b - a) * c;
  }

  /** Multiplication distributes over addition. */
  lemma Distribute(a: real, b: real, c: real)
    ensures (a + b) * c == a * c + b * c
  {
  }
}
