/** Small facts about products of reals, kept apart so that each is proved in a tiny context. */
module Arith {

  lemma MulPositive(x: real, y: real)
    requires x > 0.0 && y > 0.0
    ensures x * y > 0.0
  {
  }

  lemma MulNonNegative(x: real, y: real)
    requires x >= 0.0 && y >= 0.0
    ensures x * y >= 0.0
  {
  }

  /** Multiplying by a positive factor keeps the order, both ways. */
  lemma MulOrder(x: real, y: real, d: real)
    requires d > 0.0
    ensures x <= y <==> x * d <= y * d
  {
    if x <= y {
      MulNonNegative(y - x, d);
    } else {
      MulPositive(x - y, d);
    }
  }

  lemma MulStrict(x: real, y: real, d: real)
    requires x < y && d > 0.0
    ensures x * d < y * d
  {
    MulPositive(y - x, d);
  }

  /** A non-negative factor keeps the order of the other factor. */
  lemma ScaleMonotone(d: real, x: real, y: real)
    requires d >= 0.0 && x <= y
    ensures d * x <= d * y
  {
    MulNonNegative(d, y - x);
  }

  /** A proper fraction of a positive length is positive and shorter. */
  lemma ProperFraction(r: real, b: real)
    requires r > 0.0 && 0.0 < b < 1.0
    ensures 0.0 < b * r < r
  {
    MulPositive(b, r);
    MulPositive(1.0 - b, r);
    assert (1.0 - b) * r == r - b * r;
  }

  lemma MulNegRight(x: real, y: real)
    ensures x * -y == -(x * y)
  {
  }

  lemma DivMul(a: real, d: real, q: real)
    requires d != 0.0 && q == a / d
    ensures q * d == a
  {
  }

  /** Equal factors give equal products (stated so the solver need not multiply an equation). */
  lemma MulCongruence(k: real, u: real, v: real)
    requires u == v
    ensures k * u == k * v
  {
  }

  /** For an integer k: k <= floor(q) exactly when k <= q. */
  lemma FloorBound(q: real, k: int)
    ensures k <= q.Floor <==> (k as real) <= q
  {
  }
}
