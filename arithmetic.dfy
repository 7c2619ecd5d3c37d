/** Small facts of integer multiplication and division used by the money arithmetic. */
module Arithmetic {

  lemma NegatedFactor(x: int, y: int)
    ensures (-x) * y == -(x * y) && x * (-y) == -(x * y)
  {
  }

  lemma MulMonotone(x: int, y: int, k: int)
    requires x <= y && k >= 0
    ensures x * k <= y * k
  {
  }

  lemma MulCancel(x: int, y: int, k: int)
    requires x * k < y * k && k > 0
    ensures x < y
  {
  }

  /** Euclidean division is determined by any quotient and in-range remainder. */
  lemma DivUnique(x: int, v: int, q: int, r: int)
    requires v > 0 && 0 <= r < v && x == q * v + r
    ensures x / v == q
  {
    var q0, r0 := x / v, x % v;
    assert x == q0 * v + r0;
    assert (q - q0) * v == r0 - r;
    assert (q0 - q) * v == r - r0;
    MulCancel(q - q0, 1, v);
    MulCancel(q0 - q, 1, v);
  }
}
