/** Real-number helpers shared by the scoring rules: Python's `max(0, x)` and
    the `min(max(x, 0), 1)` clamp every score goes through. */
module Numeric {

  /** Python `max(0, x)` on integers: the part of `x` above the threshold. */
  function Excess(x: int, threshold: int): (r: nat)
    ensures x <= threshold ==> r == 0
    ensures x > threshold ==> r == x - threshold
  {
    if x - threshold > 0 then x - threshold else 0
  }

  /** Python `max(0, x - threshold)` on reals. */
  function ExcessReal(x: real, threshold: real): (r: real)
    ensures r >= 0.0
    ensures x <= threshold ==> r == 0.0
    ensures x > threshold ==> r == x - threshold
  {
    if x - threshold > 0.0 then x - threshold else 0.0
  }

  function Min(a: real, b: real): real { if a <= b then a else b }

  function Max(a: real, b: real): real { if a >= b then a else b }

  /** `min(max(x, 0), 1)`: the result is in [0, 1] and differs from `x` only
      when `x` lies outside that interval. */
  function Clamp01(x: real): (r: real)
    ensures 0.0 <= r <= 1.0
    ensures 0.0 <= x <= 1.0 ==> r == x
    ensures x < 0.0 ==> r == 0.0
    ensures x > 1.0 ==> r == 1.0
  {
    Min(Max(x, 0.0), 1.0)
  }

  lemma Clamp01Monotone(x: real, y: real)
    requires x <= y
    ensures Clamp01(x) <= Clamp01(y)
  {
  }

  /** Scaling by a non-negative coefficient keeps the order of its arguments. */
  lemma ScaleMonotone(c: real, x: real, y: real)
    requires c >= 0.0 && x <= y
    ensures c * x <= c * y
  {
    assert c * y - c * x == c * (y - x);
  }

  /** A smaller non-negative coefficient gives a smaller product. */
  lemma CoefficientMonotone(c: real, d: real, x: real)
    requires c <= d && x >= 0.0
    ensures c * x <= d * x
  {
    assert d * x - c * x == (d - c) * x;
  }

  /** Adding three inequalities term by term. */
  lemma SumMonotone(x1: real, x2: real, x3: real, y1: real, y2: real, y3: real)
    requires x1 <= y1 && x2 <= y2 && x3 <= y3
    ensures x1 + x2 + x3 <= y1 + y2 + y3
  {
  }

  /** A quotient of a non-negative number by a positive one is non-negative. */
  lemma QuotientNonNegative(a: real, b: real)
    requires a >= 0.0 && b > 0.0
    ensures a / b >= 0.0
  {
  }

  /** A negative quotient needs a negative operand. */
  lemma NegativeQuotient(a: real, b: real)
    requires b != 0.0
    ensures a / b < 0.0 ==> a < 0.0 || b < 0.0
  {
    if a >= 0.0 && b > 0.0 {
      QuotientNonNegative(a, b);
    }
  }
}
