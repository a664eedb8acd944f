/** Integer min/max as Python's `min`/`max` compute them, and the few facts
    about real multiplication and division the proofs need, each stated on
    its own so the solver sees them in a small context. */
module Arith {

  function Max(a: int, b: int): (r: int)
    ensures a <= r && b <= r && (r == a || r == b)
  {
    if a >= b then a else b
  }

  function Min(a: int, b: int): (r: int)
    ensures r <= a && r <= b && (r == a || r == b)
  {
    if a <= b then a else b
  }

  lemma MulPositive(a: real, b: real)
    requires a > 0.0 && b > 0.0
    ensures a * b > 0.0
  {
  }

  lemma SquarePositive(x: real)
    requires x != 0.0
    ensures x * x > 0.0
  {
    if x > 0.0 {
      MulPositive(x, x);
    } else {
      MulPositive(-x, -x);
      assert (-x) * (-x) == x * x;
    }
  }

  /** Stated for two factors: with a square `x * x` in the goal the solver
      loses this otherwise linear step, so callers pass the factor twice. */
  lemma ProductPlusPositive(x: real, y: real, b: real)
    requires x * y > 0.0 && b >= 0.0
    ensures x * y + b > 0.0
  {
  }

  /** Negating, flooring and negating back rounds up: the result is the
      smallest integer not below `x`. */
  lemma NegatedFloor(x: real)
    ensures (-(-x).Floor) as real - 1.0 < x <= (-(-x).Floor) as real
  {
    var f := (-x).Floor;
    assert f as real <= -x < f as real + 1.0;
  }

  /** If `r` is the quotient `x` of `load` by `k` rounded up, then `r`
      parts of size `k` cover `load` and one part fewer does not. */
  lemma RoundedUpQuotient(load: real, k: real, x: real, r: real)
    requires k > 0.0 && x * k == load
    requires r - 1.0 < x <= r
    ensures load <= r * k
    ensures r * k < load + k
  {
    RoundedUpCovers(load, k, x, r);
    RoundedUpTight(load, k, x, r);
  }

  lemma RoundedUpCovers(load: real, k: real, x: real, r: real)
    requires k > 0.0 && x * k == load && x <= r
    ensures load <= r * k
  {
    MulMonotone(x, r, k);
  }

  lemma RoundedUpTight(load: real, k: real, x: real, r: real)
    requires k > 0.0 && x * k == load && r < x + 1.0
    ensures r * k < load + k
  {
    MulMonotone(r, x + 1.0, k);
  }

  /** Rounded-up quotients keep the order of what they divide: if `a` parts
      fall short of `lo + k` and `b` parts cover `hi >= lo`, then `a` is
      less than `b + 1`. */
  lemma RoundedUpOrder(lo: real, hi: real, k: real, a: real, b: real)
    requires k > 0.0 && lo <= hi
    requires a * k < lo + k && hi <= b * k
    ensures a < b + 1.0
  {
    assert (b + 1.0) * k == b * k + k;
    MulLessCancel(a, b + 1.0, k);
  }

  lemma Distribute(d: real, x: real, y: real)
    ensures d * x + d * y == d * (x + y)
    ensures d * x - d * y == d * (x - y)
  {
  }

  /** Dividing an affine combination by its count divides each part. */
  lemma AffineQuotient(total: real, image: real, n: real, a: real, d: real)
    requires n != 0.0
    requires image == n * a + d * total
    ensures image / n == a + d * (total / n)
  {
    var m := total / n;
    MulDivCancel(total, n);
    assert image == (a + d * m) * n;
    MulDivCancel(a + d * m, n);
  }

  lemma MulDivCancel(x: real, k: real)
    requires k != 0.0
    ensures (x * k) / k == x
    ensures (x / k) * k == x
  {
  }

  lemma NegateDiv(x: real, k: real)
    requires k != 0.0
    ensures (-x) / k == -(x / k)
  {
  }

  lemma QuotientPositive(x: real, k: real)
    requires x > 0.0 && k > 0.0
    ensures x / k > 0.0
  {
    MulDivCancel(x, k);
    MulMonotone(x / k, 0.0, k);
  }

  /** Multiplying by a positive factor keeps strict and non-strict order. */
  lemma MulMonotone(x: real, y: real, k: real)
    requires k > 0.0
    ensures x < y ==> x * k < y * k
    ensures x <= y ==> x * k <= y * k
  {
    if x < y {
      MulPositive(y - x, k);
      Distribute(k, y, x);
    }
  }

  /** Cancelling a positive factor keeps strict order. */
  lemma MulLessCancel(x: real, y: real, k: real)
    requires k > 0.0 && x * k < y * k
    ensures x < y
  {
    MulMonotone(y, x, k);
  }

  /** Cancelling a non-zero factor from an equation. */
  lemma MulCancel(x: real, y: real, k: real)
    requires k != 0.0 && x * k == y * k
    ensures x == y
  {
    MulDivCancel(x, k);
    MulDivCancel(y, k);
  }
}
