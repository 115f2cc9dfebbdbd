/** Sums, and the few non-linear facts about real products and quotients that the proofs need. */
module Reals {
  function Sum(s: seq<real>): real {
    if |s| == 0 then 0.0 else Sum(s[..|s| - 1]) + s[|s| - 1]
  }

  lemma ProductMonotone(x: real, y: real, k: real)
    requires x <= y && k >= 0.0
    ensures x * k <= y * k && k * x <= k * y
  {
    assert (y - x) * k >= 0.0;
  }

  lemma ProductStrict(x: real, y: real, k: real)
    requires x < y && k > 0.0
    ensures x * k < y * k && k * x < k * y
  {}

  lemma Distribute(x: real, y: real, k: real)
    ensures (x + y) * k == x * k + y * k
    ensures (x - y) * k == x * k - y * k
  {}

  /** Scaling a bounded value by a factor between 1 and 2 at most doubles the bound. */
  lemma ScaledWithin(x: real, bound: real, factor: real)
    requires -bound <= x <= bound && 1.0 <= factor <= 2.0
    ensures -2.0 * bound <= x * factor <= 2.0 * bound
  {
    var scaled, most := x * factor, bound * factor;
    ProductMonotone(factor, 2.0, bound);
    assert most <= 2.0 * bound;
    ProductMonotone(x, bound, factor);
    assert scaled <= most;
    ProductMonotone(-x, bound, factor);
    Distribute(0.0, x, factor);
    assert -scaled <= most;
  }

  lemma ProductNonNegative(x: real, y: real)
    requires x >= 0.0 && y >= 0.0
    ensures x * y >= 0.0
  {}

  lemma ProductsMonotone(a: real, b: real, c: real, d: real)
    requires 0.0 <= a <= b && 0.0 <= c <= d
    ensures 0.0 <= a * c <= b * d
  {
    ProductMonotone(a, b, c);
    ProductMonotone(c, d, b);
    ProductNonNegative(a, c);
  }

  lemma QuotientUnique(x: real, y: real, q: real)
    requires y != 0.0 && q * y == x
    ensures x / y == q
  {
    assert (x / y) * y == x;
    assert (x / y - q) * y == 0.0;
  }

  lemma CancelPositive(x: real, y: real, k: real)
    requires k > 0.0 && x * k <= y * k
    ensures x <= y
  {
    if x > y {
      ProductMonotone(y, x, k);
    }
  }

  /** A larger numerator over a smaller denominator is a larger quotient. */
  lemma QuotientMonotone(a: real, b: real, c: real, d: real)
    requires 0.0 <= a <= b && 0.0 < c <= d
    ensures 0.0 <= a / d <= b / c
  {
    var q, r := a / d, b / c;
    assert q * d == a && r * c == b;
    CancelPositive(0.0, q, d);
    ProductMonotone(c, d, q);
    CancelPositive(q, r, c);
  }
}
