/** Facts about products and quotients of reals that the solver needs spelled out. */
module Reals {

  lemma SignOfProduct(m: real, d: real)
    requires d > 0.0
    ensures m * d >= 0.0 <==> m >= 0.0
  {}

  lemma MulMonotone(a1: real, a2: real, b1: real, b2: real)
    requires 0.0 <= a1 <= a2 && 0.0 <= b1 <= b2
    ensures 0.0 <= a1 * b1 <= a2 * b2
  {
    assert a1 * b1 <= a1 * b2;
    assert a1 * b2 <= a2 * b2;
  }

  lemma DivMonotone(x: real, y: real, d: real)
    requires x <= y && d > 0.0
    ensures x / d <= y / d
  {
    var p, q := x / d, y / d;
    assert p * d == x && q * d == y;
    assert (q - p) * d == y - x;
    SignOfProduct(q - p, d);
  }

  /** A value interpolated between two positive numbers stays positive. */
  lemma Interpolation(a: real, b: real, t: real)
    requires 0.0 < a && 0.0 < b && 0.0 <= t <= 1.0
    ensures 0.0 < a + t * (b - a)
  {
    assert a + t * (b - a) == (1.0 - t) * a + t * b;
    if t == 0.0 {} else {
      assert t * b > 0.0;
      MulMonotone(0.0, 1.0 - t, a, a);
    }
  }

  lemma MulPositive(a: real, b: real)
    requires a > 0.0 && b > 0.0
    ensures a * b > 0.0
  {}

  lemma Distribute(a: real, b: real, c: real)
    ensures a * (b + c) == a * b + a * c
  {}
}
