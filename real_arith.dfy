/** Facts of ordered-field arithmetic that the solver does not find on its
    own once products and quotients of several unknowns are involved. */
module RealArith {

  lemma ProductPositive(a: real, b: real)
    requires 0.0 < a && 0.0 < b
    ensures 0.0 < a * b
  {
  }

  /** Dividing by a positive number keeps the sign, and zero only from zero. */
  lemma QuotientSign(n: real, d: real)
    requires 0.0 < d
    ensures 0.0 <= n ==> 0.0 <= n / d
    ensures 0.0 < n ==> 0.0 < n / d
    ensures n / d == 0.0 <==> n == 0.0
  {
    assert n == (n / d) * d;
  }

  /** Multiplying by a positive number keeps a strict order. */
  lemma ScaleStrict(c: real, a: real, b: real)
    requires 0.0 < c && a < b
    ensures c * a < c * b
  {
    assert c * b - c * a == c * (b - a);
    ProductPositive(c, b - a);
  }

  /** The same fact as ScaleStrict, about products given names: it keeps
      the product terms out of a caller's proof. */
  lemma NamedProductsOrdered(c: real, a: real, b: real, ca: real, cb: real)
    requires 0.0 < c && a < b && ca == c * a && cb == c * b
    ensures ca < cb
  {
    ScaleStrict(c, a, b);
  }

  /** x < 1 / y for positive y whenever x y < 1. */
  lemma BelowReciprocal(x: real, y: real)
    requires 0.0 < y && x * y < 1.0
    ensures x < 1.0 / y
  {
    QuotientLess(x, 1.0, 1.0, y);
  }

  /** For positive x and y, x < 1 / y and y < 1 / x say the same. */
  lemma ReciprocalSwap(x: real, y: real)
    requires 0.0 < x && 0.0 < y && x < 1.0 / y
    ensures y < 1.0 / x
  {
    var r := 1.0 / y;
    assert y * r == 1.0;
    NamedProductsOrdered(y, x, r, y * x, 1.0);
    BelowReciprocal(y, x);
  }

  /** A non-negative fraction with numerator below denominator is below 1. */
  lemma QuotientBelowOne(n: real, d: real)
    requires 0.0 <= n < d
    ensures n / d < 1.0
  {
  }

  lemma ScaleStrictOrEqual(c: real, a: real, b: real)
    requires 0.0 < c && a <= b
    ensures c * a <= c * b
  {
    if a < b { ScaleStrict(c, a, b); }
  }

  /** Cross-multiplication for positive denominators. */
  lemma QuotientLess(a: real, b: real, c: real, d: real)
    requires 0.0 < b && 0.0 < d
    requires a * d < c * b
    ensures a / b < c / d
  {
    var p, q := a / b, c / d;
    assert a == p * b && c == q * d;
    assert a * d == p * (b * d) && c * b == q * (b * d);
    ProductPositive(b, d);
    if q <= p {
      ScaleStrictOrEqual(b * d, q, p);
      assert false;
    }
  }

  /** Dividing by a positive number keeps a strict order. */
  lemma QuotientMonotone(a: real, b: real, d: real)
    requires 0.0 < d && a < b
    ensures a / d < b / d
  {
    ScaleStrict(d, a, b);
    QuotientLess(a, d, b, d);
  }

  /** A product with one positive factor has the sign of the other factor. */
  lemma ProductSign(a: real, b: real)
    requires 0.0 < a && 0.0 <= b
    ensures 0.0 <= a * b
    ensures a * b == 0.0 <==> b == 0.0
  {
    if 0.0 < b { ProductPositive(a, b); }
  }

  lemma QuotientOfMultiple(x: real, d: real)
    requires d != 0.0
    ensures (x * d) / d == x
  {
  }

  /** A non-zero common factor cancels. */
  lemma CancelFactor(a: real, b: real, d: real)
    requires d != 0.0 && a * d == b * d
    ensures a == b
  {
    assert (a - b) * d == 0.0;
  }
}
