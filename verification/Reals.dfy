/** Order and cancellation laws of real multiplication and division, one step at a time. */
module Reals {
  lemma Product(a: real, b: real)
    requires a >= 0.0 && b >= 0.0
    ensures a * b >= 0.0
  {
  }

  lemma PositiveProduct(a: real, b: real)
    requires a > 0.0 && b > 0.0
    ensures a * b > 0.0
  {
  }

  /** The same of a named product, which also serves when the factors coincide. */
  lemma {:induction false} ProductIs(a: real, b: real, p: real)
    requires a >= 0.0 && b >= 0.0 && p == a * b
    ensures p >= 0.0
  {
  }

  lemma {:induction false} PositiveProductIs(a: real, b: real, p: real)
    requires a > 0.0 && b > 0.0 && p == a * b
    ensures p > 0.0
  {
  }

  lemma {:induction false} Scale(a: real, b: real, c: real)
    requires a <= b && c >= 0.0
    ensures a * c <= b * c
  {
  }

  lemma {:induction false} StrictScale(a: real, b: real, c: real)
    requires a < b && c > 0.0
    ensures a * c < b * c
  {
  }

  lemma {:induction false} CancelOrder(a: real, b: real, c: real)
    requires c > 0.0 && a * c <= b * c
    ensures a <= b
  {
  }

  lemma {:induction false} Square(a: real)
    ensures a * a >= 0.0
  {
  }

  lemma {:induction false} SquareOrder(a: real, b: real)
    requires b >= 0.0 && a * a <= b * b
    ensures -b <= a <= b
  {
    if a > b {
      PositiveProduct(a - b, a + b);
    } else if a < -b {
      PositiveProduct(-a - b, b - a);
    }
  }

  /** A quotient is what multiplies back. */
  lemma {:induction false} Quotient(a: real, c: real)
    requires c != 0.0
    ensures (a / c) * c == a
  {
  }

  lemma {:induction false} QuotientOrder(a: real, b: real, c: real)
    requires c > 0.0 && a <= b
    ensures a / c <= b / c
  {
  }

  lemma {:induction false} PositiveQuotient(a: real, c: real)
    requires a > 0.0 && c > 0.0
    ensures a / c > 0.0 && (a / c) * c == a
  {
  }
}
