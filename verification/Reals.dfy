/** Squares and signs of real products. */
module Reals {

  function Sq(x: real): real {
    x * x
  }

  lemma SquareNonNegative(x: real)
    ensures x * x >= 0.0
  {
  }

  lemma ProductNonNegative(a: real, b: real)
    requires a >= 0.0 && b >= 0.0
    ensures a * b >= 0.0
  {
  }

  lemma Positive(a: real, b: real, p: real)
    requires a > 0.0 && b > 0.0 && p == a * b
    ensures p > 0.0
  {
  }

  lemma LessTimes(a: real, b: real, c: real)
    requires a < b && c > 0.0
    ensures a * c < b * c
  {
    Positive(b - a, c, (b - a) * c);
    assert (b - a) * c == b * c - a * c;
  }

  lemma DivideOut(a: real, x: real, y: real)
    requires a > 0.0 && a * x <= a * y
    ensures x <= y
  {
    if x > y {
      LessTimes(y, x, a);
    }
  }
}
