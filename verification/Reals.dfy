/** Square root and exponential enter as function values characterised by their laws. */
module Reals {

  /** `sqrt` is the non-negative root. */
  ghost predicate IsSqrt(sqrt: real -> real) {
    forall x :: x >= 0.0 ==> sqrt(x) >= 0.0 && sqrt(x) * sqrt(x) == x
  }

  function Square(x: real): real { x * x }

  lemma SquareNonNegative(x: real)
    ensures Square(x) >= 0.0
  {
  }

  lemma PositiveSquare(b: real)
    requires b != 0.0
    ensures Square(b) > 0.0
  {
    var c := if b > 0.0 then b else -b;
    MulPositive(c, c);
    assert Square(b) == Mul(c, c);
  }

  function Mul(x: real, y: real): real { x * y }

  lemma MulPositive(x: real, y: real)
    requires x > 0.0 && y > 0.0
    ensures Mul(x, y) > 0.0
  {
  }

  lemma ProductPositive(a: real, b: real)
    requires a > 0.0 && b > 0.0
    ensures a * b > 0.0
  {
  }

  lemma ProductNonNegative(a: real, b: real)
    requires a >= 0.0 && b >= 0.0
    ensures a * b >= 0.0
  {
  }

  lemma Distribute(x: real, y: real, z: real)
    ensures x * (y + z) == x * y + x * z
  {
  }

  lemma QuotientOrder(x: real, y: real, d: real)
    requires d > 0.0
    ensures x <= y ==> x / d <= y / d
    ensures x / d * d == x
  {
  }

  /** Events per minute of `o` seconds, times those seconds. */
  lemma PerMinuteTimes(count: real, o: real)
    requires o >= 1.0
    ensures o / 60.0 > 0.0 && count / (o / 60.0) * o == 60.0 * count
  {
    var q := count / (o / 60.0);
    assert q * (o / 60.0) == count;
    assert q * o == 60.0 * (q * (o / 60.0));
  }

  /** Comparing non-negative numbers is comparing their squares. */
  lemma SquareOrder(x: real, y: real)
    requires x >= 0.0 && y >= 0.0
    ensures x <= y <==> x * x <= y * y
  {
    if x <= y {
      assert x * x <= x * y <= y * y;
    } else {
      assert x * x - y * y == (x - y) * (x + y);
      ProductPositive(x - y, x + y);
    }
  }

  /** Length of a vector. */
  function Hypot(sqrt: real -> real, dx: real, dy: real): real {
    sqrt(dx * dx + dy * dy)
  }

  lemma HypotWithin(sqrt: real -> real, dx: real, dy: real, r: real)
    requires IsSqrt(sqrt)
    ensures Hypot(sqrt, dx, dy) >= 0.0
    ensures Hypot(sqrt, dx, dy) <= r <==> r >= 0.0 && dx * dx + dy * dy <= r * r
  {
    SquareNonNegative(dx);
    SquareNonNegative(dy);
    var d2 := dx * dx + dy * dy;
    assert d2 >= 0.0;
    var d := sqrt(d2);
    assert d >= 0.0 && d * d == d2;
    if r >= 0.0 {
      SquareOrder(d, r);
    }
  }

  ghost predicate SumLaw(exp: real -> real, a: real, b: real) {
    exp(a + b) == exp(a) * exp(b)
  }

  /** `exp` is an exponential: positive, one at zero, multiplicative, and below one for negative arguments. */
  ghost predicate IsExp(exp: real -> real) {
    && exp(0.0) == 1.0
    && (forall x :: exp(x) > 0.0)
    && (forall x :: x < 0.0 ==> exp(x) < 1.0)
    && (forall a, b :: SumLaw(exp, a, b))
  }
}
