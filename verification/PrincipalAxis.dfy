/** The closed-form principal axis of a point set (ai/surgeguard_ai/queue/_spatial.py). */
module PrincipalAxis {
  import opened Common
  import opened Reals
  import opened Polygon

  const NORM_FLOOR: real := 0.000000000001   // 1e-12
  const SIGMA_FLOOR: real := 0.000000001     // 1e-9

  datatype Vec = Vec(x: real, y: real)
  datatype Cov = Cov(a: real, b: real, c: real)
  datatype Axis = Axis(centre: Vec, direction: Vec, majorSigma: real, minorSigma: real)

  // -- Sums over the points -----------------------------------------------------------------------------

  function Sum(ps: seq<Point>, f: Point -> real): real {
    if ps == [] then 0.0 else Sum(ps[..|ps| - 1], f) + f(ps[|ps| - 1])
  }

  function X(): Point -> real { (p: Point) => p.x }
  function Y(): Point -> real { (p: Point) => p.y }

  function Centre(ps: seq<Point>): Vec
    requires ps != []
  {
    Vec(Sum(ps, X()) / |ps| as real, Sum(ps, Y()) / |ps| as real)
  }

  function Dev(p: Point, m: Vec): Vec { Vec(p.x - m.x, p.y - m.y) }
  function Dot(u: Vec, v: Vec): real { u.x * v.x + u.y * v.y }

  function DevXX(m: Vec): Point -> real { (p: Point) => Dev(p, m).x * Dev(p, m).x }
  function DevXY(m: Vec): Point -> real { (p: Point) => Dev(p, m).x * Dev(p, m).y }
  function DevYY(m: Vec): Point -> real { (p: Point) => Dev(p, m).y * Dev(p, m).y }

  /** Sums of products of the deviations from `m`. */
  function Scatter(ps: seq<Point>, m: Vec): Cov {
    Cov(Sum(ps, DevXX(m)), Sum(ps, DevXY(m)), Sum(ps, DevYY(m)))
  }

  /** Population covariance. */
  function Covariance(ps: seq<Point>): Cov
    requires ps != []
  {
    var s, n := Scatter(ps, Centre(ps)), |ps| as real;
    Cov(s.a / n, s.b / n, s.c / n)
  }

  /** The definition: the squared deviation from `m`, measured along `u`. */
  function Along(m: Vec, u: Vec): Point -> real {
    (p: Point) => Square(Dot(u, Dev(p, m)))
  }

  /** The variance of the points' projections on `u`. */
  function ProjectedVariance(ps: seq<Point>, u: Vec): real
    requires ps != []
  {
    Sum(ps, Along(Centre(ps), u)) / |ps| as real
  }

  function Form(k: Cov, u: Vec): real {
    u.x * u.x * k.a + 2.0 * (u.x * u.y) * k.b + u.y * u.y * k.c
  }

  /** Summing is linear. */
  lemma {:induction false} SumLinear(ps: seq<Point>, f: Point -> real, g: Point -> real, h: Point -> real,
                                     k: Point -> real, x: real, y: real, z: real)
    requires forall p :: f(p) == x * g(p) + y * h(p) + z * k(p)
    ensures Sum(ps, f) == x * Sum(ps, g) + y * Sum(ps, h) + z * Sum(ps, k)
  {
    if ps != [] {
      var n := |ps| - 1;
      var p := ps[n];
      SumLinear(ps[..n], f, g, h, k, x, y, z);
      Distribute(x, Sum(ps[..n], g), g(p));
      Distribute(y, Sum(ps[..n], h), h(p));
      Distribute(z, Sum(ps[..n], k), k(p));
    }
  }

  lemma {:induction false} SumNonNegative(ps: seq<Point>, f: Point -> real)
    requires forall p :: f(p) >= 0.0
    ensures Sum(ps, f) >= 0.0
  {
    if ps != [] {
      SumNonNegative(ps[..|ps| - 1], f);
    }
  }

  lemma {:induction false} SquareOfDot(u: Vec, v: Vec)
    ensures Square(Dot(u, v)) == u.x * u.x * (v.x * v.x) + 2.0 * (u.x * u.y) * (v.x * v.y) + u.y * u.y * (v.y * v.y)
    ensures Square(Dot(u, v)) >= 0.0
  {
    SquareNonNegative(Dot(u, v));
  }

  /** The quadratic form of the scatter is the spread along the direction. */
  lemma {:induction false} SpreadIsForm(ps: seq<Point>, m: Vec, u: Vec)
    ensures Form(Scatter(ps, m), u) == Sum(ps, Along(m, u)) && Sum(ps, Along(m, u)) >= 0.0
  {
    AlongIsCombination(m, u);
    SumLinear(ps, Along(m, u), DevXX(m), DevXY(m), DevYY(m), u.x * u.x, 2.0 * (u.x * u.y), u.y * u.y);
    SumNonNegative(ps, Along(m, u));
  }

  lemma {:induction false} AlongIsCombination(m: Vec, u: Vec)
    ensures forall p :: Along(m, u)(p) >= 0.0
    ensures forall p :: Along(m, u)(p) ==
                        u.x * u.x * DevXX(m)(p) + 2.0 * (u.x * u.y) * DevXY(m)(p) + u.y * u.y * DevYY(m)(p)
  {
    forall p: Point
      ensures Along(m, u)(p) >= 0.0
      ensures Along(m, u)(p) ==
              u.x * u.x * DevXX(m)(p) + 2.0 * (u.x * u.y) * DevXY(m)(p) + u.y * u.y * DevYY(m)(p)
    {
      SquareOfDot(u, Dev(p, m));
    }
  }

  /** The centre is the mean: the deviations from it cancel out. */
  lemma {:induction false} DeviationsCancel(ps: seq<Point>)
    requires ps != []
    ensures Sum(ps, (p: Point) => p.x - Centre(ps).x) == 0.0
    ensures Sum(ps, (p: Point) => p.y - Centre(ps).y) == 0.0
  {
    var m := Centre(ps);
    SumShift(ps, X(), (p: Point) => p.x - m.x, m.x);
    SumShift(ps, Y(), (p: Point) => p.y - m.y, m.y);
  }

  lemma {:induction false} SumShift(ps: seq<Point>, f: Point -> real, g: Point -> real, c: real)
    requires forall p :: g(p) == f(p) - c
    ensures Sum(ps, g) == Sum(ps, f) - |ps| as real * c
  {
    if ps != [] {
      var n := |ps| - 1;
      SumShift(ps[..n], f, g, c);
      Distribute(c, n as real, 1.0);
    }
  }

  lemma {:induction false} FormScales(s: Cov, n: real, u: Vec)
    requires n > 0.0
    ensures Form(Cov(s.a / n, s.b / n, s.c / n), u) == Form(s, u) / n
  {
    var a, b, c := s.a / n, s.b / n, s.c / n;
    assert a * n == s.a && b * n == s.b && c * n == s.c;
    assert Form(Cov(a, b, c), u) * n == Form(s, u);
  }

  /** The covariance measures projected variance in every direction. */
  lemma {:induction false} VarianceIsForm(ps: seq<Point>, u: Vec)
    requires ps != []
    ensures ProjectedVariance(ps, u) == Form(Covariance(ps), u) && Form(Covariance(ps), u) >= 0.0
  {
    var n := |ps| as real;
    var s := Scatter(ps, Centre(ps));
    SpreadIsForm(ps, Centre(ps), u);
    FormScales(s, n, u);
    QuotientNonNegative(Form(s, u), n);
  }

  lemma QuotientNonNegative(x: real, n: real)
    requires x >= 0.0 && n > 0.0
    ensures x / n >= 0.0
  {
  }

  /** A form that is nowhere negative is positive semidefinite: this is the Cauchy-Schwarz inequality of the points. */
  lemma {:induction false} CauchySchwarz(k: Cov)
    requires forall u :: Form(k, u) >= 0.0
    ensures k.a >= 0.0 && k.c >= 0.0 && k.b * k.b <= k.a * k.c
  {
    assert Form(k, Vec(1.0, 0.0)) == k.a;
    assert Form(k, Vec(0.0, 1.0)) == k.c;
    var d := k.a * k.c - k.b * k.b;
    assert Form(k, Vec(-k.b, k.a)) == k.a * d by {
      FormAtMinor(k);
    }
    if k.a > 0.0 {
      NonNegativeFactor(k.a, d);
    } else {
      assert Form(k, Vec(-k.c, k.b)) == k.c * d by {
        FormAtMinor'(k);
      }
      if k.c > 0.0 {
        NonNegativeFactor(k.c, d);
      } else {
        assert Form(k, Vec(1.0, 1.0)) == 2.0 * k.b && Form(k, Vec(1.0, -1.0)) == -2.0 * k.b;
      }
    }
  }

  lemma FormAtMinor(k: Cov)
    ensures Form(k, Vec(-k.b, k.a)) == k.a * (k.a * k.c - k.b * k.b)
  {
  }

  lemma FormAtMinor'(k: Cov)
    ensures Form(k, Vec(-k.c, k.b)) == k.c * (k.a * k.c - k.b * k.b)
  {
  }

  lemma NonNegativeFactor(x: real, y: real)
    requires x > 0.0 && x * y >= 0.0
    ensures y >= 0.0
  {
  }

  // -- The closed form --------------------------------------------------------------------------------------

  function Discriminant(k: Cov): real {
    (k.a - k.c) * (k.a - k.c) + 4.0 * k.b * k.b
  }

  function MajorVar(k: Cov, d: real): real { (k.a + k.c + d) / 2.0 }
  function MinorVar(k: Cov, d: real): real { (k.a + k.c - d) / 2.0 }

  /** The two candidate eigenvectors, and the longer of them. */
  function Candidate(k: Cov, major: real): Vec {
    var v1, v2 := Vec(k.b, major - k.a), Vec(major - k.c, k.b);
    if v1.x * v1.x + v1.y * v1.y >= v2.x * v2.x + v2.y * v2.y then v1 else v2
  }

  function Direction(v: Vec, norm: real): Vec {
    if norm <= NORM_FLOOR then Vec(1.0, 0.0) else Vec(v.x / norm, v.y / norm)
  }

  function AxisOf(k: Cov, centre: Vec, sqrt: real -> real): Axis {
    var d := sqrt(Max(0.0, Discriminant(k)));
    var v := Candidate(k, MajorVar(k, d));
    Axis(centre, Direction(v, Hypot(sqrt, v.x, v.y)),
         sqrt(Max(0.0, MajorVar(k, d))), sqrt(Max(0.0, MinorVar(k, d))))
  }

  /** Nothing for fewer than three points. */
  function PrincipalAxisOf(ps: seq<Point>, sqrt: real -> real): Option<Axis> {
    if |ps| < 3 then None else Some(AxisOf(Covariance(ps), Centre(ps), sqrt))
  }

  /** How line-like the points are. */
  function Linearity(x: Axis): real {
    if x.majorSigma <= SIGMA_FLOOR then 0.0
    else Max(0.0, Min(1.0, 1.0 - x.minorSigma / x.majorSigma))
  }

  /** `d` is the root of the discriminant of a positive semidefinite `k`. */
  ghost predicate Rooted(k: Cov, d: real) {
    k.a >= 0.0 && k.c >= 0.0 && k.b * k.b <= k.a * k.c && d >= 0.0 && d * d == Discriminant(k)
  }

  lemma AbsWithinRoot(x: real, d: real)
    requires d >= 0.0 && x * x <= d * d
    ensures -d <= x <= d
  {
    if x >= 0.0 {
      SquareOrder(x, d);
    } else {
      assert (-x) * (-x) == x * x;
      SquareOrder(-x, d);
    }
  }

  /** The distances p, q of the diagonal from the major eigenvalue: non-negative, adding to the root, with product b
      squared. */
  lemma {:induction false} Gaps(k: Cov, d: real)
    requires Rooted(k, d)
    ensures var p, q := MajorVar(k, d) - k.a, MajorVar(k, d) - k.c;
            p >= 0.0 && q >= 0.0 && p + q == d && p * q == k.b * k.b
  {
    var h := k.a - k.c;
    SquareNonNegative(k.b);
    assert h * h <= d * d;
    AbsWithinRoot(h, d);
    var p, q := MajorVar(k, d) - k.a, MajorVar(k, d) - k.c;
    assert p == (d - h) / 2.0 && q == (d + h) / 2.0;
    assert 4.0 * (p * q) == d * d - h * h by {
      DifferenceOfSquares(d, h);
    }
  }

  lemma DifferenceOfSquares(d: real, h: real)
    ensures 4.0 * (((d - h) / 2.0) * ((d + h) / 2.0)) == d * d - h * h
  {
  }

  /** Both eigenvalues are non-negative, and the major one is the larger. */
  lemma {:induction false} EigenvaluesOrdered(k: Cov, d: real)
    requires Rooted(k, d)
    ensures MajorVar(k, d) >= MinorVar(k, d) >= 0.0
  {
    var t := k.a + k.c;
    assert t * t - d * d == 4.0 * (k.a * k.c - k.b * k.b) by {
      SumAndDifference(k.a, k.c);
    }
    AbsWithinRoot(d, t);
  }

  lemma SumAndDifference(a: real, c: real)
    ensures (a + c) * (a + c) - (a - c) * (a - c) == 4.0 * (a * c)
  {
  }

  /** A form with diagonal p, q >= 0 and off-diagonal b, b * b == p * q, is nowhere negative. */
  lemma DegenerateForm(p: real, q: real, b: real, x: real, y: real)
    requires p >= 0.0 && q >= 0.0 && p * q == b * b
    ensures p * (x * x) - 2.0 * b * (x * y) + q * (y * y) >= 0.0
  {
    var e := p * (x * x) - 2.0 * b * (x * y) + q * (y * y);
    SquareNonNegative(x);
    SquareNonNegative(y);
    if p > 0.0 {
      SquareNonNegative(p * x - b * y);
      CompleteSquare(p, q, b, x, y, e);
      NonNegativeFactor(p, e);
    } else {
      ZeroSquare(b);
      ProductNonNegative(q, y * y);
    }
  }

  lemma CompleteSquare(p: real, q: real, b: real, x: real, y: real, e: real)
    requires p * q == b * b
    requires e == p * (x * x) - 2.0 * b * (x * y) + q * (y * y)
    ensures p * e == Square(p * x - b * y)
  {
    assert p * (q * (y * y)) == (b * b) * (y * y);
  }

  lemma ZeroSquare(b: real)
    requires Square(b) == 0.0
    ensures b == 0.0
  {
    if b != 0.0 {
      PositiveSquare(b);
    }
  }

  ghost predicate Unit(u: Vec) {
    u.x * u.x + u.y * u.y == 1.0
  }

  /** In every direction the variance lies between the two eigenvalues. */
  lemma {:induction false} VarianceBounds(k: Cov, d: real, u: Vec)
    requires Rooted(k, d) && Unit(u)
    ensures MinorVar(k, d) <= Form(k, u) <= MajorVar(k, d)
  {
    var major, minor := MajorVar(k, d), MinorVar(k, d);
    var p, q := major - k.a, major - k.c;
    Gaps(k, d);
    DegenerateForm(p, q, k.b, u.x, u.y);
    FormFromAbove(k, major, u);
    DegenerateForm(q, p, -k.b, u.x, u.y);
    FormFromBelow(k, minor, u);
    assert k.a - minor == q && k.c - minor == p;
  }

  lemma {:induction false} FormFromAbove(k: Cov, major: real, u: Vec)
    requires Unit(u)
    ensures (major - k.a) * (u.x * u.x) - 2.0 * k.b * (u.x * u.y) + (major - k.c) * (u.y * u.y) == major - Form(k, u)
  {
    assert major * (u.x * u.x) + major * (u.y * u.y) == major * (u.x * u.x + u.y * u.y);
  }

  lemma {:induction false} FormFromBelow(k: Cov, minor: real, u: Vec)
    requires Unit(u)
    ensures (k.a - minor) * (u.x * u.x) - 2.0 * -k.b * (u.x * u.y) + (k.c - minor) * (u.y * u.y) == Form(k, u) - minor
  {
    assert minor * (u.x * u.x) + minor * (u.y * u.y) == minor * (u.x * u.x + u.y * u.y);
  }

  ghost predicate Eigen(k: Cov, m: real, v: Vec) {
    k.a * v.x + k.b * v.y == m * v.x && k.b * v.x + k.c * v.y == m * v.y
  }

  /** The candidate is an eigenvector of the major eigenvalue. */
  lemma {:induction false} CandidateIsEigenvector(k: Cov, d: real)
    requires Rooted(k, d)
    ensures Eigen(k, MajorVar(k, d), Candidate(k, MajorVar(k, d)))
  {
    var m := MajorVar(k, d);
    var p, q := m - k.a, m - k.c;
    Gaps(k, d);
    assert k.b * k.b + k.c * p == m * p by {
      assert p * q + k.c * p == p * (q + k.c);
    }
    assert k.a * q + k.b * k.b == m * q by {
      assert p * q + k.a * q == (p + k.a) * q;
    }
    assert k.a * k.b + k.b * p == m * k.b;
    assert k.b * q + k.c * k.b == m * k.b;
  }

  /** A short candidate means a nearly isotropic spread. */
  lemma {:induction false} ShortCandidate(k: Cov, d: real)
    requires Rooted(k, d)
    ensures var v := Candidate(k, MajorVar(k, d)); d * d <= 2.0 * (v.x * v.x + v.y * v.y)
  {
    var m := MajorVar(k, d);
    var p, q, v := m - k.a, m - k.c, Candidate(k, m);
    Gaps(k, d);
    assert (p + q) * (p + q) == p * p + 2.0 * (p * q) + q * q;
    assert 2.0 * (v.x * v.x + v.y * v.y) >= (k.b * k.b + p * p) + (q * q + k.b * k.b);
  }

  // -- The theorem about the points -------------------------------------------------------------------------

  function Root(k: Cov, sqrt: real -> real): real {
    sqrt(Max(0.0, Discriminant(k)))
  }

  lemma {:induction false} CovarianceRooted(ps: seq<Point>, sqrt: real -> real)
    requires ps != [] && IsSqrt(sqrt)
    ensures var k := Covariance(ps); Rooted(k, Root(k, sqrt))
  {
    var k := Covariance(ps);
    forall u ensures Form(k, u) >= 0.0 {
      VarianceIsForm(ps, u);
    }
    CauchySchwarz(k);
    DiscriminantNonNegative(k);
  }

  lemma {:induction false} DiscriminantNonNegative(k: Cov)
    ensures Discriminant(k) >= 0.0
  {
    SquareNonNegative(k.a - k.c);
    SquareNonNegative(k.b);
  }

  /** No root is ever taken of a negative number, so the squared lengths are the two eigenvalues. */
  lemma {:induction false} Sigmas(k: Cov, centre: Vec, sqrt: real -> real)
    requires IsSqrt(sqrt) && Rooted(k, Root(k, sqrt))
    ensures var x, d := AxisOf(k, centre, sqrt), Root(k, sqrt);
            && x.majorSigma >= x.minorSigma >= 0.0
            && Square(x.majorSigma) == MajorVar(k, d) && Square(x.minorSigma) == MinorVar(k, d)
            && MajorVar(k, d) >= MinorVar(k, d) >= 0.0
  {
    var d := Root(k, sqrt);
    EigenvaluesOrdered(k, d);
    RootOrder(sqrt, MinorVar(k, d), MajorVar(k, d));
  }

  lemma RootOrder(sqrt: real -> real, x: real, y: real)
    requires IsSqrt(sqrt) && 0.0 <= x <= y
    ensures 0.0 <= sqrt(x) <= sqrt(y) && Square(sqrt(x)) == x && Square(sqrt(y)) == y
  {
    SquareOrder(sqrt(x), sqrt(y));
  }

  /** The reported lengths are the standard deviations along and across: every direction's variance lies between their
      squares, the larger first. */
  lemma {:induction false} SigmasBoundEveryDirection(ps: seq<Point>, sqrt: real -> real, u: Vec)
    requires |ps| >= 3 && IsSqrt(sqrt) && Unit(u)
    ensures var x := PrincipalAxisOf(ps, sqrt).value;
            && x.majorSigma >= x.minorSigma >= 0.0
            && Square(x.minorSigma) <= ProjectedVariance(ps, u) <= Square(x.majorSigma)
  {
    var k := Covariance(ps);
    CovarianceRooted(ps, sqrt);
    Sigmas(k, Centre(ps), sqrt);
    VarianceIsForm(ps, u);
    VarianceBounds(k, Root(k, sqrt), u);
  }

  /** A unit eigenvector of `k` for the eigenvalue `m`, at which the form attains `m`. */
  ghost predicate Principal(k: Cov, m: real, u: Vec) {
    Unit(u) && Eigen(k, m, u) && Form(k, u) == m
  }

  /** Scaling an eigenvector to length one keeps it one, and the form attains the eigenvalue there. */
  lemma {:induction false} UnitEigenvector(k: Cov, m: real, v: Vec, norm: real)
    requires norm > 0.0 && norm * norm == v.x * v.x + v.y * v.y
    requires Eigen(k, m, v)
    ensures Principal(k, m, Vec(v.x / norm, v.y / norm))
  {
    var u := Vec(v.x / norm, v.y / norm);
    ScaledUnit(u, v, norm);
    ScaledEigen(k.a, k.b, m, u.x, u.y, norm, v.x, v.y);
    ScaledEigen(k.c, k.b, m, u.y, u.x, norm, v.y, v.x);
    FormAtEigenvector(k, m, u);
  }

  lemma {:induction false} ScaledUnit(u: Vec, v: Vec, norm: real)
    requires norm > 0.0 && Dot(v, v) == norm * norm
    requires v.x == u.x * norm && v.y == u.y * norm
    ensures Unit(u)
  {
    var nn, uu := norm * norm, Dot(u, u);
    MulPositive(norm, norm);
    assert nn == Mul(norm, norm);
    assert Dot(v, v) == uu * nn;
    CancelFactor(uu, nn, Dot(v, v));
  }

  lemma CancelFactor(x: real, y: real, z: real)
    requires y > 0.0 && z == x * y && z == y
    ensures x == 1.0
  {
    assert (x - 1.0) * y == 0.0;
  }

  lemma ScaledEigen(a: real, b: real, m: real, x: real, y: real, norm: real, vx: real, vy: real)
    requires norm > 0.0 && vx == x * norm && vy == y * norm
    requires a * vx + b * vy == m * vx
    ensures a * x + b * y == m * x
  {
    assert (a * x + b * y - m * x) * norm == 0.0;
  }

  lemma {:induction false} FormAtEigenvector(k: Cov, m: real, u: Vec)
    requires Unit(u) && Eigen(k, m, u)
    ensures Form(k, u) == m
  {
    assert Form(k, u) == u.x * (k.a * u.x + k.b * u.y) + u.y * (k.b * u.x + k.c * u.y);
    assert u.x * (m * u.x) + u.y * (m * u.y) == m * (u.x * u.x + u.y * u.y);
  }

  /** The length of the candidate, whose vanishing makes the axis fall back to +X. */
  function CandidateNorm(ps: seq<Point>, sqrt: real -> real): real
    requires ps != []
  {
    var k := Covariance(ps);
    var v := Candidate(k, MajorVar(k, Root(k, sqrt)));
    Hypot(sqrt, v.x, v.y)
  }

  lemma {:induction false} HypotSquared(sqrt: real -> real, v: Vec)
    requires IsSqrt(sqrt)
    ensures var n := Hypot(sqrt, v.x, v.y); n >= 0.0 && n * n == v.x * v.x + v.y * v.y
  {
    SquareNonNegative(v.x);
    SquareNonNegative(v.y);
  }

  /** The direction reported is a unit eigenvector of the covariance for the larger eigenvalue. */
  lemma {:induction false} DirectionIsEigenvector(ps: seq<Point>, sqrt: real -> real)
    requires |ps| >= 3 && IsSqrt(sqrt) && CandidateNorm(ps, sqrt) > NORM_FLOOR
    ensures var k, x := Covariance(ps), PrincipalAxisOf(ps, sqrt).value;
            Principal(k, Square(x.majorSigma), x.direction)
  {
    CovarianceRooted(ps, sqrt);
    AxisDirection(Covariance(ps), Centre(ps), sqrt);
  }

  lemma {:induction false} NormalisedEigenvector(k: Cov, m: real, sqrt: real -> real, v: Vec, n: real)
    requires IsSqrt(sqrt) && Eigen(k, m, v)
    requires n == Hypot(sqrt, v.x, v.y) && n > NORM_FLOOR
    ensures Principal(k, m, Vec(v.x / n, v.y / n))
  {
    HypotSquared(sqrt, v);
    UnitEigenvector(k, m, v, n);
  }

  lemma {:induction false} AxisDirection(k: Cov, centre: Vec, sqrt: real -> real)
    requires IsSqrt(sqrt) && Rooted(k, Root(k, sqrt))
    requires var v := Candidate(k, MajorVar(k, Root(k, sqrt))); Hypot(sqrt, v.x, v.y) > NORM_FLOOR
    ensures var x := AxisOf(k, centre, sqrt);
            Principal(k, Square(x.majorSigma), x.direction)
  {
    var d := Root(k, sqrt);
    var m := MajorVar(k, d);
    var v := Candidate(k, m);
    CandidateIsEigenvector(k, d);
    NormalisedEigenvector(k, m, sqrt, v, Hypot(sqrt, v.x, v.y));
    Sigmas(k, centre, sqrt);
  }

  /** Along the direction reported the points vary as much as along any direction at all. */
  lemma {:induction false} DirectionIsPrincipal(ps: seq<Point>, sqrt: real -> real, w: Vec)
    requires |ps| >= 3 && IsSqrt(sqrt) && CandidateNorm(ps, sqrt) > NORM_FLOOR && Unit(w)
    ensures var x := PrincipalAxisOf(ps, sqrt).value;
            && Unit(x.direction) && ProjectedVariance(ps, x.direction) == Square(x.majorSigma)
            && ProjectedVariance(ps, w) <= ProjectedVariance(ps, x.direction)
  {
    DirectionIsEigenvector(ps, sqrt);
    VarianceIsForm(ps, PrincipalAxisOf(ps, sqrt).value.direction);
    SigmasBoundEveryDirection(ps, sqrt, w);
  }

  /** The fallback fires only for spreads that are isotropic up to the floor: all directions vary within 2e-12 of each
      other. */
  lemma {:induction false} FallbackOnlyIsotropic(ps: seq<Point>, sqrt: real -> real, u: Vec)
    requires |ps| >= 3 && IsSqrt(sqrt) && Unit(u) && CandidateNorm(ps, sqrt) <= NORM_FLOOR
    ensures var x := PrincipalAxisOf(ps, sqrt).value;
            && x.direction == Vec(1.0, 0.0)
            && Square(x.majorSigma) - ProjectedVariance(ps, u) <= 2.0 * NORM_FLOOR
            && ProjectedVariance(ps, u) - Square(x.minorSigma) <= 2.0 * NORM_FLOOR
  {
    var k := Covariance(ps);
    CovarianceRooted(ps, sqrt);
    SmallRoot(k, sqrt);
    Sigmas(k, Centre(ps), sqrt);
    VarianceIsForm(ps, u);
    VarianceBounds(k, Root(k, sqrt), u);
  }

  lemma {:induction false} SmallRoot(k: Cov, sqrt: real -> real)
    requires IsSqrt(sqrt) && Rooted(k, Root(k, sqrt))
    requires var v := Candidate(k, MajorVar(k, Root(k, sqrt))); Hypot(sqrt, v.x, v.y) <= NORM_FLOOR
    ensures Root(k, sqrt) <= 2.0 * NORM_FLOOR
  {
    var d := Root(k, sqrt);
    var v := Candidate(k, MajorVar(k, d));
    var n := Hypot(sqrt, v.x, v.y);
    ShortCandidate(k, d);
    HypotSquared(sqrt, v);
    RootBelow(d, n, NORM_FLOOR, n * n);
  }

  lemma RootBelow(d: real, n: real, f: real, nn: real)
    requires d >= 0.0 && 0.0 <= n <= f && nn == n * n && d * d <= 2.0 * nn
    ensures d <= 2.0 * f
  {
    SquareOrder(n, f);
    SquareOrder(d, 2.0 * f);
    assert (2.0 * f) * (2.0 * f) == 4.0 * (f * f);
  }

  /** Linearity is 1 - minor / major as it stands: the clamp to [0, 1] never acts. */
  lemma {:induction false} LinearityUnclamped(ps: seq<Point>, sqrt: real -> real)
    requires |ps| >= 3 && IsSqrt(sqrt)
    ensures var x := PrincipalAxisOf(ps, sqrt).value;
            && 0.0 <= Linearity(x) <= 1.0
            && (x.majorSigma > 0.000000001 ==> Linearity(x) * x.majorSigma == x.majorSigma - x.minorSigma)
            && (x.majorSigma <= 0.000000001 ==> Linearity(x) == 0.0)
  {
    var x := PrincipalAxisOf(ps, sqrt).value;
    assert Unit(Vec(1.0, 0.0));
    SigmasBoundEveryDirection(ps, sqrt, Vec(1.0, 0.0));
    if x.majorSigma > SIGMA_FLOOR {
      RatioWithinOne(x.minorSigma, x.majorSigma);
    }
  }

  lemma RatioWithinOne(x: real, y: real)
    requires 0.0 <= x <= y && y > 0.0
    ensures 0.0 <= x / y <= 1.0 && (1.0 - x / y) * y == y - x
  {
    var q := x / y;
    assert q * y == x;
  }

  /** The direction at right angles. */
  function Across(u: Vec): Vec { Vec(-u.y, u.x) }

  lemma FormsAcross(k: Cov, u: Vec)
    requires Unit(u)
    ensures Form(k, u) + Form(k, Across(u)) == k.a + k.c
  {
    var xx, yy := u.x * u.x, u.y * u.y;
    assert Form(k, Across(u)) == yy * k.a - 2.0 * (u.x * u.y) * k.b + xx * k.c;
    SharedOut(xx, yy, k.a);
    SharedOut(xx, yy, k.c);
  }

  lemma SharedOut(s: real, t: real, x: real)
    requires s + t == 1.0
    ensures s * x + t * x == x
  {
  }

  lemma {:induction false} SigmasMultiply(k: Cov, centre: Vec, sqrt: real -> real)
    requires IsSqrt(sqrt) && Rooted(k, Root(k, sqrt))
    ensures var x := AxisOf(k, centre, sqrt); Square(x.majorSigma) * Square(x.minorSigma) == Determinant(k)
  {
    Sigmas(k, centre, sqrt);
    VarsMultiply(k, Root(k, sqrt));
  }

  lemma {:induction false} SigmasAdd(k: Cov, centre: Vec, sqrt: real -> real)
    requires IsSqrt(sqrt) && Rooted(k, Root(k, sqrt))
    ensures var x := AxisOf(k, centre, sqrt); Square(x.majorSigma) + Square(x.minorSigma) == k.a + k.c
    ensures var x := AxisOf(k, centre, sqrt); x.majorSigma >= x.minorSigma >= 0.0
  {
    Sigmas(k, centre, sqrt);
  }

  lemma {:induction false} VariancesAdd(ps: seq<Point>, u: Vec)
    requires ps != [] && Unit(u)
    ensures ProjectedVariance(ps, u) + ProjectedVariance(ps, Across(u)) == Covariance(ps).a + Covariance(ps).c
  {
    VarianceIsForm(ps, u);
    VarianceIsForm(ps, Across(u));
    FormsAcross(Covariance(ps), u);
  }

  function Determinant(k: Cov): real { k.a * k.c - k.b * k.b }

  /** The two lengths share out all of the spread: their squares add up to the variances along any two directions at
      right angles, and multiply to the determinant of the covariance. */
  lemma {:induction false} SigmasShareSpread(ps: seq<Point>, sqrt: real -> real, u: Vec)
    requires |ps| >= 3 && IsSqrt(sqrt) && Unit(u)
    ensures var x := PrincipalAxisOf(ps, sqrt).value;
            && Square(x.majorSigma) + Square(x.minorSigma)
               == ProjectedVariance(ps, u) + ProjectedVariance(ps, Across(u))
            && Square(x.majorSigma) * Square(x.minorSigma) == Determinant(Covariance(ps))
            && x.majorSigma >= x.minorSigma >= 0.0
  {
    var k := Covariance(ps);
    CovarianceRooted(ps, sqrt);
    SigmasAdd(k, Centre(ps), sqrt);
    SigmasMultiply(k, Centre(ps), sqrt);
    VariancesAdd(ps, u);
  }

  lemma VarsMultiply(k: Cov, d: real)
    requires d * d == Discriminant(k)
    ensures MajorVar(k, d) * MinorVar(k, d) == Determinant(k)
  {
    var t := k.a + k.c;
    assert (t + d) * (t - d) == t * t - d * d;
  }
}
