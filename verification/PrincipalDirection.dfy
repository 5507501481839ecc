/** Exactly when the reported axis is the principal one (principal_axis in ai/surgeguard_ai/queue/_spatial.py). */
module PrincipalDirection {
  import opened Common
  import opened Reals
  import opened Polygon
  import opened PrincipalAxis

  const ALONG_X := Vec(1.0, 0.0)
  const ALONG_Y := Vec(0.0, 1.0)
  const SLANTED := Vec(0.6, 0.8)

  // -- On the covariance ------------------------------------------------------------------------------------

  /** No direction gives `f` a larger value than `u`. */
  ghost predicate Most(f: Vec -> real, u: Vec) {
    Unit(u) && forall w :: Unit(w) ==> f(w) <= f(u)
  }

  /** `f` is the same in every direction. */
  ghost predicate Flat(f: Vec -> real) {
    forall u, w :: Unit(u) && Unit(w) ==> f(u) == f(w)
  }

  function FormOf(k: Cov): Vec -> real { (u: Vec) => Form(k, u) }

  lemma {:induction false} FormAtX(k: Cov)
    ensures Unit(ALONG_X) && FormOf(k)(ALONG_X) == k.a
  {
  }

  lemma {:induction false} FormAtY(k: Cov)
    ensures Unit(ALONG_Y) && FormOf(k)(ALONG_Y) == k.c
  {
  }

  lemma {:induction false} FormSlanted(k: Cov)
    ensures Unit(SLANTED) && FormOf(k)(SLANTED) == 0.36 * k.a + 0.96 * k.b + 0.64 * k.c
  {
  }

  lemma {:induction false} FormAlongX(k: Cov, w: Vec)
    requires Unit(w) && k.b == 0.0 && k.a >= k.c
    ensures Form(k, w) <= k.a
  {
    var x, y := Square(w.x), Square(w.y);
    SquareNonNegative(w.y);
    ProductNonNegative(k.a - k.c, y);
    Distribute(y, k.a, -k.c);
    Distribute(k.a, x, y);
  }

  lemma ZeroTimes(x: real, y: real)
    ensures x == 0.0 ==> x * y == 0.0
  {
  }

  lemma LongerThan(x: real, y: real, b: real, n: real)
    requires (x == b || y == b) && Square(b) > 0.0 && n >= 0.0 && n * n == x * x + y * y
    ensures n > 0.0
  {
    SquareNonNegative(x);
    SquareNonNegative(y);
    ZeroTimes(n, n);
  }

  lemma {:induction false} CandidateLength(k: Cov, m: real, sqrt: real -> real)
    requires IsSqrt(sqrt) && k.b != 0.0
    ensures var v := Candidate(k, m);
            Hypot(sqrt, v.x, v.y) > 0.0 && Hypot(sqrt, v.x, v.y) * Hypot(sqrt, v.x, v.y) == v.x * v.x + v.y * v.y
  {
    var v := Candidate(k, m);
    HypotSquared(sqrt, v);
    PositiveSquare(k.b);
    LongerThan(v.x, v.y, k.b, Hypot(sqrt, v.x, v.y));
  }

  lemma {:induction false} MajorAboveDiagonal(k: Cov, d: real)
    requires Rooted(k, d) && k.b != 0.0
    ensures MajorVar(k, d) > k.a
  {
    Gaps(k, d);
    PositiveSquare(k.b);
    ZeroTimes(MajorVar(k, d) - k.a, MajorVar(k, d) - k.c);
  }

  /** A correlation lets some direction beat +X. */
  lemma {:induction false} TiltedBeatsX(k: Cov, sqrt: real -> real) returns (w: Vec)
    requires IsSqrt(sqrt) && Rooted(k, Root(k, sqrt)) && k.b != 0.0
    ensures Unit(w) && FormOf(k)(w) > k.a
  {
    var d := Root(k, sqrt);
    var v := Candidate(k, MajorVar(k, d));
    var n := Hypot(sqrt, v.x, v.y);
    CandidateLength(k, MajorVar(k, d), sqrt);
    CandidateIsEigenvector(k, d);
    UnitEigenvector(k, MajorVar(k, d), v, n);
    MajorAboveDiagonal(k, d);
    w := Vec(v.x / n, v.y / n);
  }

  lemma {:induction false} Beaten(f: Vec -> real, u: Vec, w: Vec)
    requires Unit(w) && f(w) > f(u)
    ensures !Most(f, u)
  {
  }

  lemma {:induction false} FlatAt(f: Vec -> real, u: Vec, w: Vec)
    requires Flat(f) && Unit(u) && Unit(w)
    ensures f(u) == f(w)
  {
  }

  lemma {:induction false} BoundedByX(k: Cov)
    requires k.b == 0.0 && k.a >= k.c
    ensures forall w :: Unit(w) ==> FormOf(k)(w) <= k.a
  {
    forall w | Unit(w) ensures FormOf(k)(w) <= k.a {
      FormAlongX(k, w);
    }
  }

  lemma {:induction false} BoundIsMost(f: Vec -> real, u: Vec, a: real)
    requires Unit(u) && f(u) == a && forall w :: Unit(w) ==> f(w) <= a
    ensures Most(f, u)
  {
  }

  lemma {:induction false} XIsMost(k: Cov)
    requires k.b == 0.0 && k.a >= k.c
    ensures Most(FormOf(k), ALONG_X)
  {
    BoundedByX(k);
    FormAtX(k);
    BoundIsMost(FormOf(k), ALONG_X, k.a);
  }

  /** A direction in which the form exceeds the value at +X. */
  lemma {:induction false} BetterThanX(k: Cov, sqrt: real -> real) returns (w: Vec)
    requires IsSqrt(sqrt) && Rooted(k, Root(k, sqrt)) && (k.b != 0.0 || k.c > k.a)
    ensures Unit(w) && FormOf(k)(w) > k.a
  {
    if k.b != 0.0 {
      w := TiltedBeatsX(k, sqrt);
    } else {
      FormAtY(k);
      w := ALONG_Y;
    }
  }

  lemma {:induction false} XIsNotMost(k: Cov, sqrt: real -> real)
    requires IsSqrt(sqrt) && Rooted(k, Root(k, sqrt)) && (k.b != 0.0 || k.c > k.a)
    ensures !Most(FormOf(k), ALONG_X)
  {
    var w := BetterThanX(k, sqrt);
    FormAtX(k);
    Beaten(FormOf(k), ALONG_X, w);
  }

  /** +X is best exactly when the coordinates are uncorrelated and the first varies at least as much. */
  lemma {:induction false} XIsMostIff(k: Cov, sqrt: real -> real)
    requires IsSqrt(sqrt) && Rooted(k, Root(k, sqrt))
    ensures Most(FormOf(k), ALONG_X) <==> k.b == 0.0 && k.a >= k.c
  {
    if k.b == 0.0 && k.a >= k.c {
      XIsMost(k);
    } else {
      XIsNotMost(k, sqrt);
    }
  }

  lemma {:induction false} ZeroCandidate(k: Cov, sqrt: real -> real, n: real)
    requires IsSqrt(sqrt) && Rooted(k, Root(k, sqrt)) && n == 0.0
    requires var v := Candidate(k, MajorVar(k, Root(k, sqrt))); Hypot(sqrt, v.x, v.y) == n
    ensures Flat(FormOf(k))
  {
    var d := Root(k, sqrt);
    ShortCandidate(k, d);
    HypotSquared(sqrt, Candidate(k, MajorVar(k, d)));
    ZeroTimes(n, n);
    RootBelow(d, 0.0, 0.0, 0.0);
    assert MajorVar(k, d) == MinorVar(k, d);
    forall u | Unit(u) ensures FormOf(k)(u) == MajorVar(k, d) {
      VarianceBounds(k, d, u);
    }
  }

  lemma {:induction false} FlatDiagonal(k: Cov)
    requires Flat(FormOf(k))
    ensures k.a == k.c
  {
    FormAtX(k);
    FormAtY(k);
    FlatAt(FormOf(k), ALONG_X, ALONG_Y);
  }

  lemma {:induction false} FlatIsScalar(k: Cov)
    requires Flat(FormOf(k))
    ensures k.a == k.c && k.b == 0.0
  {
    FlatDiagonal(k);
    FormAtX(k);
    FormSlanted(k);
    FlatAt(FormOf(k), ALONG_X, SLANTED);
  }

  lemma RootIs(sqrt: real -> real, x: real, y: real)
    requires IsSqrt(sqrt) && y >= 0.0 && x == y * y
    ensures sqrt(x) == y
  {
    SquareNonNegative(y);
    var r := sqrt(x);
    assert r >= 0.0 && r * r == x;
    SquareOrder(r, y);
    SquareOrder(y, r);
  }

  lemma {:induction false} ScalarHasNoCandidate(k: Cov, sqrt: real -> real)
    requires IsSqrt(sqrt) && k.a == k.c && k.b == 0.0
    ensures var v := Candidate(k, MajorVar(k, Root(k, sqrt))); Hypot(sqrt, v.x, v.y) == 0.0
  {
    RootIs(sqrt, 0.0, 0.0);
    assert Discriminant(k) == 0.0;
    assert Candidate(k, MajorVar(k, 0.0)) == Vec(0.0, 0.0);
  }

  // -- On the points ----------------------------------------------------------------------------------------

  /** The spread of the points in each direction. */
  function SpreadOf(ps: seq<Point>): Vec -> real
    requires ps != []
  {
    (u: Vec) => ProjectedVariance(ps, u)
  }

  /** No direction shows more spread than `u`. */
  ghost predicate VariesMost(ps: seq<Point>, u: Vec)
    requires ps != []
  {
    Most(SpreadOf(ps), u)
  }

  /** All directions show the same spread. */
  ghost predicate Isotropic(ps: seq<Point>)
    requires ps != []
  {
    Flat(SpreadOf(ps))
  }

  lemma {:induction false} SameMost(f: Vec -> real, g: Vec -> real, u: Vec)
    requires forall w :: f(w) == g(w)
    ensures (Most(f, u) <==> Most(g, u)) && (Flat(f) <==> Flat(g))
  {
  }

  lemma {:induction false} MostOnPoints(ps: seq<Point>, u: Vec)
    requires ps != []
    ensures VariesMost(ps, u) <==> Most(FormOf(Covariance(ps)), u)
    ensures Isotropic(ps) <==> Flat(FormOf(Covariance(ps)))
  {
    forall w ensures SpreadOf(ps)(w) == FormOf(Covariance(ps))(w) {
      VarianceIsForm(ps, w);
    }
    SameMost(SpreadOf(ps), FormOf(Covariance(ps)), u);
  }

  /** The direction reported shows the largest spread if and only if the candidate vector is longer than the floor, or
      the coordinates are uncorrelated and the first one varies at least as much as the second. */
  lemma {:induction false} DirectionVariesMostIff(ps: seq<Point>, sqrt: real -> real)
    requires |ps| >= 3 && IsSqrt(sqrt)
    ensures var k, x := Covariance(ps), PrincipalAxisOf(ps, sqrt).value;
            VariesMost(ps, x.direction) <==> CandidateNorm(ps, sqrt) > NORM_FLOOR || (k.b == 0.0 && k.a >= k.c)
  {
    var x := PrincipalAxisOf(ps, sqrt).value;
    if CandidateNorm(ps, sqrt) > NORM_FLOOR {
      forall w | Unit(w) ensures SpreadOf(ps)(w) <= SpreadOf(ps)(x.direction) {
        DirectionIsPrincipal(ps, sqrt, w);
      }
      FormAtX(Covariance(ps));
      DirectionIsPrincipal(ps, sqrt, ALONG_X);
    } else {
      assert x.direction == ALONG_X;
      CovarianceRooted(ps, sqrt);
      XIsMostIff(Covariance(ps), sqrt);
      MostOnPoints(ps, ALONG_X);
    }
  }

  /** The candidate vanishes if and only if the spread is the same in every direction: with a floor of zero the
      fallback would fire for isotropic spread, and for no other. */
  lemma {:induction false} NoCandidateIffIsotropic(ps: seq<Point>, sqrt: real -> real)
    requires ps != [] && IsSqrt(sqrt)
    ensures CandidateNorm(ps, sqrt) == 0.0 <==> Isotropic(ps)
  {
    var k := Covariance(ps);
    CovarianceRooted(ps, sqrt);
    MostOnPoints(ps, ALONG_X);
    if CandidateNorm(ps, sqrt) == 0.0 {
      ZeroCandidate(k, sqrt, 0.0);
    }
    if Flat(FormOf(k)) {
      FlatIsScalar(k);
      ScalarHasNoCandidate(k, sqrt);
    }
  }

  // -- A line reported across itself --------------------------------------------------------------------------

  /** Two people at each end of an upright line through the origin. */
  function Upright(t: real): seq<Point> {
    [Point(0.0, -t), Point(0.0, t), Point(0.0, -t), Point(0.0, t)]
  }

  lemma {:induction false} SumOfFour(a: Point, b: Point, c: Point, d: Point, f: Point -> real)
    ensures Sum([a, b, c, d], f) == f(a) + f(b) + f(c) + f(d)
  {
    assert [a, b, c, d][..3] == [a, b, c] && [a, b, c][..2] == [a, b] && [a, b][..1] == [a] && [a][..0] == [];
    assert Sum([a][..0], f) == 0.0;
    assert Sum([a], f) == f(a);
    assert Sum([a, b], f) == f(a) + f(b);
    assert Sum([a, b, c], f) == f(a) + f(b) + f(c);
  }

  lemma UprightCentre(t: real)
    ensures Centre(Upright(t)) == Vec(0.0, 0.0)
  {
    SumOfFour(Point(0.0, -t), Point(0.0, t), Point(0.0, -t), Point(0.0, t), X());
    SumOfFour(Point(0.0, -t), Point(0.0, t), Point(0.0, -t), Point(0.0, t), Y());
  }

  lemma DeviationsFromOrigin(y: real)
    ensures var o, p := Vec(0.0, 0.0), Point(0.0, y);
            DevXX(o)(p) == 0.0 && DevXY(o)(p) == 0.0 && DevYY(o)(p) == Square(y)
  {
  }

  lemma UprightScatter(t: real)
    ensures Scatter(Upright(t), Vec(0.0, 0.0)) == Cov(0.0, 0.0, 4.0 * Square(t))
  {
    var o, p, q := Vec(0.0, 0.0), Point(0.0, -t), Point(0.0, t);
    DeviationsFromOrigin(t);
    DeviationsFromOrigin(-t);
    assert Square(-t) == Square(t);
    SumOfFour(p, q, p, q, DevXX(o));
    SumOfFour(p, q, p, q, DevXY(o));
    SumOfFour(p, q, p, q, DevYY(o));
  }

  lemma UprightCovariance(t: real)
    ensures Covariance(Upright(t)) == Cov(0.0, 0.0, Square(t))
  {
    UprightCentre(t);
    UprightScatter(t);
    assert |Upright(t)| == 4;
  }

  lemma {:induction false} UprightRoot(k: Cov, s: real, sqrt: real -> real)
    requires IsSqrt(sqrt) && s >= 0.0 && k == Cov(0.0, 0.0, s)
    ensures Root(k, sqrt) == s
  {
    SquareNonNegative(s);
    RootIs(sqrt, Discriminant(k), s);
  }

  lemma {:induction false} UprightCandidate(k: Cov, s: real, sqrt: real -> real)
    requires IsSqrt(sqrt) && s >= 0.0 && k == Cov(0.0, 0.0, s)
    ensures MajorVar(k, s) == s && MinorVar(k, s) == 0.0
    ensures Candidate(k, MajorVar(k, s)) == Vec(0.0, s) && Hypot(sqrt, 0.0, s) == s
  {
    UprightVars(k, s);
    LongerCandidate(k, s);
    UprightLength(sqrt, s);
  }

  lemma UprightVars(k: Cov, s: real)
    requires k == Cov(0.0, 0.0, s)
    ensures MajorVar(k, s) == s && MinorVar(k, s) == 0.0
  {
  }

  lemma LongerCandidate(k: Cov, s: real)
    requires k == Cov(0.0, 0.0, s)
    ensures Candidate(k, s) == Vec(0.0, s)
  {
    SquareNonNegative(s);
  }

  lemma UprightLength(sqrt: real -> real, s: real)
    requires IsSqrt(sqrt) && s >= 0.0
    ensures Hypot(sqrt, 0.0, s) == s
  {
    RootIs(sqrt, 0.0 * 0.0 + s * s, s);
  }

  /** The axis from its parts. */
  lemma {:induction false} AxisParts(k: Cov, centre: Vec, sqrt: real -> real, d: real, v: Vec, n: real, x: Axis)
    requires d == Root(k, sqrt) && v == Candidate(k, MajorVar(k, d)) && n == Hypot(sqrt, v.x, v.y)
    requires x.centre == centre && x.direction == Direction(v, n)
    requires x.majorSigma == sqrt(Max(0.0, MajorVar(k, d))) && x.minorSigma == sqrt(Max(0.0, MinorVar(k, d)))
    ensures AxisOf(k, centre, sqrt) == x
  {
  }

  lemma {:induction false} UprightSigmas(k: Cov, s: real, t: real, sqrt: real -> real)
    requires IsSqrt(sqrt) && 0.0 <= t && s == t * t && MajorVar(k, s) == s && MinorVar(k, s) == 0.0
    ensures s >= 0.0 && sqrt(Max(0.0, MajorVar(k, s))) == t && sqrt(Max(0.0, MinorVar(k, s))) == 0.0
  {
    SquareNonNegative(t);
    RootIs(sqrt, s, t);
    RootIs(sqrt, 0.0, 0.0);
  }

  lemma {:induction false} UprightAxis(t: real, s: real, k: Cov, centre: Vec, sqrt: real -> real)
    requires IsSqrt(sqrt) && 0.0 <= t && s == t * t && 0.0 <= s <= NORM_FLOOR && k == Cov(0.0, 0.0, s)
    ensures AxisOf(k, centre, sqrt) == Axis(centre, ALONG_X, t, 0.0)
  {
    UprightRoot(k, s, sqrt);
    UprightCandidate(k, s, sqrt);
    UprightSigmas(k, s, t, sqrt);
    AxisParts(k, centre, sqrt, s, Vec(0.0, s), s, Axis(centre, ALONG_X, t, 0.0));
  }

  /** A line at least a billionth and at most a millionth of a unit to either side: a perfect line, with a linearity of
      one, that is reported at right angles to itself, along a direction in which nothing varies. */
  lemma {:induction false} ShortLineAcross(t: real, sqrt: real -> real)
    requires IsSqrt(sqrt) && SIGMA_FLOOR < t && Square(t) <= NORM_FLOOR
    ensures var ps, x := Upright(t), PrincipalAxisOf(Upright(t), sqrt).value;
            && x.direction == ALONG_X && Linearity(x) == 1.0
            && ProjectedVariance(ps, x.direction) == 0.0 && ProjectedVariance(ps, ALONG_Y) == Square(x.majorSigma) > 0.0
            && !VariesMost(ps, x.direction)
  {
    UprightSpread(t);
    PositiveSquare(t);
    Beaten(SpreadOf(Upright(t)), ALONG_X, ALONG_Y);
    UprightAxisOfPoints(t, sqrt);
  }

  lemma {:induction false} SpreadAtAxes(ps: seq<Point>, k: Cov)
    requires ps != [] && k == Covariance(ps)
    ensures SpreadOf(ps)(ALONG_X) == k.a && SpreadOf(ps)(ALONG_Y) == k.c
  {
    FormAtX(k);
    VarianceIsForm(ps, ALONG_X);
    SpreadAtY(ps, k);
  }

  lemma {:induction false} SpreadAtY(ps: seq<Point>, k: Cov)
    requires ps != [] && k == Covariance(ps)
    ensures SpreadOf(ps)(ALONG_Y) == k.c
  {
    FormAtY(k);
    VarianceIsForm(ps, ALONG_Y);
  }

  lemma UprightSpread(t: real)
    ensures Unit(ALONG_Y) && SpreadOf(Upright(t))(ALONG_X) == 0.0 && SpreadOf(Upright(t))(ALONG_Y) == Square(t)
  {
    UprightCovariance(t);
    SpreadAtAxes(Upright(t), Covariance(Upright(t)));
  }

  lemma {:induction false} UprightAxisOfPoints(t: real, sqrt: real -> real)
    requires IsSqrt(sqrt) && SIGMA_FLOOR < t && Square(t) <= NORM_FLOOR
    ensures PrincipalAxisOf(Upright(t), sqrt) == Some(Axis(Centre(Upright(t)), ALONG_X, t, 0.0))
    ensures Linearity(PrincipalAxisOf(Upright(t), sqrt).value) == 1.0
  {
    var x := Axis(Centre(Upright(t)), ALONG_X, t, 0.0);
    UprightCovariance(t);
    SquareNonNegative(t);
    UprightAxis(t, Square(t), Covariance(Upright(t)), Centre(Upright(t)), sqrt);
    LineIsLinear(x);
  }

  lemma {:induction false} LineIsLinear(x: Axis)
    requires x.minorSigma == 0.0 && x.majorSigma > SIGMA_FLOOR
    ensures Linearity(x) == 1.0
  {
    QuotientOrder(0.0, 0.0, x.majorSigma);
  }

  /** There are such lines. */
  lemma ShortLineExists()
    ensures SIGMA_FLOOR < 0.0000001 && Square(0.0000001) <= NORM_FLOOR
  {
  }
}
