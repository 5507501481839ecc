/** Gaps between the people of a queue along its axis, and how far they head the same way
    (ai/surgeguard_ai/queue/_spatial.py). */
module Spacing {
  import opened Common
  import opened Reals
  import opened Medians
  import PrincipalAxis
  import Polygon

  type Vec = PrincipalAxis.Vec

  /** Distances along the axis from its centre. */
  function Projections(ps: seq<Polygon.Point>, axis: PrincipalAxis.Axis): seq<real> {
    seq(|ps|, i requires 0 <= i < |ps| => PrincipalAxis.Dot(PrincipalAxis.Dev(ps[i], axis.centre), axis.direction))
  }

  function GapsOf(s: seq<real>): seq<real> {
    if |s| < 2 then [] else GapsOf(s[..|s| - 1]) + [s[|s| - 1] - s[|s| - 2]]
  }

  function SpacingAlongAxis(ps: seq<Polygon.Point>, axis: PrincipalAxis.Axis): seq<real> {
    GapsOf(Sort(Projections(ps, axis)))
  }

  function Total(s: seq<real>): real {
    if s == [] then 0.0 else Total(s[..|s| - 1]) + s[|s| - 1]
  }

  lemma {:induction false} GapsTelescope(s: seq<real>)
    requires s != [] && Ascending(s)
    ensures |GapsOf(s)| == |s| - 1 && Total(GapsOf(s)) == s[|s| - 1] - s[0]
    ensures forall i :: 0 <= i < |s| - 1 ==> GapsOf(s)[i] == s[i + 1] - s[i] >= 0.0
  {
    if |s| > 1 {
      var n := |s| - 1;
      GapsTelescope(s[..n]);
      var gaps := GapsOf(s);
      assert gaps[..n - 1] == GapsOf(s[..n]);
    }
  }

  lemma {:induction false} SortMembers(s: seq<real>)
    ensures forall x :: x in Sort(s) <==> x in s
  {
    if s != [] {
      var n := |s| - 1;
      assert s == s[..n] + [s[n]];
      SortMembers(s[..n]);
      InsertMembers(Sort(s[..n]), s[n]);
    }
  }

  /** The smallest and the largest of a set of distances. */
  ghost predicate Extremes(xs: seq<real>, lo: real, hi: real) {
    lo in xs && hi in xs && forall x :: x in xs ==> lo <= x <= hi
  }

  lemma {:induction false} SortedExtremes(xs: seq<real>)
    requires xs != []
    ensures |Sort(xs)| == |xs| && Ascending(Sort(xs)) && Extremes(xs, Sort(xs)[0], Sort(xs)[|xs| - 1])
  {
    var t := Sort(xs);
    SortKeeps(xs, AtMost(0.0));
    SortMembers(xs);
    assert t[0] in t && t[|t| - 1] in t;
    forall x | x in xs ensures t[0] <= x <= t[|t| - 1] {
      var i :| 0 <= i < |t| && t[i] == x;
    }
  }

  /** No gap is negative, and together they measure the queue: their sum is the distance between the two people furthest
      apart along the axis. */
  lemma {:induction false} GapsMeasureTheQueue(ps: seq<Polygon.Point>, axis: PrincipalAxis.Axis)
    requires |ps| >= 2
    ensures var gaps, xs := SpacingAlongAxis(ps, axis), Projections(ps, axis);
            && |gaps| == |ps| - 1 && (forall i :: 0 <= i < |gaps| ==> gaps[i] >= 0.0)
            && exists lo, hi :: Extremes(xs, lo, hi) && Total(gaps) == hi - lo
  {
    var xs := Projections(ps, axis);
    SortedExtremes(xs);
    GapsTelescope(Sort(xs));
    forall i | 0 <= i < |xs| - 1 ensures GapsOf(Sort(xs))[i] >= 0.0 {
      assert GapsOf(Sort(xs))[i] == Sort(xs)[i + 1] - Sort(xs)[i];
    }
    assert Extremes(xs, Sort(xs)[0], Sort(xs)[|xs| - 1]);
  }

  /** Each gap is that between neighbours: the people's distances along the axis, put in order, differ by the gaps. */
  lemma {:induction false} GapsAreBetweenNeighbours(ps: seq<Polygon.Point>, axis: PrincipalAxis.Axis)
    ensures exists t :: IsSorted(t, Projections(ps, axis)) && |t| == |ps|
                        && |SpacingAlongAxis(ps, axis)| == (if |ps| < 2 then 0 else |ps| - 1)
                        && forall i :: 0 <= i < |ps| - 1 ==> SpacingAlongAxis(ps, axis)[i] == t[i + 1] - t[i]
  {
    var xs := Projections(ps, axis);
    SortPermutes(xs);
    assert IsSorted(Sort(xs), xs);
    if ps != [] {
      GapsTelescope(Sort(xs));
    }
  }

  // -- Heading coherence ------------------------------------------------------------------------------------

  const STANDING: real := 0.000001

  function Length(sqrt: real -> real, v: Vec): real { Hypot(sqrt, v.x, v.y) }

  /** The heading of a velocity, which is too slow to have one when negligible. */
  function Headings(sqrt: real -> real, vs: seq<Vec>): seq<Vec> {
    if vs == [] then []
    else
      var v := vs[|vs| - 1];
      var length := Length(sqrt, v);
      Headings(sqrt, vs[..|vs| - 1]) +
      (if length > STANDING then [PrincipalAxis.Vec(v.x / length, v.y / length)] else [])
  }

  function Sum(us: seq<Vec>): Vec {
    if us == [] then PrincipalAxis.Vec(0.0, 0.0)
    else
      var s, u := Sum(us[..|us| - 1]), us[|us| - 1];
      PrincipalAxis.Vec(s.x + u.x, s.y + u.y)
  }

  function Ratio(x: real, n: nat): real
    requires n > 0
  {
    x / n as real
  }

  /** The resultant length of the headings, per heading. */
  function Coherence(sqrt: real -> real, vs: seq<Vec>): Option<real> {
    var us := Headings(sqrt, vs);
    if |us| < 2 then None else Some(Max(0.0, Min(1.0, Ratio(Length(sqrt, Sum(us)), |us|))))
  }

  ghost predicate AllUnit(us: seq<Vec>) {
    forall u :: u in us ==> PrincipalAxis.Unit(u)
  }

  lemma {:induction false} HeadingIsUnit(sqrt: real -> real, v: Vec)
    requires IsSqrt(sqrt) && Length(sqrt, v) > 0.0
    ensures PrincipalAxis.Unit(PrincipalAxis.Vec(v.x / Length(sqrt, v), v.y / Length(sqrt, v)))
  {
    var length := Length(sqrt, v);
    PrincipalAxis.HypotSquared(sqrt, v);
    QuotientOrder(v.x, v.x, length);
    QuotientOrder(v.y, v.y, length);
    PrincipalAxis.ScaledUnit(PrincipalAxis.Vec(v.x / length, v.y / length), v, length);
  }

  lemma {:induction false} HeadingsAreUnit(sqrt: real -> real, vs: seq<Vec>)
    requires IsSqrt(sqrt)
    ensures AllUnit(Headings(sqrt, vs))
  {
    if vs != [] {
      var n := |vs| - 1;
      var v := vs[n];
      HeadingsAreUnit(sqrt, vs[..n]);
      var length := Length(sqrt, v);
      if length > STANDING {
        HeadingIsUnit(sqrt, v);
      }
    }
  }

  /** Adding a unit vector lengthens a sum by at most one. */
  lemma OneLonger(sx: real, sy: real, ux: real, uy: real, n: real)
    requires n >= 0.0 && sx * sx + sy * sy <= n * n && ux * ux + uy * uy == 1.0
    ensures (sx + ux) * (sx + ux) + (sy + uy) * (sy + uy) <= (n + 1.0) * (n + 1.0)
  {
    var dot, cross := sx * ux + sy * uy, sx * uy - sy * ux;
    Lagrange(sx, sy, ux, uy);
    SquareNonNegative(cross);
    assert dot * dot <= n * n;
    if dot > 0.0 {
      SquareOrder(dot, n);
    }
    assert dot <= n;
    Binomial(sx, sy, ux, uy, dot);
  }

  lemma Lagrange(sx: real, sy: real, ux: real, uy: real)
    requires ux * ux + uy * uy == 1.0
    ensures (sx * ux + sy * uy) * (sx * ux + sy * uy) + (sx * uy - sy * ux) * (sx * uy - sy * ux) == sx * sx + sy * sy
  {
    assert (sx * sx + sy * sy) * (ux * ux + uy * uy) == sx * sx + sy * sy;
  }

  lemma Binomial(sx: real, sy: real, ux: real, uy: real, dot: real)
    requires dot == sx * ux + sy * uy && ux * ux + uy * uy == 1.0
    ensures (sx + ux) * (sx + ux) + (sy + uy) * (sy + uy) == sx * sx + sy * sy + 2.0 * dot + 1.0
  {
  }

  lemma {:induction false} SumNoLonger(us: seq<Vec>)
    requires AllUnit(us)
    ensures Sum(us).x * Sum(us).x + Sum(us).y * Sum(us).y <= |us| as real * |us| as real
  {
    if us != [] {
      var n := |us| - 1;
      assert us[n] in us;
      SumNoLonger(us[..n]);
      OneLonger(Sum(us[..n]).x, Sum(us[..n]).y, us[n].x, us[n].y, n as real);
    }
  }

  lemma {:induction false} RatioAtMostOne(x: real, n: nat)
    requires n > 0 && 0.0 <= x
    ensures 0.0 <= Ratio(x, n) && (x <= n as real ==> Ratio(x, n) <= 1.0) && (x == n as real ==> Ratio(x, n) == 1.0)
  {
    QuotientOrder(x, n as real, n as real);
    QuotientOrder(0.0, x, n as real);
  }

  /** Coherence needs no clamp: by the triangle inequality no resultant is longer than the headings are many. */
  lemma {:induction false} CoherenceUnclamped(sqrt: real -> real, vs: seq<Vec>)
    requires IsSqrt(sqrt) && |Headings(sqrt, vs)| >= 2
    ensures var us := Headings(sqrt, vs);
            && 0.0 <= Ratio(Length(sqrt, Sum(us)), |us|) <= 1.0
            && Coherence(sqrt, vs) == Some(Ratio(Length(sqrt, Sum(us)), |us|))
  {
    var us := Headings(sqrt, vs);
    HeadingsAreUnit(sqrt, vs);
    SumNoLonger(us);
    HypotWithin(sqrt, Sum(us).x, Sum(us).y, |us| as real);
    RatioAtMostOne(Length(sqrt, Sum(us)), |us|);
  }

  /** `u` is the heading of `v`: a unit vector the same way. */
  ghost predicate IsHeading(u: Vec, v: Vec) {
    PrincipalAxis.Unit(u) && exists length :: length > STANDING && v == Multiple(length, u)
  }

  lemma {:induction false} HeadingOf(sqrt: real -> real, v: Vec)
    requires IsSqrt(sqrt) && Length(sqrt, v) > STANDING
    ensures IsHeading(PrincipalAxis.Vec(v.x / Length(sqrt, v), v.y / Length(sqrt, v)), v)
  {
    var length := Length(sqrt, v);
    var u := PrincipalAxis.Vec(v.x / length, v.y / length);
    HeadingIsUnit(sqrt, v);
    QuotientOrder(v.x, v.x, length);
    QuotientOrder(v.y, v.y, length);
    assert v == Multiple(length, u);
  }

  /** Fast enough to have a heading. */
  function Moves(): Vec -> bool {
    (v: Vec) => v.x * v.x + v.y * v.y > 0.000001 * 0.000001
  }

  ghost predicate AreHeadings(us: seq<Vec>, vs: seq<Vec>) {
    |us| == |vs| && forall i :: 0 <= i < |us| ==> IsHeading(us[i], vs[i])
  }

  lemma {:induction false} HeadingsAre(sqrt: real -> real, vs: seq<Vec>)
    requires IsSqrt(sqrt)
    ensures AreHeadings(Headings(sqrt, vs), Filter(vs, Moves()))
  {
    if vs != [] {
      var n := |vs| - 1;
      HeadingsAre(sqrt, vs[..n]);
      HypotWithin(sqrt, vs[n].x, vs[n].y, STANDING);
      if Length(sqrt, vs[n]) > STANDING {
        HeadingOf(sqrt, vs[n]);
      }
    }
  }

  lemma RatioTimes(x: real, n: nat)
    requires n > 0
    ensures Ratio(x, n) * n as real == x
  {
  }

  /** `r` times the number that move is the length of the sum of their headings. */
  ghost predicate IsResultant(us: seq<Vec>, moving: seq<Vec>, r: real) {
    && AreHeadings(us, moving) && r >= 0.0
    && Square(r * |moving| as real) == Square(Sum(us).x) + Square(Sum(us).y)
  }

  lemma SameSquare(x: real, y: real, z: real)
    requires x == y && Square(y) == z
    ensures Square(x) == z
  {
  }

  lemma {:induction false} ResultantIs(sqrt: real -> real, us: seq<Vec>, moving: seq<Vec>)
    requires IsSqrt(sqrt) && AreHeadings(us, moving) && us != []
    ensures IsResultant(us, moving, Ratio(Length(sqrt, Sum(us)), |us|))
  {
    var length := Length(sqrt, Sum(us));
    PrincipalAxis.HypotSquared(sqrt, Sum(us));
    RatioTimes(length, |us|);
    HypotWithin(sqrt, Sum(us).x, Sum(us).y, length);
    RatioAtMostOne(length, |us|);
    SameSquare(Ratio(length, |us|) * |moving| as real, length, Square(Sum(us).x) + Square(Sum(us).y));
  }

  /** Coherence by its meaning: nothing for fewer than two that move; otherwise the length of the sum of their headings,
      shared out over them. */
  lemma {:induction false} CoherenceIs(sqrt: real -> real, vs: seq<Vec>)
    requires IsSqrt(sqrt)
    ensures Coherence(sqrt, vs).None? <==> |Filter(vs, Moves())| < 2
    ensures Coherence(sqrt, vs).Some? ==>
              exists us :: IsResultant(us, Filter(vs, Moves()), Coherence(sqrt, vs).value)
  {
    var us, moving := Headings(sqrt, vs), Filter(vs, Moves());
    HeadingsAre(sqrt, vs);
    if |us| >= 2 {
      CoherenceUnclamped(sqrt, vs);
      ResultantIs(sqrt, us, moving);
    }
  }

  function Multiple(n: real, u: Vec): Vec { PrincipalAxis.Vec(n * u.x, n * u.y) }

  lemma {:induction false} SumOfSame(us: seq<Vec>, u: Vec)
    requires forall w :: w in us ==> w == u
    ensures Sum(us) == Multiple(|us| as real, u)
  {
    if us != [] {
      var n := |us| - 1;
      assert us[n] in us && forall w :: w in us[..n] ==> w in us;
      SumOfSame(us[..n], u);
    }
  }

  lemma ProductSquared(p: real, l: real)
    ensures (p * l) * (p * l) == (p * p) * (l * l)
  {
    assert (p * l) * (p * l) == p * (l * (p * l));
    assert l * (p * l) == p * (l * l);
  }

  lemma MultipleSquared(n: real, x: real, y: real)
    requires x * x + y * y == 1.0
    ensures (n * x) * (n * x) + (n * y) * (n * y) == n * n
  {
    ProductSquared(n, x);
    ProductSquared(n, y);
    Distribute(n * n, x * x, y * y);
  }

  lemma {:induction false} LengthOfMultiple(sqrt: real -> real, n: real, u: Vec)
    requires IsSqrt(sqrt) && n >= 0.0 && PrincipalAxis.Unit(u)
    ensures Length(sqrt, Multiple(n, u)) == n
  {
    var v := Multiple(n, u);
    MultipleSquared(n, u.x, u.y);
    PrincipalAxis.HypotSquared(sqrt, v);
    SquareOrder(Length(sqrt, v), n);
    SquareOrder(n, Length(sqrt, v));
  }

  lemma {:induction false} ResultantOfSame(sqrt: real -> real, us: seq<Vec>, u: Vec)
    requires IsSqrt(sqrt) && AllUnit(us) && us != [] && forall w :: w in us ==> w == u
    ensures Length(sqrt, Sum(us)) == |us| as real
  {
    assert us[0] in us;
    SumOfSame(us, u);
    LengthOfMultiple(sqrt, |us| as real, u);
  }

  /** It is one when everything that moves heads the same way. */
  lemma {:induction false} SameHeadingCoheres(sqrt: real -> real, vs: seq<Vec>, u: Vec)
    requires IsSqrt(sqrt) && |Headings(sqrt, vs)| >= 2 && forall w :: w in Headings(sqrt, vs) ==> w == u
    ensures Coherence(sqrt, vs) == Some(1.0)
  {
    var us := Headings(sqrt, vs);
    HeadingsAreUnit(sqrt, vs);
    ResultantOfSame(sqrt, us, u);
    RatioAtMostOne(|us| as real, |us|);
  }

  /** The loops of the program: skip what stands still, then measure the resultant. */
  method HeadingCoherence(sqrt: real -> real, vs: seq<Vec>) returns (r: Option<real>)
    requires IsSqrt(sqrt)
    ensures r == Coherence(sqrt, vs)
    ensures r.Some? ==> 0.0 <= r.value <= 1.0
  {
    var us: seq<Vec> := [];
    for i := 0 to |vs|
      invariant us == Headings(sqrt, vs[..i])
    {
      var length := Length(sqrt, vs[i]);
      assert vs[..i + 1][..i] == vs[..i];
      if length > STANDING {
        us := us + [PrincipalAxis.Vec(vs[i].x / length, vs[i].y / length)];
      }
    }
    assert vs[..|vs|] == vs;
    if |us| < 2 {
      return None;
    }
    var sum := Sum(us);
    return Some(Max(0.0, Min(1.0, Ratio(Length(sqrt, sum), |us|))));
  }
}
