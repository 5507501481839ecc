/** What it means to be inside a polygon, told without rays: rectangles to their borders, triangles by orientation, and
    every outline by the triangles of its fan (ai/surgeguard_ai/queue/_spatial.py, analysis/grid_crowd_analyzer.py). */
module PolygonMeaning {
  import opened Common
  import opened Reals
  import opened Polygon

  /** Twice the signed area of the triangle: positive when `p` lies on the one side of the line from `u` to `v`,
      negative on the other, zero on it. */
  function Orient(u: Point, v: Point, p: Point): real {
    (v.x - u.x) * (p.y - u.y) - (v.y - u.y) * (p.x - u.x)
  }

  lemma SignOfQuotient(k: real, h: real, w: real, d: real)
    requires h != 0.0
    ensures h > 0.0 ==> (d < k / h * w <==> d * h < w * k)
    ensures h < 0.0 ==> (d < k / h * w <==> d * h > w * k)
  {
    var t := k / h * w;
    OnLine(k, h, w);
    TimesDenominator(k, h, w);
    assert t * h == w * k;
    if h > 0.0 {
      OrderTimes(d, t, h);
    } else {
      OrderTimes(d, t, -h);
    }
  }

  lemma TimesDenominator(k: real, h: real, w: real)
    requires h != 0.0
    ensures (k / h * w) * h == w * k
  {
    var q := k / h;
    assert q * h == k;
    Swap(q, w, h, k);
  }

  lemma Swap(q: real, w: real, h: real, k: real)
    requires q * h == k
    ensures (q * w) * h == w * k
  {
  }

  lemma OrderTimes(x: real, y: real, h: real)
    requires h > 0.0
    ensures x < y <==> x * h < y * h
  {
    if x < y {
      ProductPositive(y - x, h);
      Distribute(h, y, -x);
    } else {
      ProductNonNegative(x - y, h);
      Distribute(h, x, -y);
    }
  }

  /** An edge is crossed when it spans the height of the point, which lies on its left as it goes up. */
  lemma {:induction false} CrossesByOrient(p: Point, u: Point, v: Point)
    ensures Crosses(p, u, v) <==>
              || (u.y <= p.y < v.y && Orient(u, v, p) > 0.0)
              || (v.y <= p.y < u.y && Orient(u, v, p) < 0.0)
  {
    if Straddles(p, u, v) {
      SignOfQuotient(p.y - u.y, v.y - u.y, v.x - u.x, p.x - u.x);
      assert p.x < CrossingFrom(p, u, v) <==> p.x - u.x < (p.y - u.y) / (v.y - u.y) * (v.x - u.x);
    }
  }

  // -- Rectangles -------------------------------------------------------------------------------------------

  function Rectangle(x0: real, y0: real, x1: real, y1: real): seq<Point> {
    [Point(x0, y0), Point(x1, y0), Point(x1, y1), Point(x0, y1)]
  }

  lemma {:induction false} CountThree<T>(a: T, b: T, d: T, f: T -> bool)
    ensures Count([a, b, d], f) == (if f(a) then 1 else 0) + (if f(b) then 1 else 0) + (if f(d) then 1 else 0)
  {
    assert [a] == [] + [a] && [a, b] == [a] + [b] && [a, b, d] == [a, b] + [d];
    CountAppend([], a, f);
    CountAppend([a], b, f);
    CountAppend([a, b], d, f);
  }

  lemma {:induction false} CountFour<T>(a: T, b: T, d: T, e: T, f: T -> bool)
    ensures Count([a, b, d, e], f)
              == (if f(a) then 1 else 0) + (if f(b) then 1 else 0) + (if f(d) then 1 else 0) + (if f(e) then 1 else 0)
  {
    CountThree(a, b, d, f);
    assert [a, b, d, e] == [a, b, d] + [e];
    CountAppend([a, b, d], e, f);
  }

  lemma UprightCrosses(p: Point, x: real, y0: real, y1: real)
    requires y0 < y1
    ensures Crosses(p, Point(x, y0), Point(x, y1)) <==> p.x < x && y0 <= p.y < y1
    ensures Crosses(p, Point(x, y1), Point(x, y0)) <==> p.x < x && y0 <= p.y < y1
  {
  }

  /** A rectangle holds its left and its lower border, and not the other two. */
  lemma {:induction false} InsideRectangle(p: Point, x0: real, y0: real, x1: real, y1: real)
    requires x0 < x1 && y0 < y1
    ensures Inside(p, Rectangle(x0, y0, x1, y1)) <==> x0 <= p.x < x1 && y0 <= p.y < y1
  {
    var r := Rectangle(x0, y0, x1, y1);
    assert Edges(r) == [Edge(r[0], r[1]), Edge(r[1], r[2]), Edge(r[2], r[3]), Edge(r[3], r[0])];
    CountFour(Edge(r[0], r[1]), Edge(r[1], r[2]), Edge(r[2], r[3]), Edge(r[3], r[0]), Crossed(p));
    UprightCrosses(p, x1, y0, y1);
    UprightCrosses(p, x0, y0, y1);
  }

  // -- Triangles --------------------------------------------------------------------------------------------

  /** `p` lies strictly on the same side of all three edges. */
  predicate StrictlyIn(p: Point, a: Point, b: Point, d: Point) {
    || (Orient(a, b, p) > 0.0 && Orient(b, d, p) > 0.0 && Orient(d, a, p) > 0.0)
    || (Orient(a, b, p) < 0.0 && Orient(b, d, p) < 0.0 && Orient(d, a, p) < 0.0)
  }

  /** `p` lies strictly on different sides of two of them. */
  predicate StrictlyOut(p: Point, a: Point, b: Point, d: Point) {
    && (Orient(a, b, p) > 0.0 || Orient(b, d, p) > 0.0 || Orient(d, a, p) > 0.0)
    && (Orient(a, b, p) < 0.0 || Orient(b, d, p) < 0.0 || Orient(d, a, p) < 0.0)
  }

  /** Each vertex weighs what the opposite triangle measures: the weighted heights over `p` cancel. */
  lemma HeightsCancel(p: Point, a: Point, b: Point, d: Point)
    ensures Orient(b, d, p) * (a.y - p.y) + Orient(d, a, p) * (b.y - p.y) + Orient(a, b, p) * (d.y - p.y) == 0.0
  {
    OrientFromPoint(p, a, b);
    OrientFromPoint(p, b, d);
    OrientFromPoint(p, d, a);
    CrossProductsCancel(a.x - p.x, a.y - p.y, b.x - p.x, b.y - p.y, d.x - p.x, d.y - p.y);
  }

  lemma OrientFromPoint(p: Point, u: Point, v: Point)
    ensures Orient(u, v, p) == (u.x - p.x) * (v.y - p.y) - (v.x - p.x) * (u.y - p.y)
  {
  }

  lemma CrossProductsCancel(a0: real, a1: real, b0: real, b1: real, d0: real, d1: real)
    ensures (b0 * d1 - d0 * b1) * a1 + (d0 * a1 - a0 * d1) * b1 + (a0 * b1 - b0 * a1) * d1 == 0.0
  {
  }

  /** `q` has the sign that a product of `o` and `h` has. */
  predicate SignsAs(q: real, o: real, h: real) {
    && (q > 0.0 <==> (o > 0.0 && h > 0.0) || (o < 0.0 && h < 0.0))
    && (q < 0.0 <==> (o > 0.0 && h < 0.0) || (o < 0.0 && h > 0.0))
  }

  lemma ProductSigns(o: real, h: real)
    ensures SignsAs(o * h, o, h)
  {
  }

  /** An edge crossed, by the heights of its ends over the point and by its orientation. */
  predicate CrossesBySign(from: real, to: real, orient: real) {
    (from <= 0.0 < to && orient > 0.0) || (to <= 0.0 < from && orient < 0.0)
  }

  predicate SameSign(x: real, y: real, z: real) {
    (x > 0.0 && y > 0.0 && z > 0.0) || (x < 0.0 && y < 0.0 && z < 0.0)
  }

  predicate MixedSigns(x: real, y: real, z: real) {
    (x > 0.0 || y > 0.0 || z > 0.0) && (x < 0.0 || y < 0.0 || z < 0.0)
  }

  function B(b: bool): nat { if b then 1 else 0 }

  /** Inside a triangle: an odd number of its three edges is crossed. */
  lemma {:induction false} TriangleParity(p: Point, a: Point, b: Point, d: Point)
    ensures Inside(p, [a, b, d]) <==> (B(Crosses(p, a, b)) + B(Crosses(p, b, d)) + B(Crosses(p, d, a))) % 2 == 1
  {
    var r := [a, b, d];
    assert Edges(r) == [Edge(r[0], r[1]), Edge(r[1], r[2]), Edge(r[2], r[0])];
    CountThree(Edge(a, b), Edge(b, d), Edge(d, a), Crossed(p));
  }

  /** Three edges with heights `ha`, `hb`, `hd` at the vertices and orientations `oa`, `ob`, `od` opposite to them. */
  lemma ParityOfSigns(oa: real, ha: real, ob: real, hb: real, od: real, hd: real, qa: real, qb: real, qd: real)
    requires SignsAs(qa, oa, ha) && SignsAs(qb, ob, hb) && SignsAs(qd, od, hd) && qa + qb + qd == 0.0
    ensures var n := B(CrossesBySign(ha, hb, od)) + B(CrossesBySign(hb, hd, oa)) + B(CrossesBySign(hd, ha, ob));
            && (SameSign(oa, ob, od) && !(ha == hb == hd == 0.0) ==> n % 2 == 1)
            && (MixedSigns(oa, ob, od) ==> n % 2 == 0)
  {
  }

  lemma LevelIsFlat(p: Point, u: Point, v: Point)
    requires u.y == p.y && v.y == p.y
    ensures Orient(u, v, p) == 0.0
  {
  }

  lemma {:induction false} CrossesByHeights(p: Point, u: Point, v: Point)
    ensures Crosses(p, u, v) == CrossesBySign(u.y - p.y, v.y - p.y, Orient(u, v, p))
  {
    CrossesByOrient(p, u, v);
  }

  /** A point strictly in a triangle is inside, and one strictly out of it is not, however the triangle is drawn. */
  lemma {:induction false} InsideTriangle(p: Point, a: Point, b: Point, d: Point)
    ensures StrictlyIn(p, a, b, d) ==> Inside(p, [a, b, d])
    ensures StrictlyOut(p, a, b, d) ==> !Inside(p, [a, b, d])
  {
    var oa, ob, od := Orient(b, d, p), Orient(d, a, p), Orient(a, b, p);
    var ha, hb, hd := a.y - p.y, b.y - p.y, d.y - p.y;
    TriangleParity(p, a, b, d);
    CrossesByHeights(p, a, b);
    CrossesByHeights(p, b, d);
    CrossesByHeights(p, d, a);
    HeightsCancel(p, a, b, d);
    ProductSigns(oa, ha);
    ProductSigns(ob, hb);
    ProductSigns(od, hd);
    ParityOfSigns(oa, ha, ob, hb, od, hd, oa * ha, ob * hb, od * hd);
    if a.y == p.y && b.y == p.y {
      LevelIsFlat(p, a, b);
    }
  }

  // -- Any outline ------------------------------------------------------------------------------------------

  lemma {:induction false} ClosedPath(p: Point, vs: seq<Point>)
    requires vs != []
    ensures Count(Edges(vs), Crossed(p)) == Count(Path(vs), Crossed(p)) + B(Crosses(p, vs[|vs| - 1], vs[0]))
  {
    var closing := Edge(vs[|vs| - 1], vs[0]);
    assert Edges(vs) == Path(vs) + [closing];
    CountAppend(Path(vs), closing, Crossed(p));
  }

  lemma {:induction false} LongerPath(p: Point, vs: seq<Point>)
    requires |vs| >= 2
    ensures var n := |vs| - 1;
            Count(Path(vs), Crossed(p)) == Count(Path(vs[..n]), Crossed(p)) + B(Crosses(p, vs[n - 1], vs[n]))
  {
    var n := |vs| - 1;
    assert Path(vs) == Path(vs[..n]) + [Edge(vs[n - 1], vs[n])];
    CountAppend(Path(vs[..n]), Edge(vs[n - 1], vs[n]), Crossed(p));
  }

  /** Three outlines by the numbers of their crossings: `k` on the path they share, `x` and `y` on the two new edges,
      and `z` on the cut. */
  lemma CutParity(k: nat, x: nat, y: nat, z: nat)
    ensures (k + x + y) % 2 == 1 <==> ((k + z) % 2 == 1) != ((z + x + y) % 2 == 1)
  {
  }

  ghost predicate CrossedTimes(p: Point, vs: seq<Point>, n: nat) {
    Count(Edges(vs), Crossed(p)) == n
  }

  lemma {:induction false} CutCounts(p: Point, vs: seq<Point>) returns (k: nat, x: nat, y: nat, z: nat)
    requires |vs| >= 3
    ensures var n := |vs| - 1;
            && CrossedTimes(p, vs, k + x + y) && CrossedTimes(p, vs[..n], k + z)
            && (Inside(p, [vs[0], vs[n - 1], vs[n]]) <==> (z + x + y) % 2 == 1)
  {
    var n := |vs| - 1;
    k, x := Count(Path(vs[..n]), Crossed(p)), B(Crosses(p, vs[n - 1], vs[n]));
    y, z := B(Crosses(p, vs[n], vs[0])), B(Crosses(p, vs[n - 1], vs[0]));
    ClosedPath(p, vs);
    ClosedPath(p, vs[..n]);
    LongerPath(p, vs);
    TriangleParity(p, vs[0], vs[n - 1], vs[n]);
    CrossesEitherWay(p, vs[0], vs[n - 1]);
  }

  /** Cutting off the last vertex cuts off a triangle: what is inside the whole is inside exactly one of the parts. */
  lemma {:induction false} CutOff(p: Point, vs: seq<Point>)
    requires |vs| >= 3
    ensures var n := |vs| - 1;
            Inside(p, vs) <==> Inside(p, vs[..n]) != Inside(p, [vs[0], vs[n - 1], vs[n]])
  {
    var k, x, y, z := CutCounts(p, vs);
    CutParity(k, x, y, z);
  }

  /** How many triangles of the fan from the first vertex hold the point. */
  function FanHits(p: Point, vs: seq<Point>): nat {
    if |vs| < 3 then 0
    else
      var n := |vs| - 1;
      FanHits(p, vs[..n]) + B(StrictlyIn(p, vs[0], vs[n - 1], vs[n]))
  }

  /** The point lies on the border of none of them. */
  ghost predicate OffBorders(p: Point, vs: seq<Point>) {
    forall i :: 2 <= i < |vs| ==> StrictlyIn(p, vs[0], vs[i - 1], vs[i]) || StrictlyOut(p, vs[0], vs[i - 1], vs[i])
  }

  lemma {:induction false} TriangleDecided(p: Point, a: Point, b: Point, d: Point)
    requires StrictlyIn(p, a, b, d) || StrictlyOut(p, a, b, d)
    ensures Inside(p, [a, b, d]) <==> StrictlyIn(p, a, b, d)
  {
    InsideTriangle(p, a, b, d);
  }

  lemma {:induction false} LastOffBorders(p: Point, vs: seq<Point>)
    requires |vs| >= 3 && OffBorders(p, vs)
    ensures var n := |vs| - 1;
            && OffBorders(p, vs[..n])
            && (StrictlyIn(p, vs[0], vs[n - 1], vs[n]) || StrictlyOut(p, vs[0], vs[n - 1], vs[n]))
  {
    var n := |vs| - 1;
    forall i | 2 <= i < n
      ensures || StrictlyIn(p, vs[..n][0], vs[..n][i - 1], vs[..n][i])
              || StrictlyOut(p, vs[..n][0], vs[..n][i - 1], vs[..n][i])
    {
      assert StrictlyIn(p, vs[0], vs[i - 1], vs[i]) || StrictlyOut(p, vs[0], vs[i - 1], vs[i]);
    }
  }

  lemma FlipParity(m: nat, b: bool)
    ensures (m + B(b)) % 2 == 1 <==> (m % 2 == 1) != b
  {
  }

  /** For every outline, convex or not, crossing itself or not: a point is inside if and only if an odd number of the
      triangles of its fan hold it. */
  lemma {:induction false} InsideIffFan(p: Point, vs: seq<Point>)
    requires OffBorders(p, vs)
    ensures Inside(p, vs) <==> FanHits(p, vs) % 2 == 1
  {
    if |vs| < 3 {
      NothingInsideTwo(p, vs);
    } else {
      var n := |vs| - 1;
      LastOffBorders(p, vs);
      InsideIffFan(p, vs[..n]);
      CutOff(p, vs);
      TriangleDecided(p, vs[0], vs[n - 1], vs[n]);
      FlipParity(FanHits(p, vs[..n]), StrictlyIn(p, vs[0], vs[n - 1], vs[n]));
    }
  }
}
