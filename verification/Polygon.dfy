/** The two separately written ray-casting tests (queue/_spatial.py and analysis/grid_crowd_analyzer.py) are one
    test. */
module Polygon {
  import opened Common

  datatype Point = Point(x: real, y: real)
  datatype Edge = Edge(a: Point, b: Point)

  predicate Straddles(p: Point, u: Point, v: Point) {
    (u.y > p.y) != (v.y > p.y)
  }

  /** Where the queue module lets the edge cross the horizontal through `p`. */
  function CrossingFrom(p: Point, u: Point, v: Point): real
    requires Straddles(p, u, v)
  {
    u.x + (p.y - u.y) / (v.y - u.y) * (v.x - u.x)
  }

  /** Where the crowd analyser does. */
  function CrossingOf(p: Point, u: Point, v: Point): real
    requires Straddles(p, u, v)
  {
    (v.x - u.x) * (p.y - u.y) / (v.y - u.y) + u.x
  }

  /** Both are the one point of the edge's line at the height of `p`, whichever end one starts from. */
  lemma {:induction false} OneCrossing(p: Point, u: Point, v: Point)
    requires Straddles(p, u, v)
    ensures CrossingFrom(p, u, v) == CrossingFrom(p, v, u) == CrossingOf(p, u, v) == CrossingOf(p, v, u)
  {
    var h := v.y - u.y;
    OnLine(p.y - u.y, h, v.x - u.x);
    OnLine(p.y - v.y, -h, u.x - v.x);
    var t, s := (p.y - u.y) / h, (p.y - v.y) / (-h);
    SumOfShares(t, s, h, p.y - u.y, v.y - p.y);
    FromBothEnds(u.x, v.x, t, s);
  }

  lemma OnLine(k: real, h: real, w: real)
    requires h != 0.0
    ensures k / h * w == w * k / h && k / h * h == k
  {
  }

  lemma SumOfShares(t: real, s: real, h: real, x: real, y: real)
    requires h != 0.0 && x + y == h
    requires t == x / h && s == -y / -h
    ensures t + s == 1.0
  {
    assert t * h == x && s * -h == -y;
    assert (t + s - 1.0) * h == 0.0;
  }

  lemma FromBothEnds(x: real, z: real, t: real, s: real)
    requires t + s == 1.0
    ensures x + t * (z - x) == z + s * (x - z)
  {
  }

  predicate Crosses(p: Point, u: Point, v: Point) {
    Straddles(p, u, v) && p.x < CrossingFrom(p, u, v)
  }

  lemma {:induction false} CrossesEitherWay(p: Point, u: Point, v: Point)
    ensures Crosses(p, u, v) == Crosses(p, v, u)
    ensures Crosses(p, u, v) == (Straddles(p, u, v) && p.x < CrossingOf(p, u, v))
  {
    if Straddles(p, u, v) {
      OneCrossing(p, u, v);
    }
  }

  function Crossed(p: Point): Edge -> bool { (e: Edge) => Crosses(p, e.a, e.b) }
  function Straddled(p: Point): Edge -> bool { (e: Edge) => Straddles(p, e.a, e.b) }

  /** The vertex after `i` in a closed outline of `n`. */
  function Next(i: nat, n: nat): (r: nat)
    requires i < n
    ensures r < n
  {
    if i + 1 == n then 0 else i + 1
  }

  lemma NextIsModulo(i: nat, n: nat)
    requires i < n
    ensures (i + 1) % n == Next(i, n)
  {
  }

  /** The closed outline. */
  function Edges(vs: seq<Point>): (r: seq<Edge>)
    ensures |r| == |vs|
  {
    seq(|vs|, i requires 0 <= i < |vs| => Edge(vs[i], vs[Next(i, |vs|)]))
  }

  predicate Odd(es: seq<Edge>, p: Point) {
    Count(es, Crossed(p)) % 2 == 1
  }

  /** Inside is an odd number of crossings. */
  predicate Inside(p: Point, vs: seq<Point>) {
    Odd(Edges(vs), p)
  }

  function Flip(es: seq<Edge>): (r: seq<Edge>)
    ensures |r| == |es|
  {
    seq(|es|, i requires 0 <= i < |es| => Edge(es[|es| - 1 - i].b, es[|es| - 1 - i].a))
  }

  /** Walking a list of edges backwards crosses as often. */
  lemma {:induction false} FlipCount(es: seq<Edge>, p: Point)
    ensures Count(Flip(es), Crossed(p)) == Count(es, Crossed(p))
  {
    if es != [] {
      var n := |es| - 1;
      var back := Edge(es[n].b, es[n].a);
      assert Flip(es) == [back] + Flip(es[..n]);
      CountConcat([back], Flip(es[..n]), Crossed(p));
      CountAppend([], back, Crossed(p));
      assert [] + [back] == [back];
      FlipCount(es[..n], p);
      CrossesEitherWay(p, es[n].a, es[n].b);
    }
  }

  function Rotate(vs: seq<Point>): seq<Point> {
    if vs == [] then [] else vs[1..] + [vs[0]]
  }

  function RotateBy(vs: seq<Point>, k: nat): seq<Point> {
    if k == 0 then vs else Rotate(RotateBy(vs, k - 1))
  }

  function Reverse(vs: seq<Point>): (r: seq<Point>)
    ensures |r| == |vs|
  {
    seq(|vs|, i requires 0 <= i < |vs| => vs[|vs| - 1 - i])
  }

  lemma {:induction false} RotateEdges(vs: seq<Point>)
    requires vs != []
    ensures Edges(Rotate(vs)) == Edges(vs)[1..] + [Edges(vs)[0]]
  {
    var n, r := |vs|, Rotate(vs);
    var shifted := Edges(vs)[1..] + [Edges(vs)[0]];
    forall i | 0 <= i < n ensures r[i] == vs[Next(i, n)] {
    }
    forall i | 0 <= i < n ensures Edges(r)[i] == shifted[i] {
      assert Edges(r)[i] == Edge(r[i], r[Next(i, n)]);
    }
  }

  lemma {:induction false} OddRotated(es: seq<Edge>, p: Point)
    requires es != []
    ensures Odd(es[1..] + [es[0]], p) == Odd(es, p)
  {
    assert es == [es[0]] + es[1..];
    CountConcat(es[1..], [es[0]], Crossed(p));
    CountConcat([es[0]], es[1..], Crossed(p));
  }

  /** It does not matter with which vertex the outline starts. */
  lemma {:induction false} RotationIrrelevant(p: Point, vs: seq<Point>, k: nat)
    ensures Inside(p, RotateBy(vs, k)) == Inside(p, vs)
  {
    if k > 0 {
      var ws := RotateBy(vs, k - 1);
      RotationIrrelevant(p, vs, k - 1);
      if ws != [] {
        RotateEdges(ws);
        OddRotated(Edges(ws), p);
      }
    }
  }

  /** Nor in which direction it is drawn. */
  lemma {:induction false} OrientationIrrelevant(p: Point, vs: seq<Point>)
    ensures Inside(p, Reverse(vs)) == Inside(p, vs)
  {
    if vs != [] {
      var n := |vs| - 1;
      var es, rs := Edges(vs), Edges(Reverse(vs));
      assert rs == Flip(es[..n]) + Flip(es[n..]) by {
        forall i | 0 <= i <= n ensures rs[i] == (Flip(es[..n]) + Flip(es[n..]))[i] {
          assert rs[i] == Edge(Reverse(vs)[i], Reverse(vs)[Next(i, |vs|)]);
        }
      }
      CountConcat(Flip(es[..n]), Flip(es[n..]), Crossed(p));
      FlipCount(es[..n], p);
      FlipCount(es[n..], p);
      assert es == es[..n] + es[n..];
      CountConcat(es[..n], es[n..], Crossed(p));
    }
  }

  function Path(vs: seq<Point>): seq<Edge>
    requires vs != []
  {
    seq(|vs| - 1, i requires 0 <= i < |vs| - 1 => Edge(vs[i], vs[i + 1]))
  }

  /** Along an open path, the line is straddled oddly often exactly when the ends lie on different sides. */
  lemma {:induction false} PathParity(p: Point, vs: seq<Point>)
    requires vs != []
    ensures Count(Path(vs), Straddled(p)) % 2 == (if Straddles(p, vs[0], vs[|vs| - 1]) then 1 else 0)
  {
    var n := |vs| - 1;
    if n > 0 {
      var e := Edge(vs[n - 1], vs[n]);
      PathParity(p, vs[..n]);
      assert Path(vs) == Path(vs[..n]) + [e];
      CountAppend(Path(vs[..n]), e, Straddled(p));
    }
  }

  /** The horizontal through any point meets the closed outline an even number of times. */
  lemma {:induction false} StraddlesEven(p: Point, vs: seq<Point>)
    ensures Count(Edges(vs), Straddled(p)) % 2 == 0
  {
    if vs != [] {
      var n := |vs| - 1;
      var closing := Edge(vs[n], vs[0]);
      assert Edges(vs) == Path(vs) + [closing];
      PathParity(p, vs);
      CountAppend(Path(vs), closing, Straddled(p));
    }
  }

  lemma {:induction false} OddAppend(es: seq<Edge>, i: nat, p: Point)
    requires i < |es|
    ensures Odd(es[..i + 1], p) == (Odd(es[..i], p) != Crosses(p, es[i].a, es[i].b))
  {
    assert es[..i + 1] == es[..i] + [es[i]];
    CountAppend(es[..i], es[i], Crossed(p));
  }

  /** The last edge first. */
  function Shifted(es: seq<Edge>): (r: seq<Edge>)
    requires es != []
    ensures |r| == |es|
  {
    [es[|es| - 1]] + es[..|es| - 1]
  }

  lemma {:induction false} OddShifted(es: seq<Edge>, p: Point)
    requires es != []
    ensures Odd(Shifted(es), p) == Odd(es, p)
  {
    var n := |es| - 1;
    assert es == es[..n] + [es[n]];
    CountConcat([es[n]], es[..n], Crossed(p));
    CountConcat(es[..n], [es[n]], Crossed(p));
  }

  /** The queue module's test: each vertex with the one before it. */
  method PointInPolygon(p: Point, vs: seq<Point>) returns (inside: bool)
    ensures inside == Inside(p, vs)
  {
    inside := false;
    var n := |vs|;
    if n == 0 { return; }
    ghost var es := Shifted(Edges(vs));
    var j := n - 1;
    var i := 0;
    while i < n
      invariant 0 <= i <= n
      invariant j == if i == 0 then n - 1 else i - 1
      invariant inside == Odd(es[..i], p)
    {
      assert es[i] == Edge(vs[j], vs[i]);
      OddAppend(es, i, p);
      CrossesEitherWay(p, vs[j], vs[i]);
      if (vs[i].y > p.y) != (vs[j].y > p.y) {
        var crossingX := CrossingFrom(p, vs[i], vs[j]);
        if p.x < crossingX {
          inside := !inside;
        }
      }
      j := i;
      i := i + 1;
    }
    assert es[..n] == es;
    OddShifted(Edges(vs), p);
  }

  /** A list of fewer than three vertices encloses nothing. */
  lemma {:induction false} NothingInsideTwo(p: Point, vs: seq<Point>)
    requires |vs| < 3
    ensures !Inside(p, vs)
  {
    var es := Edges(vs);
    if |vs| == 1 {
      assert es == [Edge(vs[0], vs[0])];
      CountNone(es, Crossed(p));
    } else if |vs| == 2 {
      assert es == [] + [Edge(vs[0], vs[1])] + [Edge(vs[1], vs[0])];
      CountAppend([], es[0], Crossed(p));
      CountAppend([] + [es[0]], es[1], Crossed(p));
      CrossesEitherWay(p, vs[0], vs[1]);
    }
  }

  /** The crowd analyser's test: each vertex with the one after it, and no polygon of fewer than three. */
  method Contains(vs: seq<Point>, x: real, y: real) returns (inside: bool)
    ensures inside == Inside(Point(x, y), vs)
  {
    ghost var p := Point(x, y);
    inside := false;
    var n := |vs|;
    if n < 3 {
      NothingInsideTwo(p, vs);
      return;
    }
    ghost var es := Edges(vs);
    var i := 0;
    while i < n
      invariant 0 <= i <= n
      invariant inside == Odd(es[..i], p)
    {
      NextIsModulo(i, n);
      var u, v := vs[i], vs[(i + 1) % n];
      OddAppend(es, i, p);
      CrossesEitherWay(p, u, v);
      if (u.y > y) != (v.y > y) {
        var crossingX := CrossingOf(Point(x, y), u, v);
        if x < crossingX {
          inside := !inside;
        }
      }
      i := i + 1;
    }
    assert es[..n] == es;
  }
}
