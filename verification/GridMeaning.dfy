/** What the crowd analyser's numbers mean: which cell a person is in, what a density and a capacity ratio are, and how
    large a cell is on the ground (ai/surgeguard_ai/analysis/grid_crowd_analyzer.py). */
module GridMeaning {
  import opened Common
  import opened Reals
  import opened GridAnalyzer
  import Polygon
  import Medians
  import SpeedBaseline
  import Indicators

  // -- Cells ------------------------------------------------------------------------------------------------

  /** The `i`th of `n` equal parts of a length holds `x`; the outer ones also hold what lies beyond them. */
  predicate HeldBy(x: real, length: nat, n: nat, i: nat) {
    && (i == 0 || i as real * length as real <= x * n as real)
    && (i + 1 == n || x * n as real < (i + 1) as real * length as real)
  }

  lemma PartsAndBack(x: real, length: real, n: real)
    requires length > 0.0
    ensures x / length * n * length == x * n
  {
    var q := x / length;
    assert q * length == x;
    Swap(q, n, length, x);
  }

  lemma Swap(q: real, n: real, length: real, x: real)
    requires q * length == x
    ensures q * n * length == x * n
  {
  }

  lemma OrderTimes(a: real, b: real, k: real)
    requires k > 0.0
    ensures a <= b <==> a * k <= b * k
  {
    if a <= b {
      ProductNonNegative(k, b - a);
      Distribute(k, b, -a);
    } else {
      ProductPositive(k, a - b);
      Distribute(k, a, -b);
    }
  }

  /** By the number of parts `t` that lie before it. */
  lemma TruncatedPart(t: real, n: nat, i: nat)
    requires i < n
    ensures ClampInt(Truncate(t), 0, n - 1) == i <==> (i == 0 || i as real <= t) && (i + 1 == n || t < (i + 1) as real)
  {
  }

  lemma {:induction false} PartHolds(x: real, length: nat, n: nat, i: nat)
    requires length > 0 && i < n
    ensures ClampInt(Truncate(x / length as real * n as real), 0, n - 1) == i <==> HeldBy(x, length, n, i)
  {
    var t := x / length as real * n as real;
    TruncatedPart(t, n, i);
    PartsAndBack(x, length as real, n as real);
    OrderTimes(i as real, t, length as real);
    OrderTimes((i + 1) as real, t, length as real);
  }

  /** A person is counted in the cell whose row and column hold the foot point. */
  lemma {:induction false} CellHolds(c: Config, t: Track, row: nat, col: nat)
    requires ValidConfig(c) && row < c.rows && col < c.cols
    ensures InCell(c, row, col)(t) <==>
              HeldBy(t.foot.y, c.height, c.rows, row) && HeldBy(t.foot.x, c.width, c.cols, col)
  {
    RowHolds(c, t.foot, row);
    ColHolds(c, t.foot, col);
  }

  lemma {:induction false} RowHolds(c: Config, p: Point, row: nat)
    requires ValidConfig(c) && row < c.rows
    ensures RowOf(c, p) == row <==> HeldBy(p.y, c.height, c.rows, row)
  {
    PartHolds(p.y, c.height, c.rows, row);
  }

  lemma {:induction false} ColHolds(c: Config, p: Point, col: nat)
    requires ValidConfig(c) && col < c.cols
    ensures ColOf(c, p) == col <==> HeldBy(p.x, c.width, c.cols, col)
  {
    PartHolds(p.x, c.width, c.cols, col);
  }

  lemma QuotientTimes(x: real, d: real)
    requires d > 0.0
    ensures x / d * d == x
  {
  }

  /** A density times the area of a cell is the number of people in it; without an area it is that number. */
  lemma DensityIs(count: nat, area: Option<real>)
    requires area.Some? ==> area.value > 0.0
    ensures area.Some? ==> Density(count, area) * area.value == count as real
    ensures area.None? ==> Density(count, area) == count as real
  {
    if area.Some? {
      QuotientTimes(count as real, area.value);
    }
  }

  // -- Zones ------------------------------------------------------------------------------------------------

  /** What is reported of a zone: how its people compare with what its clear width lets through, for an entry or an exit
      whose width is known. */
  ghost predicate IsOccupancy(c: Config, tracks: seq<Track>, z: Zone, o: Indicators.Occupancy) {
    && o.zone == z.id
    && (o.ratio.Some? <==> z.kind != OTHER && z.width.Some? && z.width.value * c.capacityPerMetre > 0.0)
    && (o.ratio.Some? ==> o.ratio.value * (z.width.value * c.capacityPerMetre) == Count(tracks, Persons(z)) as real)
  }

  lemma {:induction false} RatioIs(c: Config, tracks: seq<Track>, z: Zone)
    ensures IsOccupancy(c, tracks, z, Indicators.Occupancy(z.id, CapacityRatio(c, z, Count(tracks, Persons(z)))))
  {
    if z.kind != OTHER && z.width.Some? && z.width.value * c.capacityPerMetre > 0.0 {
      QuotientTimes(Count(tracks, Persons(z)) as real, z.width.value * c.capacityPerMetre);
    }
  }

  lemma {:induction false} OccupanciesAre(c: Config, tracks: seq<Track>, zones: seq<Zone>)
    ensures |Occupancies(c, tracks, zones)| == |zones|
    ensures forall i :: 0 <= i < |zones| ==> IsOccupancy(c, tracks, zones[i], Occupancies(c, tracks, zones)[i])
  {
    if zones != [] {
      var n := |zones| - 1;
      OccupanciesAre(c, tracks, zones[..n]);
      RatioIs(c, tracks, zones[n]);
    }
  }

  // -- The ground area of a cell ----------------------------------------------------------------------------

  /** A calibration without perspective. */
  predicate Affine(h: Homography) {
    h.h20 == 0.0 && h.h21 == 0.0 && h.h22 == 1.0
  }

  /** By how much it scales areas, and with which sign. */
  function Scale(h: Homography): real { h.h00 * h.h11 - h.h01 * h.h10 }

  lemma AffineProject(h: Homography, x: real, y: real)
    requires Affine(h)
    ensures Project(h, x, y).Some?
    ensures Project(h, x, y).value.x == h.h00 * x + h.h01 * y + h.h02
    ensures Project(h, x, y).value.y == h.h10 * x + h.h11 * y + h.h12
  {
    ZeroTimes(h.h20, x);
    ZeroTimes(h.h21, y);
    var depth := Depth(h, x, y);
    ByOne(h.h00 * x + h.h01 * y + h.h02, depth);
    ByOne(h.h10 * x + h.h11 * y + h.h12, depth);
  }

  lemma ZeroTimes(a: real, x: real)
    requires a == 0.0
    ensures a * x == 0.0
  {
  }

  lemma ByOne(x: real, d: real)
    requires d == 1.0
    ensures x / d == x
  {
  }

  lemma {:induction false} ShoelaceOfFour(a: Point, b: Point, d: Point, e: Point)
    ensures Shoelace(Polygon.Edges([a, b, d, e]))
              == (a.x * b.y - b.x * a.y) + (b.x * d.y - d.x * b.y) + (d.x * e.y - e.x * d.y) + (e.x * a.y - a.x * e.y)
  {
    var vs := [a, b, d, e];
    var es := Polygon.Edges(vs);
    assert es == [Polygon.Edge(vs[0], vs[1]), Polygon.Edge(vs[1], vs[2]), Polygon.Edge(vs[2], vs[3]),
                  Polygon.Edge(vs[3], vs[0])];
    assert es[..4] == es && es[..3][..2] == es[..2] && es[..2][..1] == es[..1] && es[..1][..0] == [];
    assert Shoelace(es[..0]) == 0.0;
    ShoelaceStep(es, 0);
    ShoelaceStep(es, 1);
    ShoelaceStep(es, 2);
    ShoelaceStep(es, 3);
  }

  lemma {:induction false} ShoelaceStep(es: seq<Polygon.Edge>, i: nat)
    requires i < |es|
    ensures Shoelace(es[..i + 1]) == Shoelace(es[..i]) + (es[i].a.x * es[i].b.y - es[i].b.x * es[i].a.y)
  {
    assert es[..i + 1][..i] == es[..i];
  }

  /** A parallelogram spanned from `o` by two vectors. */
  lemma ParallelogramArea(ox: real, oy: real, px: real, py: real, qx: real, qy: real)
    ensures (ox * (oy + py) - (ox + px) * oy)
            + ((ox + px) * (oy + py + qy) - (ox + px + qx) * (oy + py))
            + ((ox + px + qx) * (oy + qy) - (ox + qx) * (oy + py + qy))
            + ((ox + qx) * oy - ox * (oy + qy)) == 2.0 * (px * qy - qx * py)
  {
  }

  lemma SpannedArea(a: real, b: real, d: real, e: real, w: real, t: real)
    ensures (a * w) * (e * t) - (b * t) * (d * w) == (a * e - b * d) * (w * t)
  {
  }

  lemma {:induction false} AffineArea(h: Homography, w: real, t: real)
    requires Affine(h)
    ensures var p, q := Project(h, 0.0, 0.0), Project(h, w, 0.0);
            var r, s := Project(h, w, t), Project(h, 0.0, t);
            && p.Some? && q.Some? && r.Some? && s.Some?
            && Shoelace(Polygon.Edges([p.value, q.value, r.value, s.value])) == 2.0 * (Scale(h) * (w * t))
  {
    AffineProject(h, 0.0, 0.0);
    AffineProject(h, w, 0.0);
    AffineProject(h, w, t);
    AffineProject(h, 0.0, t);
    var p, q := Project(h, 0.0, 0.0).value, Project(h, w, 0.0).value;
    var r, s := Project(h, w, t).value, Project(h, 0.0, t).value;
    ShoelaceOfFour(p, q, r, s);
    ParallelogramArea(h.h02, h.h12, h.h00 * w, h.h10 * w, h.h01 * t, h.h11 * t);
    SpannedArea(h.h00, h.h01, h.h10, h.h11, w, t);
  }

  /** Without perspective the cells share out the frame, scaled to the ground: each has its part of it, whichever way
      the ground plane is turned, and a plane seen edge on has none. */
  lemma {:induction false} AffineCellArea(c: Config, camera: Camera)
    requires ValidConfig(c) && camera.homography.Some? && Affine(camera.homography.value)
    ensures var scale := Scale(camera.homography.value) * (c.width as real * c.height as real);
            && (CellArea(c, camera).Some? <==> scale != 0.0)
            && (CellArea(c, camera).Some? ==>
                  CellArea(c, camera).value * (c.rows * c.cols) as real == if scale > 0.0 then scale else -scale)
  {
    var h, w, t := camera.homography.value, c.width as real, c.height as real;
    AffineArea(h, w, t);
    var scale := Scale(h) * (w * t);
    if scale != 0.0 {
      QuotientTimes(if scale > 0.0 then scale else -scale, (c.rows * c.cols) as real);
    }
  }

  /** With perspective a corner is divided by its depth, and has no place on the ground at the horizon. */
  lemma ProjectIs(h: Homography, x: real, y: real)
    ensures var depth := Depth(h, x, y);
            && (Project(h, x, y).Some? <==> depth > 0.000000000001 || depth < -0.000000000001)
            && (Project(h, x, y).Some? ==>
                  && Project(h, x, y).value.x * depth == h.h00 * x + h.h01 * y + h.h02
                  && Project(h, x, y).value.y * depth == h.h10 * x + h.h11 * y + h.h12)
  {
    var depth := Depth(h, x, y);
    if depth > HORIZON || depth < -HORIZON {
      DividedBack(h.h00 * x + h.h01 * y + h.h02, depth);
      DividedBack(h.h10 * x + h.h11 * y + h.h12, depth);
    }
  }

  lemma DividedBack(x: real, d: real)
    requires d != 0.0
    ensures x / d * d == x
  {
  }

  // -- Over a run -------------------------------------------------------------------------------------------

  datatype View = View(tracks: seq<Track>, at: real)

  ghost function StateAfter(c: Config, camera: Camera, views: seq<View>): (s: State)
    requires ValidConfig(c)
    ensures CacheSound(c, s.cache, camera)
  {
    if views == [] then FRESH
    else
      var n := |views| - 1;
      Analyze(c, StateAfter(c, camera, views[..n]), views[n].tracks, views[n].at, camera).1
  }

  /** The median speed of every frame in which anybody has a velocity. */
  function Speeds(c: Config, camera: Camera, views: seq<View>): seq<SpeedBaseline.Speed> {
    if views == [] then []
    else
      var n := |views| - 1;
      var median := MedianSpeed(c, Velocities(views[n].tracks, camera.homography.Some?));
      Speeds(c, camera, views[..n]) + (if median.Some? then [SpeedBaseline.Speed(views[n].at, median.value)] else [])
  }

  /** Over every run the history is that of these medians, and so is the baseline of the next frame. */
  lemma {:induction false} HistoryIsOfMedians(c: Config, camera: Camera, views: seq<View>)
    requires ValidConfig(c)
    ensures StateAfter(c, camera, views).history == SpeedBaseline.RecordAll(c.speeds, Speeds(c, camera, views))
  {
    if views != [] {
      var n := |views| - 1;
      HistoryIsOfMedians(c, camera, views[..n]);
      var before := Speeds(c, camera, views[..n]);
      var median := MedianSpeed(c, Velocities(views[n].tracks, camera.homography.Some?));
      if median.Some? {
        var s := SpeedBaseline.Speed(views[n].at, median.value);
        assert (before + [s])[..|before|] == before;
      } else {
        assert before + [] == before;
      }
    }
  }

  // -- Movement ---------------------------------------------------------------------------------------------

  /** The velocity counted for a track: that on the ground when the camera is calibrated and the tracker has one, and
      that in the image otherwise. */
  ghost predicate Counted(t: Track, calibrated: bool, v: Vector) {
    if calibrated && t.ground.Some? then t.ground == Some(v) else t.image == Some(v)
  }

  lemma {:induction false} VelocitiesAre(tracks: seq<Track>, calibrated: bool)
    ensures forall v :: v in Velocities(tracks, calibrated) <==> exists t :: t in tracks && Counted(t, calibrated, v)
    ensures |Velocities(tracks, calibrated)| <= |tracks|
  {
    if tracks != [] {
      var n := |tracks| - 1;
      var vs := Velocities(tracks[..n], calibrated);
      VelocitiesAre(tracks[..n], calibrated);
      assert tracks == tracks[..n] + [tracks[n]];
      forall v ensures v in Velocities(tracks, calibrated) <==> exists t :: t in tracks && Counted(t, calibrated, v) {
        if v in vs {
          var t :| t in tracks[..n] && Counted(t, calibrated, v);
          assert t in tracks;
        } else if Counted(tracks[n], calibrated, v) {
          assert tracks[n] in tracks;
        }
      }
    }
  }

  /** Who counts as moving: whoever moves at all, and no slower than the given part of the median speed. */
  ghost predicate Moves(c: Config, median: real, v: Vector) {
    && (v.dx != 0.0 || v.dy != 0.0)
    && (median * c.movingFraction <= 0.0
        || Square(v.dx) + Square(v.dy) >= Square(median * c.movingFraction))
  }

  lemma SquaresVanish(x: real, y: real)
    ensures Square(x) + Square(y) >= 0.0
    ensures Square(x) + Square(y) == 0.0 <==> x == 0.0 && y == 0.0
  {
    SquareNonNegative(x);
    SquareNonNegative(y);
    if x != 0.0 {
      PositiveSquare(x);
    }
    if y != 0.0 {
      PositiveSquare(y);
    }
  }

  /** By the speed `s`, whose square is `q`, against the least speed `m`. */
  lemma FastEnough(s: real, q: real, m: real)
    requires s >= 0.0 && Square(s) == q
    ensures s >= m <==> m <= 0.0 || q >= Square(m)
    ensures s > 0.0 <==> q != 0.0
  {
    if s > 0.0 {
      PositiveSquare(s);
    }
    if m > 0.0 {
      SquareOrder(m, s);
    }
  }

  lemma {:induction false} MovingIs(c: Config, median: real, v: Vector)
    requires IsSqrt(c.sqrt)
    ensures Moving(c, median)(v) <==> Moves(c, median, v)
  {
    SquaresVanish(v.dx, v.dy);
    assert Square(SpeedOf(c, v)) == Square(v.dx) + Square(v.dy);
    FastEnough(SpeedOf(c, v), Square(v.dx) + Square(v.dy), median * c.movingFraction);
  }

  /** There is a baseline exactly when enough samples are in the window; it is their median. */
  lemma BaselineIs(k: SpeedBaseline.Tuning, history: seq<SpeedBaseline.Speed>)
    requires k.minSamples >= 1
    ensures SpeedBaseline.Baseline(k, history).Some? <==> |history| >= k.minSamples
    ensures |history| >= k.minSamples ==>
              exists t :: Medians.IsSorted(t, SpeedBaseline.SpeedsOf(history)) && |t| == |history|
                          && Medians.IsMiddle(SpeedBaseline.Baseline(k, history).value, t)
  {
    if |history| >= k.minSamples {
      Medians.MedianIsMiddle(SpeedBaseline.SpeedsOf(history));
    }
  }

  // -- One window -------------------------------------------------------------------------------------------

  /** `peak` is the largest density of any cell, or nothing. */
  ghost predicate IsPeak(c: Config, tracks: seq<Track>, area: Option<real>, peak: real)
    requires ValidConfig(c) && (area.Some? ==> area.value > 0.0)
  {
    && (forall i: nat, j: nat :: i < c.rows && j < c.cols ==> Density(CellCount(c, tracks, i, j), area) <= peak)
    && (peak == 0.0 || exists i: nat, j: nat :: i < c.rows && j < c.cols
                                                && peak == Density(CellCount(c, tracks, i, j), area))
  }

  /** The median speed of those who have a velocity. */
  ghost predicate IsMedianSpeed(c: Config, vs: seq<Vector>, median: Option<real>) {
    && (median.None? <==> vs == [])
    && (median.Some? ==>
          exists t :: Medians.IsSorted(t, SpeedsOf(c, vs)) && |t| == |vs| && Medians.IsMiddle(median.value, t))
  }

  /** What a window measures, each figure by its meaning; the baseline already contains the window's own median. */
  lemma {:induction false} CrowdIs(c: Config, s: State, tracks: seq<Track>, at: real, camera: Camera)
    requires ValidConfig(c) && CacheSound(c, s.cache, camera)
    ensures var (crowd, s') := Analyze(c, s, tracks, at, camera);
            && (crowd.metric <==> CellArea(c, camera).Some?)
            && IsPeak(c, tracks, CellArea(c, camera), crowd.densityMax)
            && IsMedianSpeed(c, Velocities(tracks, camera.homography.Some?), crowd.medianSpeed)
            && crowd.baselineSpeed == SpeedBaseline.Baseline(c.speeds, s'.history)
            && crowd.occupancy == Occupancies(c, tracks, camera.zones)
            && s'.cache.Keys == s.cache.Keys + {camera.id} && CacheSound(c, s'.cache, camera)
  {
    var vs := Velocities(tracks, camera.homography.Some?);
    GridPeakIsLargest(c, tracks, CellArea(c, camera), c.rows);
    if vs != [] {
      Medians.MedianIsMiddle(SpeedsOf(c, vs));
    }
  }
}
