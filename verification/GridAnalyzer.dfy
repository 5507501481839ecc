/** One camera's crowd measurements over a density grid (ai/surgeguard_ai/analysis/grid_crowd_analyzer.py). */
module GridAnalyzer {
  import opened Common
  import opened Reals
  import Polygon
  import Medians
  import SpeedBaseline
  import Window
  import Indicators

  type Point = Polygon.Point

  datatype Vector = Vector(dx: real, dy: real)

  datatype Track = Track(id: int, age: int, foot: Point, image: Option<Vector>, ground: Option<Vector>)

  datatype Homography = Homography(h00: real, h01: real, h02: real, h10: real, h11: real, h12: real,
                                   h20: real, h21: real, h22: real)

  datatype ZoneType = EXIT | ENTRY | OTHER

  datatype Zone = Zone(id: int, kind: ZoneType, polygon: seq<Point>, width: Option<real>)

  datatype Camera = Camera(id: string, homography: Option<Homography>, zones: seq<Zone>)

  /** `opposing` is the share of moving people who go against the majority, if there is a majority direction. */
  datatype Config = Config(width: nat, height: nat, rows: nat, cols: nat, speeds: SpeedBaseline.Tuning,
                           movingFraction: real, capacityPerMetre: real, sqrt: real -> real,
                           opposing: seq<Vector> -> Option<real>)

  predicate ValidConfig(c: Config) {
    && c.width > 0 && c.height > 0 && c.rows > 0 && c.cols > 0 && c.speeds.window > 0.0 && c.speeds.minSamples >= 1
    && 0.0 <= c.movingFraction <= 1.0 && c.capacityPerMetre > 0.0
  }

  // -- The grid ---------------------------------------------------------------------------------------------

  /** Conversion to an integer drops the fraction. */
  function Truncate(x: real): int {
    if x >= 0.0 then x.Floor else -(-x).Floor
  }

  function ClampInt(x: int, lower: int, upper: int): int {
    var y := if x < lower then lower else x;
    if y > upper then upper else y
  }

  function RowOf(c: Config, p: Point): (r: nat)
    requires ValidConfig(c)
    ensures r < c.rows
  {
    ClampInt(Truncate(p.y / c.height as real * c.rows as real), 0, c.rows - 1)
  }

  function ColOf(c: Config, p: Point): (r: nat)
    requires ValidConfig(c)
    ensures r < c.cols
  {
    ClampInt(Truncate(p.x / c.width as real * c.cols as real), 0, c.cols - 1)
  }

  function InCell(c: Config, row: nat, col: nat): Track -> bool
    requires ValidConfig(c)
  {
    (t: Track) => RowOf(c, t.foot) == row && ColOf(c, t.foot) == col
  }

  function CellCount(c: Config, tracks: seq<Track>, row: nat, col: nat): nat
    requires ValidConfig(c)
  {
    Count(tracks, InCell(c, row, col))
  }

  /** People in the first `cols` cells of a row, and in the first `rows` rows. */
  function RowTotal(c: Config, tracks: seq<Track>, row: nat, cols: nat): nat
    requires ValidConfig(c)
  {
    if cols == 0 then 0 else RowTotal(c, tracks, row, cols - 1) + CellCount(c, tracks, row, cols - 1)
  }

  function GridTotal(c: Config, tracks: seq<Track>, rows: nat): nat
    requires ValidConfig(c)
  {
    if rows == 0 then 0 else GridTotal(c, tracks, rows - 1) + RowTotal(c, tracks, rows - 1, c.cols)
  }

  lemma {:induction false} RowAppend(c: Config, tracks: seq<Track>, t: Track, row: nat, cols: nat)
    requires ValidConfig(c)
    ensures RowTotal(c, tracks + [t], row, cols) ==
            RowTotal(c, tracks, row, cols) + (if RowOf(c, t.foot) == row && ColOf(c, t.foot) < cols then 1 else 0)
  {
    if cols > 0 {
      RowAppend(c, tracks, t, row, cols - 1);
      CountAppend(tracks, t, InCell(c, row, cols - 1));
    }
  }

  lemma {:induction false} GridAppend(c: Config, tracks: seq<Track>, t: Track, rows: nat)
    requires ValidConfig(c)
    ensures GridTotal(c, tracks + [t], rows) == GridTotal(c, tracks, rows) + (if RowOf(c, t.foot) < rows then 1 else 0)
  {
    if rows > 0 {
      GridAppend(c, tracks, t, rows - 1);
      RowAppend(c, tracks, t, rows - 1, c.cols);
    }
  }

  lemma {:induction false} EmptyRow(c: Config, row: nat, cols: nat)
    requires ValidConfig(c)
    ensures RowTotal(c, [], row, cols) == 0
  {
    if cols > 0 {
      EmptyRow(c, row, cols - 1);
    }
  }

  lemma {:induction false} EmptyGrid(c: Config, rows: nat)
    requires ValidConfig(c)
    ensures GridTotal(c, [], rows) == 0
  {
    if rows > 0 {
      EmptyGrid(c, rows - 1);
      EmptyRow(c, rows - 1, c.cols);
    }
  }

  /** The grid partitions the view: wherever they stand, even outside the frame, everybody is in exactly one cell. */
  lemma {:induction false} GridCountsEverybody(c: Config, tracks: seq<Track>)
    requires ValidConfig(c)
    ensures GridTotal(c, tracks, c.rows) == |tracks|
  {
    if tracks == [] {
      EmptyGrid(c, c.rows);
    } else {
      var n := |tracks| - 1;
      GridCountsEverybody(c, tracks[..n]);
      GridAppend(c, tracks[..n], tracks[n], c.rows);
      assert tracks == tracks[..n] + [tracks[n]];
    }
  }

  method CountGrid(c: Config, tracks: seq<Track>) returns (grid: array2<nat>)
    requires ValidConfig(c)
    ensures fresh(grid) && grid.Length0 == c.rows && grid.Length1 == c.cols
    ensures forall i, j :: 0 <= i < c.rows && 0 <= j < c.cols ==> grid[i, j] == CellCount(c, tracks, i, j)
  {
    grid := new nat[c.rows, c.cols]((i, j) => 0);
    for k := 0 to |tracks|
      invariant forall i, j :: 0 <= i < c.rows && 0 <= j < c.cols ==> grid[i, j] == CellCount(c, tracks[..k], i, j)
    {
      var row, col := RowOf(c, tracks[k].foot), ColOf(c, tracks[k].foot);
      forall i, j | 0 <= i < c.rows && 0 <= j < c.cols
        ensures CellCount(c, tracks[..k + 1], i, j) ==
                CellCount(c, tracks[..k], i, j) + (if i == row && j == col then 1 else 0)
      {
        assert tracks[..k + 1] == tracks[..k] + [tracks[k]];
        CountAppend(tracks[..k], tracks[k], InCell(c, i, j));
      }
      grid[row, col] := grid[row, col] + 1;
    }
    assert tracks[..|tracks|] == tracks;
  }

  // -- Ground area of a cell --------------------------------------------------------------------------------

  const HORIZON: real := 0.000000000001

  /** How far an image point lies from the horizon. */
  function Depth(h: Homography, x: real, y: real): real {
    h.h20 * x + h.h21 * y + h.h22
  }

  /** The ground position of an image point, or none at the horizon. */
  function Project(h: Homography, x: real, y: real): Option<Point> {
    var w := Depth(h, x, y);
    if -HORIZON <= w <= HORIZON then None
    else Some(Polygon.Point((h.h00 * x + h.h01 * y + h.h02) / w, (h.h10 * x + h.h11 * y + h.h12) / w))
  }

  function Shoelace(es: seq<Polygon.Edge>): real {
    if es == [] then 0.0
    else
      var e := es[|es| - 1];
      Shoelace(es[..|es| - 1]) + (e.a.x * e.b.y - e.b.x * e.a.y)
  }

  function Area(vs: seq<Point>): real {
    if |vs| < 3 then 0.0
    else
      var s := Shoelace(Polygon.Edges(vs));
      (if s < 0.0 then -s else s) / 2.0
  }

  /** Ground area of one cell, or none when the camera is not calibrated or its view is no ground plane. */
  function CellArea(c: Config, camera: Camera): (r: Option<real>)
    requires ValidConfig(c)
    ensures r.Some? ==> r.value > 0.0
  {
    if camera.homography.None? then None
    else
      var h, w, t := camera.homography.value, c.width as real, c.height as real;
      var p, q, r, s := Project(h, 0.0, 0.0), Project(h, w, 0.0), Project(h, w, t), Project(h, 0.0, t);
      if p.None? || q.None? || r.None? || s.None? then None
      else
        var area := Area([p.value, q.value, r.value, s.value]);
        if area <= 0.0 then None else Some(PerCell(area, c.rows * c.cols))
  }

  function PerCell(area: real, cells: nat): (r: real)
    requires area > 0.0 && cells > 0
    ensures r > 0.0
  {
    area / cells as real
  }

  // -- One window's measurements ----------------------------------------------------------------------------

  function Density(count: nat, area: Option<real>): real
    requires area.Some? ==> area.value > 0.0
  {
    if area.Some? then count as real / area.value else count as real
  }

  function RowPeak(c: Config, tracks: seq<Track>, area: Option<real>, row: nat, cols: nat): real
    requires ValidConfig(c) && (area.Some? ==> area.value > 0.0)
  {
    if cols == 0 then 0.0
    else Max(RowPeak(c, tracks, area, row, cols - 1), Density(CellCount(c, tracks, row, cols - 1), area))
  }

  function GridPeak(c: Config, tracks: seq<Track>, area: Option<real>, rows: nat): real
    requires ValidConfig(c) && (area.Some? ==> area.value > 0.0)
  {
    if rows == 0 then 0.0 else Max(GridPeak(c, tracks, area, rows - 1), RowPeak(c, tracks, area, rows - 1, c.cols))
  }

  function Persons(z: Zone): Track -> bool { (t: Track) => Polygon.Inside(t.foot, z.polygon) }

  /** Occupancy against nominal capacity, for entries and exits of known width. */
  function CapacityRatio(c: Config, z: Zone, persons: nat): Option<real> {
    if z.kind == OTHER || z.width.None? then None
    else
      var capacity := z.width.value * c.capacityPerMetre;
      if capacity > 0.0 then Some(persons as real / capacity) else None
  }

  function Occupancies(c: Config, tracks: seq<Track>, zones: seq<Zone>): seq<Indicators.Occupancy> {
    if zones == [] then []
    else
      var z := zones[|zones| - 1];
      Occupancies(c, tracks, zones[..|zones| - 1]) +
      [Indicators.Occupancy(z.id, CapacityRatio(c, z, Count(tracks, Persons(z))))]
  }

  function Exits(zones: seq<Zone>): set<int> {
    set z | z in zones && z.kind == EXIT :: z.id
  }

  /** On a calibrated camera the ground velocity if there is one, otherwise the image velocity. */
  function VelocityOf(t: Track, metric: bool): Option<Vector> {
    if metric && t.ground.Some? then t.ground else t.image
  }

  function Velocities(tracks: seq<Track>, metric: bool): seq<Vector> {
    if tracks == [] then []
    else
      var v := VelocityOf(tracks[|tracks| - 1], metric);
      Velocities(tracks[..|tracks| - 1], metric) + (if v.Some? then [v.value] else [])
  }

  function SpeedOf(c: Config, v: Vector): real { Hypot(c.sqrt, v.dx, v.dy) }

  function SpeedsOf(c: Config, vs: seq<Vector>): seq<real> {
    seq(|vs|, i requires 0 <= i < |vs| => SpeedOf(c, vs[i]))
  }

  function Moving(c: Config, median: real): Vector -> bool {
    (v: Vector) => SpeedOf(c, v) >= median * c.movingFraction && SpeedOf(c, v) > 0.0
  }

  function MedianSpeed(c: Config, vs: seq<Vector>): Option<real> {
    if vs == [] then None else Some(Medians.Median(SpeedsOf(c, vs)))
  }

  function Opposing(c: Config, vs: seq<Vector>): Option<real> {
    var median := MedianSpeed(c, vs);
    if median.None? then None
    else
      var moving := Filter(vs, Moving(c, median.value));
      if moving == [] then None else (c.opposing)(moving)
  }

  /** The speed history after a frame: only a frame in which somebody moves leaves a sample. */
  function Remember(c: Config, history: seq<SpeedBaseline.Speed>, at: real,
                    median: Option<real>): seq<SpeedBaseline.Speed> {
    if median.None? then history else SpeedBaseline.Record(c.speeds, history, SpeedBaseline.Speed(at, median.value))
  }

  datatype State = State(history: seq<SpeedBaseline.Speed>, cache: map<string, Option<real>>)

  const FRESH := State([], map[])

  /** The cached area, computed the first time a camera is asked for. */
  function Cached(c: Config, cache: map<string, Option<real>>, camera: Camera): map<string, Option<real>>
    requires ValidConfig(c)
  {
    if camera.id in cache then cache else cache[camera.id := CellArea(c, camera)]
  }

  /** The cache holds nothing but the area of this camera's cells. */
  predicate CacheSound(c: Config, cache: map<string, Option<real>>, camera: Camera)
    requires ValidConfig(c)
  {
    camera.id in cache ==> cache[camera.id] == CellArea(c, camera)
  }

  function Measure(c: Config, tracks: seq<Track>, camera: Camera, area: Option<real>, median: Option<real>,
                   baseline: Option<real>): Indicators.Crowd
    requires ValidConfig(c) && (area.Some? ==> area.value > 0.0)
  {
    Indicators.Crowd(area.Some?, GridPeak(c, tracks, area, c.rows), median, baseline,
                     Opposing(c, Velocities(tracks, camera.homography.Some?)), Occupancies(c, tracks, camera.zones))
  }

  /** One window: the measurements, and the state left behind. */
  function Analyze(c: Config, s: State, tracks: seq<Track>, at: real, camera: Camera): (Indicators.Crowd, State)
    requires ValidConfig(c) && CacheSound(c, s.cache, camera)
  {
    var cache := Cached(c, s.cache, camera);
    var median := MedianSpeed(c, Velocities(tracks, camera.homography.Some?));
    var history := Remember(c, s.history, at, median);
    (Measure(c, tracks, camera, cache[camera.id], median, SpeedBaseline.BaselineWith(c.speeds, s.history, at, median)),
     State(history, cache))
  }

  lemma {:induction false} RowPeakIsLargest(c: Config, tracks: seq<Track>, area: Option<real>, row: nat, cols: nat)
    requires ValidConfig(c) && (area.Some? ==> area.value > 0.0)
    ensures forall j: nat ::
              j < cols ==> Density(CellCount(c, tracks, row, j), area) <= RowPeak(c, tracks, area, row, cols)
    ensures RowPeak(c, tracks, area, row, cols) == 0.0 ||
            exists j: nat ::
              j < cols && RowPeak(c, tracks, area, row, cols) == Density(CellCount(c, tracks, row, j), area)
  {
    if cols > 0 {
      RowPeakIsLargest(c, tracks, area, row, cols - 1);
    }
  }

  /** The peak is the density of some cell, or zero, and no cell is denser. */
  lemma {:induction false} GridPeakIsLargest(c: Config, tracks: seq<Track>, area: Option<real>, rows: nat)
    requires ValidConfig(c) && (area.Some? ==> area.value > 0.0)
    ensures forall i: nat, j: nat :: i < rows && j < c.cols ==>
                                       Density(CellCount(c, tracks, i, j), area) <= GridPeak(c, tracks, area, rows)
    ensures GridPeak(c, tracks, area, rows) == 0.0 ||
            exists i: nat, j: nat :: i < rows && j < c.cols &&
                                     GridPeak(c, tracks, area, rows) == Density(CellCount(c, tracks, i, j), area)
  {
    if rows > 0 {
      GridPeakIsLargest(c, tracks, area, rows - 1);
      RowPeakIsLargest(c, tracks, area, rows - 1, c.cols);
    }
  }

  class GridCrowdAnalyzer {
    const cfg: Config
    const camera: Camera
    var speedHistory: seq<SpeedBaseline.Speed>
    var cellAreaCache: map<string, Option<real>>

    ghost function Now(): State
      reads this
    {
      State(speedHistory, cellAreaCache)
    }

    ghost predicate Valid()
      reads this
    {
      ValidConfig(cfg) && CacheSound(cfg, cellAreaCache, camera)
    }

    constructor (cfg: Config, camera: Camera)
      requires ValidConfig(cfg)
      ensures Valid() && Now() == FRESH && this.cfg == cfg && this.camera == camera
    {
      this.cfg, this.camera := cfg, camera;
      speedHistory, cellAreaCache := [], map[];
    }

    method CellAreaOf() returns (area: Option<real>)
      requires Valid()
      modifies this`cellAreaCache
      ensures Valid() && cellAreaCache == Cached(cfg, old(cellAreaCache), camera)
      ensures area == CellArea(cfg, camera)
    {
      if camera.id !in cellAreaCache {
        cellAreaCache := cellAreaCache[camera.id := CellArea(cfg, camera)];
      }
      return cellAreaCache[camera.id];
    }

    method RecordSpeed(at: real, speed: real)
      modifies this`speedHistory
      ensures speedHistory == SpeedBaseline.Record(cfg.speeds, old(speedHistory), SpeedBaseline.Speed(at, speed))
    {
      speedHistory := speedHistory + [SpeedBaseline.Speed(at, speed)];
      var cutoff := at - cfg.speeds.window;
      ghost var whole := SpeedBaseline.Record(cfg.speeds, old(speedHistory), SpeedBaseline.Speed(at, speed));
      while speedHistory != [] && speedHistory[0].at < cutoff
        invariant Window.DropWhile(speedHistory, SpeedBaseline.OlderThan(cutoff)) == whole
        decreases |speedHistory|
      {
        speedHistory := speedHistory[1..];
      }
    }

    method AnalyzeFrame(tracks: seq<Track>, at: real) returns (crowd: Indicators.Crowd)
      requires Valid()
      modifies this
      ensures Valid() && (crowd, Now()) == Analyze(cfg, old(Now()), tracks, at, camera)
    {
      var area := CellAreaOf();
      var peak := FindPeak(tracks, area);
      var vs := Velocities(tracks, camera.homography.Some?);
      var median := MedianSpeed(cfg, vs);
      if median.Some? {
        RecordSpeed(at, median.value);
      }
      return Indicators.Crowd(area.Some?, peak, median, SpeedBaseline.Baseline(cfg.speeds, speedHistory),
                              Opposing(cfg, vs), Occupancies(cfg, tracks, camera.zones));
    }

    /** The highest density of any cell. */
    method FindPeak(tracks: seq<Track>, area: Option<real>) returns (peak: real)
      requires Valid() && (area.Some? ==> area.value > 0.0)
      ensures peak == GridPeak(cfg, tracks, area, cfg.rows)
    {
      var grid := CountGrid(cfg, tracks);
      peak := 0.0;
      for i := 0 to cfg.rows
        invariant peak == GridPeak(cfg, tracks, area, i)
      {
        var row := 0.0;
        for j := 0 to cfg.cols
          invariant row == RowPeak(cfg, tracks, area, i, j)
        {
          row := Max(row, Density(grid[i, j], area));
        }
        peak := Max(peak, row);
      }
    }

    /** Forget the speeds; the cell area describes the calibration and stays. */
    method Reset()
      requires Valid()
      modifies this
      ensures Valid() && Now() == State([], old(cellAreaCache))
    {
      speedHistory := [];
    }
  }
}
