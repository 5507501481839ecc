/** The first crossing of a piecewise-linear forecast with a threshold (ai/surgeguard_ai/site/pressure.py). */
module Pressure {
  import opened Common
  import opened Reals

  /** The expected length `value` at `minutes` ahead. */
  datatype Knot = Knot(minutes: real, value: real)

  datatype TimeToPressure = TimeToPressure(minutes: Option<real>, alreadyExceeded: bool, withinHorizon: bool,
                                           horizon: real, threshold: Option<real>)

  /** The scan: where the straight line into the first point above the threshold meets it. */
  function Crossing(previous: Knot, points: seq<Knot>, threshold: real): Option<real>
    decreases |points|
  {
    if points == [] then None
    else if points[0].value > threshold then Some(Max(0.0, Interpolated(previous, points[0], threshold)))
    else Crossing(points[0], points[1..], threshold)
  }

  /** The point a share `u` of the way from one knot to the next. */
  function Along(a: Knot, b: Knot, u: real): Knot {
    Knot(a.minutes + u * (b.minutes - a.minutes), a.value + u * (b.value - a.value))
  }

  function Fraction(a: Knot, b: Knot, threshold: real): real {
    var span := b.value - a.value;
    if span > 0.0 then (threshold - a.value) / span else 1.0
  }

  function Interpolated(a: Knot, b: Knot, threshold: real): real {
    Along(a, b, Fraction(a, b, threshold)).minutes
  }

  /** The whole answer, or none without a forecast. */
  function Answer(current: nat, points: seq<Knot>, capacity: real, target: real): Option<TimeToPressure> {
    if points == [] then None
    else
      var horizon := points[|points| - 1].minutes;
      if capacity <= 0.0 then
        var exceeded := current > 0;
        Some(TimeToPressure(if exceeded then Some(0.0) else None, exceeded, exceeded, horizon, None))
      else
        var threshold := target * capacity;
        if current as real > threshold then Some(TimeToPressure(Some(0.0), true, true, horizon, Some(threshold)))
        else
          var m := Crossing(Knot(0.0, current as real), points, threshold);
          Some(TimeToPressure(m, false, m.Some?, horizon, Some(threshold)))
  }

  /** The first point above the threshold, or the number of points when there is none. */
  function FirstAbove(points: seq<Knot>, threshold: real): (i: nat)
    ensures i <= |points|
    ensures forall j :: 0 <= j < i ==> points[j].value <= threshold
    ensures i < |points| ==> points[i].value > threshold
  {
    if points == [] || points[0].value > threshold then 0 else 1 + FirstAbove(points[1..], threshold)
  }

  // -- The forecast as a path: any horizons, equal ones included --------------------------------------------

  function Path(from: Knot, points: seq<Knot>): (knots: seq<Knot>)
    ensures |knots| == |points| + 1
  {
    [from] + points
  }

  ghost predicate SegmentUpTo(a: Knot, b: Knot, threshold: real, u: real) {
    forall v :: 0.0 <= v <= u ==> Along(a, b, v).value <= threshold
  }

  ghost predicate SegmentAfter(a: Knot, b: Knot, threshold: real, u: real) {
    forall v :: u < v <= 1.0 ==> Along(a, b, v).value > threshold
  }

  /** The first `n` segments stay at or below the threshold. */
  ghost predicate PathStays(knots: seq<Knot>, threshold: real, n: nat)
    requires n < |knots|
  {
    forall i :: 0 <= i < n ==> SegmentUpTo(knots[i], knots[i + 1], threshold, 1.0)
  }

  /** The path is at the threshold a share `u` along segment `i`, at or below it before, and above it from there to the
      end of the segment. */
  ghost predicate PathCrosses(knots: seq<Knot>, threshold: real, i: nat, u: real)
    requires i + 1 < |knots|
  {
    && 0.0 <= u < 1.0
    && PathStays(knots, threshold, i)
    && Along(knots[i], knots[i + 1], u).value == threshold
    && SegmentUpTo(knots[i], knots[i + 1], threshold, u)
    && SegmentAfter(knots[i], knots[i + 1], threshold, u)
  }

  lemma BetweenEnds(x: real, y: real, top: real, v: real)
    requires 0.0 <= v <= 1.0 && x <= top && y <= top
    ensures x + v * (y - x) <= top
  {
    ProductNonNegative(v, top - y);
    ProductNonNegative(1.0 - v, top - x);
    assert v * (top - y) + (1.0 - v) * (top - x) == top - (x + v * (y - x));
  }

  lemma {:induction false} LowSegment(a: Knot, b: Knot, threshold: real)
    requires a.value <= threshold && b.value <= threshold
    ensures SegmentUpTo(a, b, threshold, 1.0)
  {
    forall v | 0.0 <= v <= 1.0 ensures Along(a, b, v).value <= threshold {
      BetweenEnds(a.value, b.value, threshold, v);
    }
  }

  lemma OnEitherSide(x: real, rise: real, top: real, u: real, v: real)
    requires rise > 0.0 && x + u * rise == top
    ensures v <= u ==> x + v * rise <= top
    ensures u < v ==> x + v * rise > top
  {
    Monotone(rise, v, u);
    Monotone(rise, u, v);
  }

  lemma {:induction false} AlongEitherSide(a: Knot, b: Knot, threshold: real, u: real, v: real)
    requires a.value < b.value && Along(a, b, u).value == threshold
    ensures v <= u ==> Along(a, b, v).value <= threshold
    ensures u < v ==> Along(a, b, v).value > threshold
  {
    OnEitherSide(a.value, b.value - a.value, threshold, u, v);
  }

  lemma {:induction false} FractionInside(a: Knot, b: Knot, threshold: real)
    requires a.value <= threshold < b.value
    ensures 0.0 <= Fraction(a, b, threshold) < 1.0
    ensures Fraction(a, b, threshold) * (b.value - a.value) == threshold - a.value
  {
    DivideBack(threshold - a.value, b.value - a.value);
  }

  lemma {:induction false} ShareMeets(a: Knot, b: Knot, threshold: real) returns (u: real)
    requires a.value <= threshold < b.value
    ensures 0.0 <= u < 1.0 && Along(a, b, u).value == threshold
    ensures Along(a, b, u).minutes == Interpolated(a, b, threshold)
  {
    u := Fraction(a, b, threshold);
    FractionInside(a, b, threshold);
  }

  /** A segment that starts at or below the threshold and ends above it meets it where the interpolation says. */
  lemma {:induction false} RisingSegment(a: Knot, b: Knot, threshold: real) returns (u: real)
    requires a.value <= threshold < b.value
    ensures 0.0 <= u < 1.0 && Along(a, b, u).value == threshold
    ensures Along(a, b, u).minutes == Interpolated(a, b, threshold)
    ensures SegmentUpTo(a, b, threshold, u) && SegmentAfter(a, b, threshold, u)
  {
    u := ShareMeets(a, b, threshold);
    forall v
      ensures v <= u ==> Along(a, b, v).value <= threshold
      ensures u < v ==> Along(a, b, v).value > threshold
    {
      AlongEitherSide(a, b, threshold, u, v);
    }
  }

  /** The scan stops at the first point above the threshold and interpolates on the segment before it. */
  lemma {:induction false} CrossingAtFirstAbove(from: Knot, points: seq<Knot>, threshold: real)
    ensures var i, knots := FirstAbove(points, threshold), Path(from, points);
            Crossing(from, points, threshold)
              == if i == |points| then None else Some(Max(0.0, Interpolated(knots[i], knots[i + 1], threshold)))
    decreases |points|
  {
    if points != [] && points[0].value <= threshold {
      CrossingAtFirstAbove(points[0], points[1..], threshold);
      assert Path(from, points)[1..] == Path(points[0], points[1..]);
    }
  }

  lemma {:induction false} LowPath(from: Knot, points: seq<Knot>, threshold: real)
    requires from.value <= threshold
    ensures PathStays(Path(from, points), threshold, FirstAbove(points, threshold))
  {
    var knots := Path(from, points);
    forall i | 0 <= i < FirstAbove(points, threshold)
      ensures SegmentUpTo(knots[i], knots[i + 1], threshold, 1.0) {
      LowSegment(knots[i], knots[i + 1], threshold);
    }
  }

  /** Whatever the horizons, the minute answered is that of the place where the path first passes the threshold, on the
      segment that ends at the first point above it; no answer means that the whole path stays at or below the
      threshold, and only that. */
  lemma {:induction false} CrossingOnPath(from: Knot, points: seq<Knot>, threshold: real)
    requires from.value <= threshold
    ensures var i, knots := FirstAbove(points, threshold), Path(from, points);
            && (Crossing(from, points, threshold).None? <==> PathStays(knots, threshold, |points|))
            && (Crossing(from, points, threshold).None? <==> i == |points|)
            && (i < |points| ==>
                  exists u :: PathCrosses(knots, threshold, i, u)
                    && Crossing(from, points, threshold) == Some(Max(0.0, Along(knots[i], knots[i + 1], u).minutes)))
  {
    var i, knots := FirstAbove(points, threshold), Path(from, points);
    CrossingAtFirstAbove(from, points, threshold);
    LowPath(from, points, threshold);
    if i < |points| {
      var u := RisingSegment(knots[i], knots[i + 1], threshold);
      assert PathCrosses(knots, threshold, i, u);
      assert Along(knots[i], knots[i + 1], 1.0).value > threshold;
      assert !SegmentUpTo(knots[i], knots[i + 1], threshold, 1.0);
    }
  }

  /** Horizons in ascending order and none before now, as the configuration demands; equal ones are allowed. */
  ghost predicate Ascending(knots: seq<Knot>) {
    forall i, j :: 0 <= i <= j < |knots| ==> 0.0 <= knots[i].minutes <= knots[j].minutes
  }

  /** Then the floor at now is idle: the answer is no earlier than the last point still at or below the threshold. */
  lemma {:induction false} NeverBeforeNow(knots: seq<Knot>, i: nat, u: real)
    requires Ascending(knots) && i + 1 < |knots| && 0.0 <= u <= 1.0
    ensures 0.0 <= knots[i].minutes <= Along(knots[i], knots[i + 1], u).minutes <= knots[i + 1].minutes
  {
    var a, b := knots[i].minutes, knots[i + 1].minutes;
    ProductNonNegative(u, b - a);
    BetweenEnds(a, b, b, u);
  }

  // -- The forecast as a curve ------------------------------------------------------------------------------

  predicate Before(a: Knot, b: Knot) { a.minutes < b.minutes }

  predicate Increasing(from: Knot, points: seq<Knot>)
    decreases |points|
  {
    points == [] || (Before(from, points[0]) && Increasing(points[0], points[1..]))
  }

  function Slope(a: Knot, b: Knot): real
    requires Before(a, b)
  {
    (b.value - a.value) / (b.minutes - a.minutes)
  }

  function Line(a: Knot, b: Knot, t: real): real
    requires Before(a, b)
  {
    a.value + Slope(a, b) * (t - a.minutes)
  }

  /** The piecewise-linear forecast that starts at `from`; its last value is held. */
  function Curve(from: Knot, points: seq<Knot>, t: real): real
    requires Increasing(from, points)
    decreases |points|
  {
    if points == [] then from.value
    else if t <= points[0].minutes then Line(from, points[0], t)
    else Curve(points[0], points[1..], t)
  }

  /** The curve meets the threshold at `m`, has not been above it before, and is above it from then to `end`. */
  ghost predicate FirstCrossing(from: Knot, points: seq<Knot>, threshold: real, m: real, end: real)
    requires Increasing(from, points)
  {
    && from.minutes <= m < end
    && Curve(from, points, m) == threshold
    && (forall t :: from.minutes <= t <= m ==> Curve(from, points, t) <= threshold)
    && (forall t :: m < t <= end ==> Curve(from, points, t) > threshold)
  }

  ghost predicate StaysBelow(from: Knot, points: seq<Knot>, threshold: real)
    requires Increasing(from, points)
  {
    forall t :: t >= from.minutes ==> Curve(from, points, t) <= threshold
  }

  // -- One segment ------------------------------------------------------------------------------------------

  lemma DivideBack(x: real, d: real)
    requires d > 0.0
    ensures x / d * d == x
    ensures x > 0.0 ==> x / d > 0.0
    ensures x >= 0.0 ==> x / d >= 0.0
    ensures x < d ==> x / d < 1.0
  {
    var q := x / d;
    assert q * d == x;
    AtLeastWhole(x, d, q);
  }

  lemma AtLeastWhole(x: real, d: real, q: real)
    requires d > 0.0 && q * d == x
    ensures q >= 1.0 ==> x >= d
  {
    if q >= 1.0 {
      ProductNonNegative(q - 1.0, d);
      assert (q - 1.0) * d == q * d - d;
    }
  }

  lemma Monotone(k: real, x: real, y: real)
    requires k > 0.0
    ensures x < y ==> k * x < k * y
    ensures x == y ==> k * x == k * y
  {
    if x < y {
      ProductPositive(k, y - x);
    }
  }

  /** Rise over run, times the run, is the rise: a fraction of the one goes with that fraction of the other. */
  lemma RiseFromSlope(slope: real, run: real, rise: real, part: real, fraction: real, dt: real)
    requires slope * run == rise && fraction * rise == part && dt == fraction * run
    ensures slope * dt == part
  {
    assert slope * (fraction * run) == fraction * (slope * run);
  }

  lemma {:induction false} LineRises(a: Knot, b: Knot, t: real, t': real)
    requires Before(a, b) && Slope(a, b) > 0.0
    ensures t < t' ==> Line(a, b, t) < Line(a, b, t')
  {
    Monotone(Slope(a, b), t - a.minutes, t' - a.minutes);
  }

  lemma {:induction false} Interpolates(a: Knot, b: Knot, threshold: real, dt: real)
    requires Before(a, b) && a.value <= threshold < b.value && dt == Fraction(a, b, threshold) * (b.minutes - a.minutes)
    ensures 0.0 <= dt < b.minutes - a.minutes && Interpolated(a, b, threshold) == a.minutes + dt
  {
    FractionInside(a, b, threshold);
    FractionOf(Fraction(a, b, threshold), b.minutes - a.minutes);
  }

  lemma {:induction false} SlopeUp(a: Knot, b: Knot)
    requires Before(a, b)
    ensures Slope(a, b) * (b.minutes - a.minutes) == b.value - a.value
    ensures a.value < b.value ==> Slope(a, b) > 0.0
  {
    DivideBack(b.value - a.value, b.minutes - a.minutes);
  }

  lemma {:induction false} InterpolatedOnLine(a: Knot, b: Knot, threshold: real)
    requires Before(a, b) && a.value <= threshold < b.value
    ensures var m := Interpolated(a, b, threshold);
            a.minutes <= m < b.minutes && Line(a, b, m) == threshold && Slope(a, b) > 0.0
  {
    var rise, run, part := b.value - a.value, b.minutes - a.minutes, threshold - a.value;
    var fraction := Fraction(a, b, threshold);
    var dt := fraction * run;
    FractionInside(a, b, threshold);
    Interpolates(a, b, threshold, dt);
    SlopeUp(a, b);
    RiseFromSlope(Slope(a, b), run, rise, part, fraction, dt);
    LineAt(a, b, Interpolated(a, b, threshold), dt, part);
  }

  lemma LineAt(a: Knot, b: Knot, t: real, dt: real, part: real)
    requires Before(a, b) && t == a.minutes + dt && Slope(a, b) * dt == part
    ensures Line(a, b, t) == a.value + part
  {
    assert t - a.minutes == dt;
  }

  /** A rising segment meets the threshold once, where the interpolation says. */
  lemma {:induction false} SegmentCrosses(a: Knot, b: Knot, threshold: real)
    requires Before(a, b) && a.value <= threshold < b.value
    ensures var m := Interpolated(a, b, threshold);
            && a.minutes <= m < b.minutes && Line(a, b, m) == threshold
            && (forall t :: t < m ==> Line(a, b, t) < threshold)
            && (forall t :: t > m ==> Line(a, b, t) > threshold)
  {
    var m := Interpolated(a, b, threshold);
    InterpolatedOnLine(a, b, threshold);
    forall t ensures t < m ==> Line(a, b, t) < threshold {
      LineRises(a, b, t, m);
    }
    forall t ensures t > m ==> Line(a, b, t) > threshold {
      LineRises(a, b, m, t);
    }
  }

  lemma FractionOf(f: real, x: real)
    requires 0.0 <= f < 1.0 && x > 0.0
    ensures 0.0 <= f * x < x
  {
    Monotone(x, f, 1.0);
    if f > 0.0 {
      ProductPositive(f, x);
    }
  }

  /** A segment between two points at or below the threshold stays there. */
  lemma {:induction false} SegmentStays(a: Knot, b: Knot, threshold: real, t: real)
    requires Before(a, b) && a.value <= threshold && b.value <= threshold && a.minutes <= t <= b.minutes
    ensures Line(a, b, t) <= threshold
  {
    var rise, run := b.value - a.value, b.minutes - a.minutes;
    var slope := rise / run;
    DivideBack(rise, run);
    if slope >= 0.0 {
      if slope > 0.0 && t < b.minutes {
        Monotone(slope, t - a.minutes, run);
      }
    } else if t > a.minutes {
      ProductNonNegative(-slope, t - a.minutes);
      assert slope * (t - a.minutes) <= 0.0;
    }
  }

  // -- The whole curve --------------------------------------------------------------------------------------

  lemma {:induction false} CurveSplits(from: Knot, points: seq<Knot>)
    requires points != [] && Increasing(from, points)
    ensures Line(from, points[0], points[0].minutes) == points[0].value
    ensures forall t :: t <= points[0].minutes ==> Curve(from, points, t) == Line(from, points[0], t)
    ensures forall t :: t > points[0].minutes ==> Curve(from, points, t) == Curve(points[0], points[1..], t)
    ensures Curve(points[0], points[1..], points[0].minutes) == points[0].value
  {
    DivideBack(points[0].value - from.value, points[0].minutes - from.minutes);
    if |points| > 1 {
      assert points[0].minutes - points[0].minutes == 0.0;
    }
  }

  lemma {:induction false} StartsWithSegment(from: Knot, points: seq<Knot>, threshold: real)
    requires points != [] && Increasing(from, points) && from.value <= threshold < points[0].value
    ensures FirstCrossing(from, points, threshold, Interpolated(from, points[0], threshold), points[0].minutes)
  {
    SegmentCrosses(from, points[0], threshold);
    CurveSplits(from, points);
  }

  /** With different horizons the forecast is a curve over time, and the minute answered is its true first crossing: it
      is above the threshold from then to the first point above it. No answer means that the whole curve stays at or
      below the threshold, and only that. */
  lemma {:induction false} CrossingIsFirst(from: Knot, points: seq<Knot>, threshold: real)
    requires Increasing(from, points) && from.value <= threshold && from.minutes >= 0.0
    ensures Crossing(from, points, threshold).None? <==> StaysBelow(from, points, threshold)
    ensures Crossing(from, points, threshold).None? <==> FirstAbove(points, threshold) == |points|
    ensures var i := FirstAbove(points, threshold);
            i < |points| ==>
              FirstCrossing(from, points, threshold, Crossing(from, points, threshold).value, points[i].minutes)
    decreases |points|
  {
    if points != [] {
      CurveSplits(from, points);
      if points[0].value > threshold {
        StartsWithSegment(from, points, threshold);
        assert Curve(from, points, points[0].minutes) > threshold;
      } else {
        forall t | from.minutes <= t <= points[0].minutes ensures Curve(from, points, t) <= threshold {
          SegmentStays(from, points[0], threshold, t);
        }
        CrossingIsFirst(points[0], points[1..], threshold);
      }
    }
  }

  /** With a counter serving, at any horizons: already exceeded exactly when the queue is above the threshold now;
      otherwise the place where the path first passes it, or none while it never does. */
  ghost predicate FirstPassing(current: nat, points: seq<Knot>, threshold: real, r: TimeToPressure) {
    var i, knots := FirstAbove(points, threshold), Path(Knot(0.0, current as real), points);
    && r.threshold == Some(threshold)
    && r.withinHorizon == r.minutes.Some?
    && (r.alreadyExceeded <==> current as real > threshold)
    && (r.alreadyExceeded ==> r.minutes == Some(0.0))
    && (r.minutes.None? <==> PathStays(knots, threshold, |points|))
    && (r.minutes.Some? && !r.alreadyExceeded ==>
          && i < |points|
          && exists u :: PathCrosses(knots, threshold, i, u)
               && r.minutes == Some(Max(0.0, Along(knots[i], knots[i + 1], u).minutes)))
  }

  /** Without one: whoever waits is past any target now, and there is no threshold. */
  predicate NobodyServes(current: nat, r: TimeToPressure) {
    && r.threshold == None
    && r.alreadyExceeded == r.withinHorizon == (current > 0)
    && r.minutes == if current > 0 then Some(0.0) else None
  }

  /** What the answer means: there is one exactly when there is a forecast, and it covers all of it. */
  lemma {:induction false} AnswerIsFirstCrossing(current: nat, points: seq<Knot>, capacity: real, target: real)
    ensures var r := Answer(current, points, capacity, target);
            && (r.Some? <==> points != [])
            && (r.Some? ==> r.value.horizon == points[|points| - 1].minutes)
            && (r.Some? && capacity <= 0.0 ==> NobodyServes(current, r.value))
            && (r.Some? && capacity > 0.0 ==> FirstPassing(current, points, target * capacity, r.value))
  {
    var from, threshold := Knot(0.0, current as real), target * capacity;
    if capacity > 0.0 && current as real <= threshold {
      CrossingOnPath(from, points, threshold);
    } else if capacity > 0.0 && points != [] {
      assert Along(from, points[0], 0.0).value > threshold;
      var knots := Path(from, points);
      assert !SegmentUpTo(knots[0], knots[1], threshold, 1.0);
    }
  }

  /** The scan with its early returns gives the specified answer. */
  method FindTimeToPressure(current: nat, points: seq<Knot>, capacity: real, target: real)
    returns (r: Option<TimeToPressure>)
    ensures r == Answer(current, points, capacity, target)
  {
    if points == [] {
      return None;
    }
    var horizon := points[|points| - 1].minutes;
    if capacity <= 0.0 {
      var exceeded := current > 0;
      return Some(TimeToPressure(if exceeded then Some(0.0) else None, exceeded, exceeded, horizon, None));
    }
    var threshold := target * capacity;
    if current as real > threshold {
      return Some(TimeToPressure(Some(0.0), true, true, horizon, Some(threshold)));
    }
    var previousMinutes, previousValue := 0.0, current as real;
    ghost var whole := Crossing(Knot(0.0, current as real), points, threshold);
    for i := 0 to |points|
      invariant whole == Crossing(Knot(previousMinutes, previousValue), points[i..], threshold)
    {
      var point := points[i];
      if point.value > threshold {
        var span := point.value - previousValue;
        var fraction := if span > 0.0 then (threshold - previousValue) / span else 1.0;
        var minutes := previousMinutes + fraction * (point.minutes - previousMinutes);
        assert minutes == Interpolated(Knot(previousMinutes, previousValue), point, threshold);
        return Some(TimeToPressure(Some(Max(0.0, minutes)), false, true, horizon, Some(threshold)));
      }
      previousMinutes, previousValue := point.minutes, point.value;
      assert points[i..][1..] == points[i + 1..];
    }
    return Some(TimeToPressure(None, false, false, horizon, Some(threshold)));
  }
}
