/** Piecewise-linear maps from a measurement to instability pressure (ai/surgeguard_ai/stability/config.py). */
module Curves {
  import opened Common
  import opened Reals

  datatype Knot = Knot(measurement: real, pressure: real)

  predicate Ordered(a: Knot, b: Knot) { a.measurement <= b.measurement }
  predicate StrictlyOrdered(a: Knot, b: Knot) { a.measurement < b.measurement }
  predicate Rises(a: Knot, b: Knot) { a.pressure <= b.pressure }

  /** What the configuration accepts. */
  predicate ValidCurve(ks: seq<Knot>) {
    && |ks| >= 2
    && (forall i :: 0 < i < |ks| ==> Ordered(ks[i - 1], ks[i]))
    && (forall k :: k in ks ==> 0.0 <= k.pressure <= 100.0)
  }

  predicate Rising(ks: seq<Knot>) {
    forall i :: 0 < i < |ks| ==> Rises(ks[i - 1], ks[i])
  }

  predicate Strict(ks: seq<Knot>) {
    forall i :: 0 < i < |ks| ==> StrictlyOrdered(ks[i - 1], ks[i])
  }

  function Abs(x: real): real { if x >= 0.0 then x else -x }

  /** Equal but for a relative error of a billionth. */
  predicate IsClose(x: real, y: real) {
    Abs(x - y) <= 0.000000001 * Max(Abs(x), Abs(y))
  }

  /** The pressure on one segment; one that is next to no distance long has that of its end. */
  function OnSegment(a: Knot, b: Knot, x: real): real {
    if IsClose(b.measurement, a.measurement) then b.pressure
    else a.pressure + ShareOf(b.pressure - a.pressure, x - a.measurement, b.measurement - a.measurement)
  }

  function ShareOf(rise: real, part: real, run: real): real
    requires run != 0.0
  {
    rise * part / run
  }

  /** The first segment that holds the measurement decides; past them all, the last pressure. */
  function Scan(ks: seq<Knot>, x: real): real
    requires |ks| >= 1
  {
    if |ks| == 1 then ks[0].pressure
    else if ks[0].measurement <= x <= ks[1].measurement then OnSegment(ks[0], ks[1], x)
    else Scan(ks[1..], x)
  }

  /** The curve, held level outside its knots. */
  function PressureFor(ks: seq<Knot>, x: real): real
    requires |ks| >= 1
  {
    if x <= ks[0].measurement then ks[0].pressure
    else if x >= ks[|ks| - 1].measurement then ks[|ks| - 1].pressure
    else Scan(ks, x)
  }

  // -- One segment ------------------------------------------------------------------------------------------

  lemma Share(rise: real, part: real, run: real)
    requires run > 0.0 && 0.0 <= part <= run
    ensures rise >= 0.0 ==> 0.0 <= ShareOf(rise, part, run) <= rise
    ensures rise <= 0.0 ==> rise <= ShareOf(rise, part, run) <= 0.0
    ensures part == run ==> ShareOf(rise, part, run) == rise
  {
    var f := part / run;
    QuotientOrder(part, part, run);
    AtMostOne(f, run, part);
    Regroup(rise, f, run, part);
    Products(rise, f);
  }

  lemma AtMostOne(f: real, run: real, part: real)
    requires run > 0.0 && f * run == part && 0.0 <= part <= run
    ensures 0.0 <= f <= 1.0 && (part == run ==> f == 1.0)
  {
    Signs(f, run);
    Signs(f - 1.0, run);
    assert (f - 1.0) * run == part - run;
  }

  lemma Signs(f: real, run: real)
    requires run > 0.0
    ensures f > 0.0 ==> f * run > 0.0
    ensures f < 0.0 ==> f * run < 0.0
  {
  }

  lemma Regroup(rise: real, f: real, run: real, part: real)
    requires run > 0.0 && f * run == part
    ensures ShareOf(rise, part, run) == rise * f
  {
    assert rise * part == (rise * f) * run;
    Undo(rise * f, run);
  }

  lemma Undo(x: real, d: real)
    requires d > 0.0
    ensures x * d / d == x
  {
  }

  lemma Products(x: real, f: real)
    requires 0.0 <= f <= 1.0
    ensures x >= 0.0 ==> 0.0 <= x * f <= x
    ensures x <= 0.0 ==> x <= x * f <= 0.0
    ensures f == 1.0 ==> x * f == x
  {
    var y := if x >= 0.0 then x else -x;
    ProductNonNegative(y, f);
    ProductNonNegative(y, 1.0 - f);
    Distribute(y, 1.0, -f);
  }

  lemma EqualIsClose(x: real, y: real)
    ensures x == y ==> IsClose(x, y)
  {
  }

  /** On a segment the pressure stays between its ends, and reaches the second one at the end. */
  lemma {:induction false} SegmentBetween(a: Knot, b: Knot, x: real)
    requires a.measurement <= x <= b.measurement
    ensures a.pressure <= b.pressure ==> a.pressure <= OnSegment(a, b, x) <= b.pressure
    ensures b.pressure <= a.pressure ==> b.pressure <= OnSegment(a, b, x) <= a.pressure
    ensures x == b.measurement ==> OnSegment(a, b, x) == b.pressure
  {
    EqualIsClose(b.measurement, a.measurement);
    if !IsClose(b.measurement, a.measurement) {
      Share(b.pressure - a.pressure, x - a.measurement, b.measurement - a.measurement);
    }
  }

  lemma ShareGrows(rise: real, p: real, q: real, run: real)
    requires run > 0.0 && rise >= 0.0 && p <= q
    ensures ShareOf(rise, p, run) <= ShareOf(rise, q, run)
  {
    ProductNonNegative(rise, q - p);
    Distribute(rise, q, -p);
    QuotientOrder(rise * p, rise * q, run);
  }

  lemma {:induction false} SegmentMonotone(a: Knot, b: Knot, x: real, y: real)
    requires a.measurement <= x <= y <= b.measurement && a.pressure <= b.pressure
    ensures OnSegment(a, b, x) <= OnSegment(a, b, y)
  {
    EqualIsClose(b.measurement, a.measurement);
    if !IsClose(b.measurement, a.measurement) {
      ShareGrows(b.pressure - a.pressure, x - a.measurement, y - a.measurement, b.measurement - a.measurement);
    }
  }

  // -- The whole curve --------------------------------------------------------------------------------------

  lemma {:induction false} Tail(ks: seq<Knot>)
    requires |ks| >= 2 && forall i :: 0 < i < |ks| ==> Ordered(ks[i - 1], ks[i])
    ensures Ordered(ks[0], ks[1]) && (Rising(ks) ==> Rises(ks[0], ks[1]))
    ensures forall i :: 0 < i < |ks[1..]| ==> Ordered(ks[1..][i - 1], ks[1..][i])
    ensures Rising(ks) ==> Rising(ks[1..])
  {
    forall i | 0 < i < |ks[1..]|
      ensures Ordered(ks[1..][i - 1], ks[1..][i])
      ensures Rising(ks) ==> Rises(ks[1..][i - 1], ks[1..][i])
    {
      assert Ordered(ks[i], ks[i + 1]);
      assert Rising(ks) ==> Rises(ks[i], ks[i + 1]);
    }
  }

  ghost predicate PressuresWithin(ks: seq<Knot>, lo: real, hi: real) {
    forall i :: 0 <= i < |ks| ==> lo <= ks[i].pressure <= hi
  }

  lemma {:induction false} ScanWithin(ks: seq<Knot>, x: real, lo: real, hi: real)
    requires |ks| >= 1 && PressuresWithin(ks, lo, hi)
    ensures lo <= Scan(ks, x) <= hi
  {
    if |ks| > 1 {
      if ks[0].measurement <= x <= ks[1].measurement {
        SegmentBetween(ks[0], ks[1], x);
      }
      ScanWithin(ks[1..], x, lo, hi);
    }
  }

  /** A valid curve only ever gives pressures between 0 and 100. */
  lemma {:induction false} PressureInRange(ks: seq<Knot>, x: real)
    requires ValidCurve(ks)
    ensures 0.0 <= PressureFor(ks, x) <= 100.0
  {
    assert PressuresWithin(ks, 0.0, 100.0);
    assert ks[0] in ks && ks[|ks| - 1] in ks;
    ScanWithin(ks, x, 0.0, 100.0);
  }

  lemma {:induction false} RisingFromFirst(ks: seq<Knot>, i: nat)
    requires Rising(ks) && i < |ks|
    ensures ks[0].pressure <= ks[i].pressure <= ks[|ks| - 1].pressure
  {
    if i > 0 {
      RisingFromFirst(ks[..|ks| - 1], i - 1);
      assert Rises(ks[i - 1], ks[i]);
    }
    RisingToLast(ks, i);
  }

  lemma {:induction false} RisingToLast(ks: seq<Knot>, i: nat)
    requires Rising(ks) && i < |ks|
    ensures ks[i].pressure <= ks[|ks| - 1].pressure
    decreases |ks| - i
  {
    if i < |ks| - 1 {
      RisingToLast(ks, i + 1);
      assert Rises(ks[i], ks[i + 1]);
    }
  }

  lemma {:induction false} ScanAboveFirst(ks: seq<Knot>, x: real)
    requires |ks| >= 1 && Rising(ks)
    ensures ks[0].pressure <= Scan(ks, x) <= ks[|ks| - 1].pressure
  {
    forall i | 0 <= i < |ks| ensures ks[0].pressure <= ks[i].pressure <= ks[|ks| - 1].pressure {
      RisingFromFirst(ks, i);
    }
    ScanWithin(ks, x, ks[0].pressure, ks[|ks| - 1].pressure);
  }

  lemma {:induction false} ScanMonotone(ks: seq<Knot>, x: real, y: real)
    requires |ks| >= 1 && Rising(ks) && forall i :: 0 < i < |ks| ==> Ordered(ks[i - 1], ks[i])
    requires ks[0].measurement <= x <= y <= ks[|ks| - 1].measurement
    ensures Scan(ks, x) <= Scan(ks, y)
  {
    if |ks| > 1 {
      Tail(ks);
      if y <= ks[1].measurement {
        SegmentMonotone(ks[0], ks[1], x, y);
      } else if x <= ks[1].measurement {
        SegmentBetween(ks[0], ks[1], x);
        ScanAboveFirst(ks[1..], y);
      } else {
        ScanMonotone(ks[1..], x, y);
      }
    }
  }

  /** With knots that rise, so does the curve. */
  lemma {:induction false} CurveMonotone(ks: seq<Knot>, x: real, y: real)
    requires ValidCurve(ks) && Rising(ks) && x <= y
    ensures PressureFor(ks, x) <= PressureFor(ks, y)
  {
    var last := ks[|ks| - 1];
    RisingFromFirst(ks, |ks| - 1);
    ScanAboveFirst(ks, x);
    ScanAboveFirst(ks, y);
    if ks[0].measurement < x <= y < last.measurement {
      ScanMonotone(ks, x, y);
    }
  }

  /** No knot before the `i`th has its measurement. */
  ghost predicate FirstOfItsKind(ks: seq<Knot>, i: nat)
    requires i < |ks|
  {
    forall j :: 0 <= j < i ==> StrictlyOrdered(ks[j], ks[i])
  }

  lemma {:induction false} ScanAtKnot(ks: seq<Knot>, i: nat)
    requires forall j :: 0 < j < |ks| ==> Ordered(ks[j - 1], ks[j])
    requires 0 < i < |ks| && FirstOfItsKind(ks, i)
    ensures Scan(ks, ks[i].measurement) == ks[i].pressure
  {
    Tail(ks);
    assert StrictlyOrdered(ks[0], ks[i]);
    if i == 1 {
      SegmentBetween(ks[0], ks[1], ks[1].measurement);
    } else {
      assert StrictlyOrdered(ks[1], ks[i]);
      ScanAtKnot(ks[1..], i - 1);
    }
  }

  lemma {:induction false} OrderedBetween(ks: seq<Knot>, i: nat, j: nat)
    requires (forall k :: 0 < k < |ks| ==> Ordered(ks[k - 1], ks[k])) && i <= j < |ks|
    ensures Ordered(ks[i], ks[j])
  {
    if i < j {
      OrderedBetween(ks, i, j - 1);
      assert Ordered(ks[j - 1], ks[j]);
    }
  }

  /** Which knot has the say at its measurement: the first one at the start, the last one at the end, and the first of
      its kind in between. */
  ghost predicate HasTheSay(ks: seq<Knot>, i: nat)
    requires i < |ks|
  {
    if ks[i].measurement == ks[0].measurement then i == 0
    else if ks[i].measurement == ks[|ks| - 1].measurement then i == |ks| - 1
    else FirstOfItsKind(ks, i)
  }

  /** The curve passes through the knots that have the say; with measurements that differ, these are all of them. */
  lemma {:induction false} ThroughKnots(ks: seq<Knot>, i: nat)
    requires ValidCurve(ks) && i < |ks|
    ensures HasTheSay(ks, i) ==> PressureFor(ks, ks[i].measurement) == ks[i].pressure
    ensures Strict(ks) ==> HasTheSay(ks, i)
  {
    OrderedBetween(ks, 0, i);
    OrderedBetween(ks, i, |ks| - 1);
    if i > 0 && FirstOfItsKind(ks, i) {
      ScanAtKnot(ks, i);
    }
    if Strict(ks) {
      StrictAround(ks, i);
    }
  }

  lemma {:induction false} StrictBetween(ks: seq<Knot>, i: nat, j: nat)
    requires Strict(ks) && i < j < |ks|
    ensures StrictlyOrdered(ks[i], ks[j])
  {
    if i < j - 1 {
      StrictBetween(ks, i, j - 1);
    }
    assert StrictlyOrdered(ks[j - 1], ks[j]);
  }

  lemma {:induction false} StrictAround(ks: seq<Knot>, i: nat)
    requires Strict(ks) && i < |ks|
    ensures FirstOfItsKind(ks, i) && HasTheSay(ks, i)
  {
    forall j | 0 <= j < i ensures StrictlyOrdered(ks[j], ks[i]) {
      StrictBetween(ks, j, i);
    }
    if i > 0 {
      StrictBetween(ks, 0, i);
    }
    if i < |ks| - 1 {
      StrictBetween(ks, i, |ks| - 1);
    }
  }

  lemma {:induction false} SomeKnotHasTheSay(ks: seq<Knot>, i: nat) returns (j: nat)
    requires i < |ks|
    ensures j < |ks| && ks[j].measurement == ks[i].measurement && HasTheSay(ks, j)
    requires forall k :: 0 < k < |ks| ==> Ordered(ks[k - 1], ks[k])
  {
    if ks[i].measurement == ks[0].measurement {
      j := 0;
    } else if ks[i].measurement == ks[|ks| - 1].measurement {
      j := |ks| - 1;
    } else if FirstOfItsKind(ks, i) {
      j := i;
    } else {
      var k :| 0 <= k < i && !StrictlyOrdered(ks[k], ks[i]);
      OrderedBetween(ks, k, i);
      j := SomeKnotHasTheSay(ks, k);
    }
  }

  ghost predicate Consistent(ks: seq<Knot>) {
    forall i, j :: 0 <= i < |ks| && 0 <= j < |ks| && ks[i].measurement == ks[j].measurement
      ==> ks[i].pressure == ks[j].pressure
  }

  /** The curve passes through every knot exactly when knots with one measurement have one pressure, which the
      configuration does not demand. */
  lemma {:induction false} ThroughAllIffConsistent(ks: seq<Knot>)
    requires ValidCurve(ks)
    ensures (forall i :: 0 <= i < |ks| ==> PressureFor(ks, ks[i].measurement) == ks[i].pressure) <==> Consistent(ks)
  {
    if Consistent(ks) {
      forall i | 0 <= i < |ks| ensures PressureFor(ks, ks[i].measurement) == ks[i].pressure {
        var j := SomeKnotHasTheSay(ks, i);
        ThroughKnots(ks, j);
      }
    }
  }

  // -- What the curve is ------------------------------------------------------------------------------------

  /** Between two knots the pressure is in proportion, and that of the second one when they are next to no distance
      apart. */
  predicate InProportion(a: Knot, b: Knot, x: real, p: real) {
    if IsClose(b.measurement, a.measurement) then p == b.pressure
    else (p - a.pressure) * (b.measurement - a.measurement) == (b.pressure - a.pressure) * (x - a.measurement)
  }

  /** `p` is the pressure of the curve at `x`: level outside the knots, that of the knot that has the say at a knot, and
      in proportion between two of them. */
  ghost predicate OnCurve(ks: seq<Knot>, x: real, p: real)
    requires |ks| >= 1
  {
    && (x <= ks[0].measurement ==> p == ks[0].pressure)
    && (ks[0].measurement < x && ks[|ks| - 1].measurement <= x ==> p == ks[|ks| - 1].pressure)
    && (forall i :: 0 <= i < |ks| && ks[i].measurement == x && HasTheSay(ks, i) ==> p == ks[i].pressure)
    && (forall i :: 0 < i < |ks| && ks[i - 1].measurement < x < ks[i].measurement ==>
                      InProportion(ks[i - 1], ks[i], x, p))
  }

  lemma ShareTimesRun(rise: real, part: real, run: real)
    requires run > 0.0
    ensures ShareOf(rise, part, run) * run == rise * part
  {
    QuotientOrder(rise * part, rise * part, run);
  }

  lemma {:induction false} SegmentInProportion(a: Knot, b: Knot, x: real)
    requires Ordered(a, b)
    ensures InProportion(a, b, x, OnSegment(a, b, x))
  {
    EqualIsClose(b.measurement, a.measurement);
    if !IsClose(b.measurement, a.measurement) {
      var rise, part, run := b.pressure - a.pressure, x - a.measurement, b.measurement - a.measurement;
      ShareTimesRun(rise, part, run);
      assert OnSegment(a, b, x) - a.pressure == ShareOf(rise, part, run);
    }
  }

  lemma {:induction false} ScanOnSegment(ks: seq<Knot>, x: real, i: nat)
    requires forall j :: 0 < j < |ks| ==> Ordered(ks[j - 1], ks[j])
    requires 0 < i < |ks| && ks[i - 1].measurement < x < ks[i].measurement
    ensures Scan(ks, x) == OnSegment(ks[i - 1], ks[i], x)
  {
    if i > 1 {
      Tail(ks);
      OrderedBetween(ks, 1, i - 1);
      assert Ordered(ks[1], ks[i - 1]);
      ScanOnSegment(ks[1..], x, i - 1);
    }
  }

  /** The curve, all of it. */
  lemma {:induction false} CurveIs(ks: seq<Knot>, x: real)
    requires ValidCurve(ks)
    ensures OnCurve(ks, x, PressureFor(ks, x))
  {
    forall i | 0 <= i < |ks| && ks[i].measurement == x && HasTheSay(ks, i)
      ensures PressureFor(ks, x) == ks[i].pressure
    {
      ThroughKnots(ks, i);
    }
    forall i | 0 < i < |ks| && ks[i - 1].measurement < x < ks[i].measurement
      ensures InProportion(ks[i - 1], ks[i], x, PressureFor(ks, x))
    {
      OrderedBetween(ks, 0, i - 1);
      OrderedBetween(ks, i, |ks| - 1);
      assert Ordered(ks[0], ks[i - 1]) && Ordered(ks[i], ks[|ks| - 1]) && Ordered(ks[i - 1], ks[i]);
      ScanOnSegment(ks, x, i);
      SegmentInProportion(ks[i - 1], ks[i], x);
    }
  }

  lemma {:induction false} SomewhereOnCurve(ks: seq<Knot>, x: real) returns (i: nat)
    requires ValidCurve(ks) && ks[0].measurement < x < ks[|ks| - 1].measurement
    ensures 0 < i < |ks| && ks[i - 1].measurement < x <= ks[i].measurement
    ensures ks[i].measurement == x ==> HasTheSay(ks, i)
  {
    i := 1;
    while ks[i].measurement < x
      invariant 0 < i < |ks| && forall j :: 0 <= j < i ==> ks[j].measurement < x
      decreases |ks| - i
    {
      assert i < |ks| - 1;
      i := i + 1;
    }
    assert ks[i].measurement == x ==> forall j :: 0 <= j < i ==> StrictlyOrdered(ks[j], ks[i]);
  }

  lemma ProductUnique(p: real, q: real, run: real, total: real)
    requires run > 0.0 && p * run == total && q * run == total
    ensures p == q
  {
    if p < q {
      ProductPositive(q - p, run);
      Distribute(run, q, -p);
    } else if q < p {
      ProductPositive(p - q, run);
      Distribute(run, p, -q);
    }
  }

  lemma {:induction false} ProportionUnique(a: Knot, b: Knot, x: real, p: real, q: real)
    requires StrictlyOrdered(a, b) && InProportion(a, b, x, p) && InProportion(a, b, x, q)
    ensures p == q
  {
    if !IsClose(b.measurement, a.measurement) {
      ProductUnique(p - a.pressure, q - a.pressure, b.measurement - a.measurement,
                    (b.pressure - a.pressure) * (x - a.measurement));
    }
  }

  /** At each measurement there is one pressure on the curve. */
  lemma {:induction false} CurveUnique(ks: seq<Knot>, x: real, p: real, q: real)
    requires ValidCurve(ks) && OnCurve(ks, x, p) && OnCurve(ks, x, q)
    ensures p == q
  {
    if ks[0].measurement < x < ks[|ks| - 1].measurement {
      var i := SomewhereOnCurve(ks, x);
      if x < ks[i].measurement {
        ProportionUnique(ks[i - 1], ks[i], x, p, q);
      }
    }
  }

  ghost predicate Monotone(ks: seq<Knot>)
    requires |ks| >= 1
  {
    forall x, y :: x <= y ==> PressureFor(ks, x) <= PressureFor(ks, y)
  }

  /** More of what is measured never reads as less pressure exactly when the knots' pressures do not fall. */
  lemma {:induction false} MonotoneIffRising(ks: seq<Knot>)
    requires ValidCurve(ks) && Strict(ks)
    ensures Monotone(ks) <==> Rising(ks)
  {
    if Rising(ks) {
      forall x, y | x <= y ensures PressureFor(ks, x) <= PressureFor(ks, y) {
        CurveMonotone(ks, x, y);
      }
    }
    if Monotone(ks) {
      forall i | 0 < i < |ks| ensures Rises(ks[i - 1], ks[i]) {
        assert StrictlyOrdered(ks[i - 1], ks[i]);
        ThroughKnots(ks, i - 1);
        ThroughKnots(ks, i);
      }
    }
  }

  const METRIC_DENSITY_CURVE: seq<Knot> := [Knot(2.0, 0.0), Knot(4.0, 50.0), Knot(5.0, 80.0), Knot(6.0, 100.0)]
  const RELATIVE_DENSITY_CURVE: seq<Knot> := [Knot(1.0, 0.0), Knot(3.0, 50.0), Knot(4.5, 80.0), Knot(6.0, 100.0)]

  lemma {:induction false} FourKnots(a: Knot, b: Knot, c: Knot, d: Knot)
    requires StrictlyOrdered(a, b) && StrictlyOrdered(b, c) && StrictlyOrdered(c, d)
    requires Rises(a, b) && Rises(b, c) && Rises(c, d) && 0.0 <= a.pressure && d.pressure <= 100.0
    ensures ValidCurve([a, b, c, d]) && Strict([a, b, c, d]) && Rising([a, b, c, d])
  {
    var ks := [a, b, c, d];
    forall i | 0 < i < |ks|
      ensures Ordered(ks[i - 1], ks[i]) && StrictlyOrdered(ks[i - 1], ks[i]) && Rises(ks[i - 1], ks[i])
    {
      assert i == 1 || i == 2 || i == 3;
    }
  }

  /** The two curves in use never read a denser crowd as a calmer one. */
  lemma {:induction false} DefaultCurvesMonotone()
    ensures ValidCurve(METRIC_DENSITY_CURVE) && Monotone(METRIC_DENSITY_CURVE)
    ensures ValidCurve(RELATIVE_DENSITY_CURVE) && Monotone(RELATIVE_DENSITY_CURVE)
  {
    FourKnots(Knot(2.0, 0.0), Knot(4.0, 50.0), Knot(5.0, 80.0), Knot(6.0, 100.0));
    FourKnots(Knot(1.0, 0.0), Knot(3.0, 50.0), Knot(4.5, 80.0), Knot(6.0, 100.0));
    MonotoneIffRising(METRIC_DENSITY_CURVE);
    MonotoneIffRising(RELATIVE_DENSITY_CURVE);
  }
}
