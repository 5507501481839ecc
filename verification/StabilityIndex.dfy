/** The Crowd Stability Index: 100 less the weighted pressures of the indicators that could be measured
    (ai/surgeguard_ai/stability/weighted_assessor.py). */
module StabilityIndex {
  import opened Common
  import opened Reals
  import opened Curves
  import opened Indicators
  import Trend
  import SpeedBaseline

  datatype Indicator = DENSITY_PRESSURE | MOTION_SUPPRESSION | EGRESS_CONGESTION | FLOW_CONFLICT | RATE_OF_CHANGE

  /** One indicator's configured weight and its measurement. */
  datatype Item = Item(indicator: Indicator, weight: real, measurement: Measurement)

  datatype IndicatorReading = IndicatorReading(indicator: Indicator, available: bool, raw: Option<real>,
                                               pressure: Option<real>, weight: real)

  function RawOf(m: Measurement): Option<real> {
    match m
    case Unmeasurable => None
    case Reading(r, _) => Some(r)
  }

  /** The configured weight of everything that could be measured. */
  function AvailableTotal(items: seq<Item>): real {
    if items == [] then 0.0
    else
      var last := items[|items| - 1];
      AvailableTotal(items[..|items| - 1]) + (if last.measurement.Reading? then last.weight else 0.0)
  }

  /** The configured weight over the total that was measured, or nothing for what was not. */
  function ReadingOf(i: Item, total: real): IndicatorReading {
    IndicatorReading(i.indicator, i.measurement.Reading?, RawOf(i.measurement), PressureOf(i.measurement),
                     if i.measurement.Reading? && total > 0.0 then i.weight / total else 0.0)
  }

  function ReadingsFor(items: seq<Item>, total: real): seq<IndicatorReading> {
    if items == [] then []
    else ReadingsFor(items[..|items| - 1], total) + [ReadingOf(items[|items| - 1], total)]
  }

  function Weigh(items: seq<Item>): seq<IndicatorReading> {
    ReadingsFor(items, AvailableTotal(items))
  }

  function Contribution(r: IndicatorReading): real {
    if !r.available || r.pressure.None? then 0.0 else r.pressure.value * r.weight
  }

  function WeightSum(rs: seq<IndicatorReading>): real {
    if rs == [] then 0.0 else WeightSum(rs[..|rs| - 1]) + rs[|rs| - 1].weight
  }

  function TotalPressure(rs: seq<IndicatorReading>): real {
    if rs == [] then 0.0 else TotalPressure(rs[..|rs| - 1]) + Contribution(rs[|rs| - 1])
  }

  /** The index, unless nothing at all could be measured. */
  function RawIndex(rs: seq<IndicatorReading>): Option<real> {
    if WeightSum(rs) <= 0.0 then None else Some(Clamp(100.0 - TotalPressure(rs), 0.0, 100.0))
  }

  // -- A convex combination ---------------------------------------------------------------------------------

  ghost predicate WeightsNonNegative(items: seq<Item>) {
    forall i :: 0 <= i < |items| ==> items[i].weight >= 0.0
  }

  ghost predicate PressuresBetween(items: seq<Item>, lo: real, hi: real) {
    forall i :: 0 <= i < |items| && items[i].measurement.Reading? ==> lo <= items[i].measurement.pressure <= hi
  }

  lemma SumQuotient(x: real, y: real, d: real)
    requires d > 0.0
    ensures (x + y) / d == x / d + y / d
  {
  }

  lemma {:induction false} WeightSumIs(items: seq<Item>, total: real)
    requires total > 0.0
    ensures WeightSum(ReadingsFor(items, total)) == AvailableTotal(items) / total
  {
    if items != [] {
      var n := |items| - 1;
      WeightSumIs(items[..n], total);
      WeightAppend(ReadingsFor(items[..n], total), ReadingOf(items[n], total));
      SumQuotient(AvailableTotal(items[..n]), items[n].weight, total);
    }
  }

  lemma {:induction false} WeightAppend(rs: seq<IndicatorReading>, r: IndicatorReading)
    ensures WeightSum(rs + [r]) == WeightSum(rs) + r.weight
    ensures TotalPressure(rs + [r]) == TotalPressure(rs) + Contribution(r)
  {
    assert (rs + [r])[..|rs|] == rs;
  }

  lemma {:induction false} WeightSumWithout(items: seq<Item>, total: real)
    requires total <= 0.0
    ensures WeightSum(ReadingsFor(items, total)) == 0.0
  {
    if items != [] {
      var n := |items| - 1;
      WeightSumWithout(items[..n], total);
      WeightAppend(ReadingsFor(items[..n], total), ReadingOf(items[n], total));
    }
  }

  /** The renormalised weights sum to one, and to nothing when nothing with a weight was measured. */
  lemma {:induction false} WeightsRenormalised(items: seq<Item>)
    ensures WeightSum(Weigh(items)) == if AvailableTotal(items) > 0.0 then 1.0 else 0.0
  {
    var total := AvailableTotal(items);
    if total > 0.0 {
      WeightSumIs(items, total);
      Whole(total);
    } else {
      WeightSumWithout(items, total);
    }
  }

  lemma ScaleBetween(w: real, total: real, p: real, lo: real, hi: real)
    requires total > 0.0 && w >= 0.0 && lo <= p <= hi
    ensures lo * (w / total) <= p * (w / total) <= hi * (w / total)
  {
    var f := w / total;
    assert f >= 0.0;
    assert (p - lo) * f >= 0.0 && (hi - p) * f >= 0.0;
  }

  lemma Whole(x: real)
    requires x > 0.0
    ensures x / x == 1.0
  {
  }

  lemma {:induction false} ContributionBetween(i: Item, total: real, lo: real, hi: real)
    requires total > 0.0 && i.weight >= 0.0
    requires i.measurement.Reading? ==> lo <= i.measurement.pressure <= hi
    ensures var r := ReadingOf(i, total);
            lo * r.weight <= Contribution(r) <= hi * r.weight
  {
    if i.measurement.Reading? {
      ScaleBetween(i.weight, total, i.measurement.pressure, lo, hi);
    }
  }

  ghost predicate Between(rs: seq<IndicatorReading>, lo: real, hi: real) {
    lo * WeightSum(rs) <= TotalPressure(rs) <= hi * WeightSum(rs)
  }

  lemma {:induction false} BetweenAppend(rs: seq<IndicatorReading>, r: IndicatorReading, lo: real, hi: real)
    requires Between(rs, lo, hi) && lo * r.weight <= Contribution(r) <= hi * r.weight
    ensures Between(rs + [r], lo, hi)
  {
    WeightAppend(rs, r);
    Distribute(lo, WeightSum(rs), r.weight);
    Distribute(hi, WeightSum(rs), r.weight);
  }

  lemma {:induction false} PressureBetween(items: seq<Item>, total: real, lo: real, hi: real)
    requires total > 0.0 && WeightsNonNegative(items) && PressuresBetween(items, lo, hi)
    ensures Between(ReadingsFor(items, total), lo, hi)
  {
    if items != [] {
      var n := |items| - 1;
      PressureBetween(items[..n], total, lo, hi);
      ContributionBetween(items[n], total, lo, hi);
      BetweenAppend(ReadingsFor(items[..n], total), ReadingOf(items[n], total), lo, hi);
    }
  }

  /** The index is a convex combination: 100 less a pressure between the least and the greatest measured one, so the
      clamp never acts. Only when no indicator with a weight could be measured is there no index. */
  lemma {:induction false} IndexIsConvex(items: seq<Item>, lo: real, hi: real)
    requires WeightsNonNegative(items) && PressuresBetween(items, lo, hi) && 0.0 <= lo <= hi <= 100.0
    ensures RawIndex(Weigh(items)).Some? <==> AvailableTotal(items) > 0.0
    ensures AvailableTotal(items) > 0.0 ==>
              && RawIndex(Weigh(items)) == Some(100.0 - TotalPressure(Weigh(items)))
              && 100.0 - hi <= RawIndex(Weigh(items)).value <= 100.0 - lo
  {
    WeightsRenormalised(items);
    if AvailableTotal(items) > 0.0 {
      PressureBetween(items, AvailableTotal(items), lo, hi);
    }
  }

  // -- Exactly what it is -----------------------------------------------------------------------------------

  function WeightOf(weight: real, m: Measurement): real {
    if m.Reading? then weight else 0.0
  }

  function PressureTimes(weight: real, m: Measurement): real {
    if m.Reading? then weight * m.pressure else 0.0
  }

  /** The configured weights times the pressures of everything that could be measured. */
  function WeightedPressure(items: seq<Item>): real {
    if items == [] then 0.0
    else
      var last := items[|items| - 1];
      WeightedPressure(items[..|items| - 1]) + PressureTimes(last.weight, last.measurement)
  }

  lemma QuotientTimes(w: real, total: real, p: real)
    requires total > 0.0
    ensures (p * (w / total)) * total == w * p
  {
    var f := w / total;
    assert f * total == w;
    Regroup(p, f, total, w);
  }

  lemma Regroup(p: real, f: real, total: real, w: real)
    requires f * total == w
    ensures (p * f) * total == w * p
  {
  }

  lemma {:induction false} TotalIsWeighted(items: seq<Item>, total: real)
    requires total > 0.0
    ensures TotalPressure(ReadingsFor(items, total)) * total == WeightedPressure(items)
  {
    if items != [] {
      var n := |items| - 1;
      var r := ReadingOf(items[n], total);
      TotalIsWeighted(items[..n], total);
      WeightAppend(ReadingsFor(items[..n], total), r);
      if items[n].measurement.Reading? {
        QuotientTimes(items[n].weight, total, items[n].measurement.pressure);
      }
      Distribute(total, TotalPressure(ReadingsFor(items[..n], total)), Contribution(r));
    }
  }

  /** The configured weight of what was measured of the five indicators. */
  function MeasuredWeight(w: Weights, ms: seq<Measurement>): real
    requires |ms| == 5
  {
    WeightOf(w.density, ms[0]) + WeightOf(w.motion, ms[1]) + WeightOf(w.egress, ms[2]) + WeightOf(w.conflict, ms[3])
    + WeightOf(w.rate, ms[4])
  }

  /** Those weights times the pressures measured. */
  function MeasuredPressure(w: Weights, ms: seq<Measurement>): real
    requires |ms| == 5
  {
    PressureTimes(w.density, ms[0]) + PressureTimes(w.motion, ms[1]) + PressureTimes(w.egress, ms[2])
    + PressureTimes(w.conflict, ms[3]) + PressureTimes(w.rate, ms[4])
  }

  /** The index by its meaning: none without a weight measured; otherwise 100 less the mean of the measured pressures,
      weighted as configured. */
  ghost predicate IsIndex(weight: real, pressure: real, index: Option<real>) {
    (index.Some? <==> weight > 0.0) && (index.Some? ==> (100.0 - index.value) * weight == pressure)
  }

  lemma {:induction false} IndexAndTotal(items: seq<Item>)
    requires WeightsNonNegative(items) && PressuresBetween(items, 0.0, 100.0)
    ensures RawIndex(Weigh(items)).Some? <==> AvailableTotal(items) > 0.0
    ensures RawIndex(Weigh(items)).Some? ==>
              RawIndex(Weigh(items)).value == 100.0 - TotalPressure(ReadingsFor(items, AvailableTotal(items)))
  {
    IndexIsConvex(items, 0.0, 100.0);
  }

  lemma {:induction false} RawIndexIs(items: seq<Item>)
    requires WeightsNonNegative(items) && PressuresBetween(items, 0.0, 100.0)
    ensures IsIndex(AvailableTotal(items), WeightedPressure(items), RawIndex(Weigh(items)))
  {
    var weight := AvailableTotal(items);
    IndexAndTotal(items);
    if weight > 0.0 {
      TotalIsWeighted(items, weight);
      IndexFrom(TotalPressure(ReadingsFor(items, weight)), weight, WeightedPressure(items), RawIndex(Weigh(items)));
    }
  }

  lemma IndexFrom(t: real, weight: real, pressure: real, index: Option<real>)
    requires (index.Some? <==> weight > 0.0) && (index.Some? ==> index.value == 100.0 - t)
    requires weight > 0.0 ==> t * weight == pressure
    ensures IsIndex(weight, pressure, index)
  {
    if index.Some? {
      LessThanFull(t, weight, index.value);
    }
  }

  lemma LessThanFull(t: real, weight: real, index: real)
    requires index == 100.0 - t
    ensures (100.0 - index) * weight == t * weight
  {
    assert 100.0 - index == t;
  }

  lemma {:induction false} SumsAppend(items: seq<Item>, i: Item)
    ensures AvailableTotal(items + [i]) == AvailableTotal(items) + WeightOf(i.weight, i.measurement)
    ensures WeightedPressure(items + [i]) == WeightedPressure(items) + PressureTimes(i.weight, i.measurement)
  {
    assert (items + [i])[..|items|] == items;
  }

  lemma {:induction false} SumsOfFive(a: Item, b: Item, d: Item, e: Item, f: Item)
    ensures AvailableTotal([a, b, d, e, f])
              == WeightOf(a.weight, a.measurement) + WeightOf(b.weight, b.measurement)
                 + WeightOf(d.weight, d.measurement) + WeightOf(e.weight, e.measurement)
                 + WeightOf(f.weight, f.measurement)
    ensures WeightedPressure([a, b, d, e, f])
              == PressureTimes(a.weight, a.measurement) + PressureTimes(b.weight, b.measurement)
                 + PressureTimes(d.weight, d.measurement) + PressureTimes(e.weight, e.measurement)
                 + PressureTimes(f.weight, f.measurement)
  {
    SumsAppend([], a);
    SumsAppend([a], b);
    SumsAppend([a, b], d);
    SumsAppend([a, b, d], e);
    SumsAppend([a, b, d, e], f);
    assert [] + [a] == [a] && [a] + [b] == [a, b] && [a, b] + [d] == [a, b, d] && [a, b, d] + [e] == [a, b, d, e];
    assert [a, b, d, e] + [f] == [a, b, d, e, f];
  }

  // -- Which way it moves -----------------------------------------------------------------------------------

  /** The same indicators with the same weights, none of them calmer. */
  predicate ItemNoCalmer(a: Item, b: Item) {
    a.indicator == b.indicator && a.weight == b.weight && NoCalmer(a.measurement, b.measurement)
  }

  ghost predicate NoneCalmer(a: seq<Item>, b: seq<Item>) {
    |a| == |b| && forall i :: 0 <= i < |a| ==> ItemNoCalmer(a[i], b[i])
  }

  lemma {:induction false} SameTotal(a: seq<Item>, b: seq<Item>)
    requires NoneCalmer(a, b)
    ensures AvailableTotal(a) == AvailableTotal(b)
  {
    if a != [] {
      SameTotal(a[..|a| - 1], b[..|b| - 1]);
      assert ItemNoCalmer(a[|a| - 1], b[|b| - 1]);
    }
  }

  lemma ScaleRises(w: real, total: real, p: real, q: real)
    requires total > 0.0 && w >= 0.0 && p <= q
    ensures p * (w / total) <= q * (w / total)
  {
    assert w / total >= 0.0;
    assert (q - p) * (w / total) >= 0.0;
  }

  lemma {:induction false} ContributionRises(a: Item, b: Item, total: real)
    requires total > 0.0 && a.weight >= 0.0 && ItemNoCalmer(a, b)
    ensures Contribution(ReadingOf(a, total)) <= Contribution(ReadingOf(b, total))
  {
    if a.measurement.Reading? {
      ScaleRises(a.weight, total, a.measurement.pressure, b.measurement.pressure);
    }
  }

  lemma {:induction false} PressureRises(a: seq<Item>, b: seq<Item>, total: real)
    requires total > 0.0 && WeightsNonNegative(a) && NoneCalmer(a, b)
    ensures TotalPressure(ReadingsFor(a, total)) <= TotalPressure(ReadingsFor(b, total))
  {
    if a != [] {
      var n := |a| - 1;
      PressureRises(a[..n], b[..n], total);
      WeightAppend(ReadingsFor(a[..n], total), ReadingOf(a[n], total));
      WeightAppend(ReadingsFor(b[..n], total), ReadingOf(b[n], total));
      assert ItemNoCalmer(a[n], b[n]);
      ContributionRises(a[n], b[n], total);
    }
  }

  /** Indicators that are no calmer never raise the index. */
  lemma {:induction false} IndexFalls(a: seq<Item>, b: seq<Item>)
    requires WeightsNonNegative(a) && NoneCalmer(a, b)
    ensures RawIndex(Weigh(a)).Some? <==> RawIndex(Weigh(b)).Some?
    ensures RawIndex(Weigh(a)).Some? ==> RawIndex(Weigh(b)).value <= RawIndex(Weigh(a)).value
  {
    SameTotal(a, b);
    WeightsRenormalised(a);
    WeightsRenormalised(b);
    if AvailableTotal(a) > 0.0 {
      PressureRises(a, b, AvailableTotal(a));
    }
  }

  /** The items of one window. */
  function Items(c: Config, ms: seq<Measurement>): seq<Item>
    requires |ms| == 5
  {
    var w := c.weights;
    [Item(DENSITY_PRESSURE, w.density, ms[0]), Item(MOTION_SUPPRESSION, w.motion, ms[1]),
     Item(EGRESS_CONGESTION, w.egress, ms[2]), Item(FLOW_CONFLICT, w.conflict, ms[3]),
     Item(RATE_OF_CHANGE, w.rate, ms[4])]
  }

  function TrendTuning(c: Config): Trend.Tuning { Trend.Tuning(c.rateWindow, c.rateMinSpan) }

  /** The items of one window, after a trend history. */
  function WindowItems(c: Config, history: seq<Trend.Peak>, w: Crowd, exits: set<int>, at: real): (items: seq<Item>)
    requires ValidConfig(c)
  {
    var recorded := Trend.Record(TrendTuning(c), history, Trend.Peak(at, w.densityMax));
    Items(c, MeasureAll(c, w, exits, Trend.RateFrom(TrendTuning(c), recorded)))
  }

  lemma {:induction false} ItemsWellFormed(c: Config, history: seq<Trend.Peak>, w: Crowd, exits: set<int>, at: real)
    requires ValidConfig(c)
    ensures var items := WindowItems(c, history, w, exits, at);
            && WeightsNonNegative(items) && PressuresBetween(items, 0.0, 100.0)
            && (AvailableTotal(items) <= 0.0 ==> c.weights.density == 0.0)
  {
    var rate := Trend.RateFrom(TrendTuning(c), Trend.Record(TrendTuning(c), history, Trend.Peak(at, w.densityMax)));
    var ms := MeasureAll(c, w, exits, rate);
    var items := Items(c, ms);
    MeasuredInRange(c, w, exits, rate);
    TotalFromFirst(items, 5);
  }

  lemma {:induction false} TotalFromFirst(items: seq<Item>, k: nat)
    requires WeightsNonNegative(items) && 1 <= k <= |items| && items[0].measurement.Reading?
    ensures AvailableTotal(items[..k]) >= items[0].weight
    ensures k == |items| ==> AvailableTotal(items) >= items[0].weight
  {
    assert items[..k][..k - 1] == items[..k - 1];
    if k > 1 {
      TotalFromFirst(items, k - 1);
    } else {
      assert AvailableTotal(items[..0]) == 0.0;
    }
    assert k == |items| ==> items[..k] == items;
  }

  /** The index of one window; none when nothing could be measured. */
  function Index(c: Config, history: seq<Trend.Peak>, w: Crowd, exits: set<int>, at: real): Option<real>
    requires ValidConfig(c)
  {
    RawIndex(Weigh(WindowItems(c, history, w, exits, at)))
  }

  lemma ItemsNoCalmer(c: Config, ms: seq<Measurement>, ms': seq<Measurement>)
    requires |ms| == 5 && AllNoCalmer(ms, ms')
    ensures NoneCalmer(Items(c, ms), Items(c, ms'))
  {
  }

  /** The index does not rise when no indicator is calmer: density acts through its own indicator, through flow
      conflict and through the rate at once. */
  lemma {:induction false} IndexFollowsIndicators(c: Config, history: seq<Trend.Peak>, w: Crowd, w': Crowd,
                                                  exits: set<int>, at: real)
    requires ValidConfig(c) && Rising(DensityCurve(c, w.metric)) && Worse(w, w')
    requires NoCalmer(MotionSuppression(w), MotionSuppression(w'))
    ensures IndexNoHigher(Index(c, history, w, exits, at), Index(c, history, w', exits, at))
  {
    var k := TrendTuning(c);
    Trend.RateRisesWithDensity(k, history, at, w.densityMax, w'.densityMax);
    var r := Trend.RateFrom(k, Trend.Record(k, history, Trend.Peak(at, w.densityMax)));
    var r' := Trend.RateFrom(k, Trend.Record(k, history, Trend.Peak(at, w'.densityMax)));
    IndicatorsRise(c, w, w', exits, r, r');
    ItemsNoCalmer(c, MeasureAll(c, w, exits, r), MeasureAll(c, w', exits, r'));
    ItemsWellFormed(c, history, w, exits, at);
    IndexFalls(WindowItems(c, history, w, exits, at), WindowItems(c, history, w', exits, at));
  }

  predicate IndexNoHigher(i: Option<real>, i': Option<real>) {
    (i.Some? <==> i'.Some?) && (i.Some? ==> i'.value <= i.value)
  }

  /** The second window is no faster than the first. Each is measured as the analyser does it, against a baseline that
      already contains the window's own median speed, and the slower one still has a baseline to be measured
      against. */
  ghost predicate Slower(k: SpeedBaseline.Tuning, speeds: seq<SpeedBaseline.Speed>, at: real, w: Crowd, w': Crowd)
    requires k.minSamples >= 1
  {
    && w.baselineSpeed == SpeedBaseline.BaselineWith(k, speeds, at, w.medianSpeed)
    && w'.baselineSpeed == SpeedBaseline.BaselineWith(k, speeds, at, w'.medianSpeed)
    && (w.medianSpeed.Some? <==> w'.medianSpeed.Some?)
    && (w.medianSpeed.Some? ==> 0.0 <= w'.medianSpeed.value <= w.medianSpeed.value)
    && (SpeedBaseline.Usable(w.baselineSpeed) ==> SpeedBaseline.Usable(w'.baselineSpeed))
  }

  lemma {:induction false} SlowerIsNoCalmer(k: SpeedBaseline.Tuning, speeds: seq<SpeedBaseline.Speed>, at: real,
                                            w: Crowd, w': Crowd)
    requires k.window >= 0.0 && k.minSamples >= 1 && SpeedBaseline.NonNegative(SpeedBaseline.SpeedsOf(speeds))
    requires Slower(k, speeds, at, w, w')
    ensures NoCalmer(MotionSuppression(w), MotionSuppression(w'))
  {
    if w.medianSpeed.Some? && SpeedBaseline.Usable(w'.baselineSpeed) {
      SpeedBaseline.SlowerIsSmallerPart(k, speeds, at, w'.medianSpeed.value, w.medianSpeed.value);
      SmallerPartRises(w, w');
    }
  }

  /** The index never rises when conditions worsen. After one trend history and one speed history, and at one instant,
      a crowd that is denser at its peak, slower, more in conflict and fuller at its exits, or any of these, gets an
      index no higher - also through the baseline, which its own slower speed pulls down. */
  lemma {:induction false} IndexNeverRises(c: Config, history: seq<Trend.Peak>, k: SpeedBaseline.Tuning,
                                           speeds: seq<SpeedBaseline.Speed>, w: Crowd, w': Crowd, exits: set<int>,
                                           at: real)
    requires ValidConfig(c) && Rising(DensityCurve(c, w.metric)) && Worse(w, w')
    requires k.window >= 0.0 && k.minSamples >= 1 && SpeedBaseline.NonNegative(SpeedBaseline.SpeedsOf(speeds))
    requires Slower(k, speeds, at, w, w')
    ensures IndexNoHigher(Index(c, history, w, exits, at), Index(c, history, w', exits, at))
  {
    SlowerIsNoCalmer(k, speeds, at, w, w');
    IndexFollowsIndicators(c, history, w, w', exits, at);
  }

  /** Every index is between 0 and 100 without the clamp, and there is one unless density has no weight. */
  lemma {:induction false} IndexInRange(c: Config, history: seq<Trend.Peak>, w: Crowd, exits: set<int>, at: real)
    requires ValidConfig(c)
    ensures var i, rs := Index(c, history, w, exits, at), Weigh(WindowItems(c, history, w, exits, at));
            && (i.None? ==> c.weights.density == 0.0)
            && (i.Some? ==> i.value == 100.0 - TotalPressure(rs) && 0.0 <= i.value <= 100.0)
  {
    ItemsWellFormed(c, history, w, exits, at);
    IndexIsConvex(WindowItems(c, history, w, exits, at), 0.0, 100.0);
  }

  lemma {:induction false} ItemSums(c: Config, ms: seq<Measurement>)
    requires |ms| == 5
    ensures AvailableTotal(Items(c, ms)) == MeasuredWeight(c.weights, ms)
    ensures WeightedPressure(Items(c, ms)) == MeasuredPressure(c.weights, ms)
  {
    var items := Items(c, ms);
    SumsOfFive(items[0], items[1], items[2], items[3], items[4]);
    assert items == [items[0], items[1], items[2], items[3], items[4]];
  }

  lemma {:induction false} ItemsOnScale(c: Config, ms: seq<Measurement>)
    requires ValidWeights(c.weights) && |ms| == 5 && InRange(ms)
    ensures WeightsNonNegative(Items(c, ms)) && PressuresBetween(Items(c, ms), 0.0, 100.0)
  {
  }

  /** Of five measurements with pressures on the scale. */
  lemma {:induction false} IndexIs(c: Config, ms: seq<Measurement>)
    requires ValidWeights(c.weights) && |ms| == 5 && InRange(ms)
    ensures IsIndex(MeasuredWeight(c.weights, ms), MeasuredPressure(c.weights, ms), RawIndex(Weigh(Items(c, ms))))
  {
    ItemSums(c, ms);
    ItemsOnScale(c, ms);
    RawIndexIs(Items(c, ms));
  }
}
