/** How fast a queue is changing, and what its growth baseline learns from that
    (ai/surgeguard_ai/forecast/engine.py). */
module Forecast {
  import opened Common
  import opened Reals
  import opened Observations
  import Growth

  datatype Config = Config(interval: real, maxSamples: nat, window: real, minWindow: real, growth: Growth.Config)

  /** A rate per minute, the percentage change beside it, and the window in minutes both were measured over. */
  datatype Rate = Rate(perMinute: real, percentage: real, window: real)

  ghost predicate ValidConfig(c: Config) {
    c.interval > 0.0 && c.maxSamples >= 2 && Growth.ValidConfig(c.growth)
  }

  /** A change can only be measured over a positive window. */
  lemma {:induction false} ChangeNeedsWindow(interval: real, s: seq<Sample>, minutes: real)
    requires interval > 0.0 && Spaced(interval, s)
    ensures ChangeOver(s, minutes).Some? ==> minutes > 0.0
  {
    if ChangeOver(s, minutes).Some? {
      var k := FirstFrom(s, Cutoff(s, minutes));
      assert s[|s| - 1].at - s[k].at >= interval;
    }
  }

  function SpanMinutes(s: seq<Sample>): real { Span(s) / 60.0 }

  function WindowedRate(c: Config, s: seq<Sample>): Option<Rate>
    requires c.interval > 0.0 && Spaced(c.interval, s)
  {
    if SpanMinutes(s) < c.minWindow then None
    else
      var window := Min(c.window, SpanMinutes(s));
      var change := ChangeOver(s, window);
      if change.None? then None
      else
        ChangeNeedsWindow(c.interval, s, window);
        Some(Rate(change.value.absolute / window, change.value.percentage, window))
  }

  /** The slope between two samples, per minute. */
  function Secant(earlier: Sample, latest: Sample): real
    requires latest.at > earlier.at
  {
    (latest.value - earlier.value) / ((latest.at - earlier.at) / 60.0)
  }

  /** `rate` has the sign of `slope`, and a size between half of it and all of it. */
  predicate Understates(rate: real, slope: real) {
    if slope >= 0.0 then slope / 2.0 <= rate <= slope else slope <= rate <= slope / 2.0
  }

  lemma UnderstatedSlope(absolute: real, window: real, elapsed: real)
    requires window > 0.0 && window / 2.0 <= elapsed <= window && elapsed > 0.0
    ensures Understates(absolute / window, absolute / elapsed)
  {
    var slope, rate := absolute / elapsed, absolute / window;
    assert slope * elapsed == absolute && rate * window == absolute;
    if absolute >= 0.0 {
      SmallerShare(rate, slope, window, elapsed);
    } else {
      SmallerShare(-rate, -slope, window, elapsed);
    }
  }

  lemma SmallerShare(rate: real, slope: real, window: real, elapsed: real)
    requires rate * window == slope * elapsed && slope * elapsed >= 0.0
    requires window > 0.0 && window / 2.0 <= elapsed <= window && elapsed > 0.0
    ensures 0.0 <= slope && slope / 2.0 <= rate <= slope
  {
    if slope < 0.0 {
      NonZero(slope, elapsed);
    }
    LessOrEqualTimes(elapsed, window, slope);
    LessOrEqualTimes(window / 2.0, elapsed, slope);
    Cancel(rate, slope, window);
    Cancel(slope / 2.0, rate, window);
    assert slope / 2.0 * window == slope * (window / 2.0);
  }

  lemma Cancel(x: real, y: real, k: real)
    requires k > 0.0
    ensures x * k <= y * k ==> x <= y
  {
    if x > y {
      NonZero(y - x, k);
    }
  }

  lemma NonZero(x: real, y: real)
    requires x < 0.0 && y > 0.0
    ensures x * y < 0.0
  {
  }

  lemma LessOrEqualTimes(x: real, y: real, k: real)
    requires x <= y && k >= 0.0
    ensures k * x <= k * y
  {
    ProductNonNegative(k, y - x);
  }

  /** The reported rate never overstates: it has the sign of the true slope between the two samples it compares, and at
      least half its size. */
  lemma {:induction false} RateUnderstates(c: Config, s: seq<Sample>)
    requires c.interval > 0.0 && Spaced(c.interval, s) && WindowedRate(c, s).Some?
    ensures var rate, latest := WindowedRate(c, s).value, s[|s| - 1];
            var k := FirstFrom(s, Cutoff(s, rate.window));
            && k < |s| - 1 && latest.at > s[k].at
            && Understates(rate.perMinute, Secant(s[k], latest))
  {
    var rate, latest := WindowedRate(c, s).value, s[|s| - 1];
    ChangeNeedsWindow(c.interval, s, rate.window);
    var k := FirstFrom(s, Cutoff(s, rate.window));
    var elapsed := (latest.at - s[k].at) / 60.0;
    assert latest.at - s[k].at >= c.interval;
    UnderstatedSlope(latest.value - s[k].value, rate.window, elapsed);
  }

  lemma MinutesAndBack(seconds: real)
    ensures seconds / 60.0 * 60.0 == seconds && HalfWindow(seconds / 60.0) == seconds / 2.0
  {
  }

  /** While the history is no longer than the growth window there is a rate as soon as the history is long enough, and
      it is exactly the slope over all of it. */
  lemma {:induction false} ShortHistoryExact(c: Config, s: seq<Sample>)
    requires c.interval > 0.0 && Spaced(c.interval, s) && |s| >= 2
    requires c.minWindow <= SpanMinutes(s) <= c.window
    ensures s[|s| - 1].at > s[0].at
    ensures WindowedRate(c, s).Some? && WindowedRate(c, s).value.window == SpanMinutes(s)
    ensures WindowedRate(c, s).value.perMinute == Secant(s[0], s[|s| - 1])
  {
    assert s[|s| - 1].at - s[0].at >= c.interval;
    MinutesAndBack(Span(s));
    assert Cutoff(s, SpanMinutes(s)) == s[0].at;
  }

  /** How many minutes before the latest sample the `k`th one is. */
  function Back(s: seq<Sample>, k: nat): real
    requires k < |s|
  {
    (s[|s| - 1].at - s[k].at) / 60.0
  }

  /** The window asked for, or all of the history when that is shorter. */
  function Reach(c: Config, s: seq<Sample>): real
    requires s != []
  {
    Min(c.window, Back(s, 0))
  }

  /** The `k`th sample is the first one no further back than the window, is not the latest, and lies at least half the
      window back. */
  ghost predicate Measures(c: Config, s: seq<Sample>, k: nat) {
    && k < |s| - 1 && Reach(c, s) / 2.0 <= Back(s, k) <= Reach(c, s)
    && forall i :: 0 <= i < k ==> Back(s, i) > Reach(c, s)
  }

  /** The change is that since the sample, spread over the window; of less than next to nothing the percentage is all or
      nothing. */
  ghost predicate IsRate(rate: Rate, c: Config, s: seq<Sample>, k: nat)
    requires k < |s|
  {
    var change := s[|s| - 1].value - s[k].value;
    && rate.window == Reach(c, s) && rate.perMinute * rate.window == change
    && (s[k].value > 0.000000001 ==> rate.percentage * s[k].value == 100.0 * change)
    && (s[k].value <= 0.000000001 ==> rate.percentage == if change > 0.0 then 100.0 else 0.0)
  }

  lemma MinutesApart(latest: real, at: real, w: real)
    ensures at >= latest - w * 60.0 <==> (latest - at) / 60.0 <= w
    ensures latest - at >= HalfWindow(w) <==> (latest - at) / 60.0 >= w / 2.0
  {
  }

  lemma {:induction false} FirstIsMeasured(c: Config, s: seq<Sample>, k: nat)
    requires |s| >= 2 && k == FirstFrom(s, Cutoff(s, Reach(c, s)))
    ensures ChangeFrom(s, k, HalfWindow(Reach(c, s))).Some? <==> Measures(c, s, k)
  {
    var latest, w := s[|s| - 1].at, Reach(c, s);
    forall i | 0 <= i < |s|
      ensures s[i].at >= Cutoff(s, w) <==> Back(s, i) <= w
      ensures latest - s[i].at >= HalfWindow(w) <==> Back(s, i) >= w / 2.0
    {
      MinutesApart(latest, s[i].at, w);
    }
  }

  lemma {:induction false} MeasuredIsFirst(c: Config, s: seq<Sample>, k: nat)
    requires Measures(c, s, k)
    ensures k == FirstFrom(s, Cutoff(s, Reach(c, s)))
  {
    var latest, w := s[|s| - 1].at, Reach(c, s);
    forall i | 0 <= i <= k ensures s[i].at >= Cutoff(s, w) <==> Back(s, i) <= w {
      MinutesApart(latest, s[i].at, w);
    }
    FirstFromUnique(s, Cutoff(s, w), k);
  }

  lemma QuotientOf(x: real, w: real)
    requires w > 0.0
    ensures x / w * w == x
  {
  }

  lemma {:induction false} ChangeIsRate(c: Config, s: seq<Sample>, k: nat, rate: Rate)
    requires |s| >= 2 && k < |s| && Reach(c, s) > 0.0
    requires var change := Between(s[k], s[|s| - 1]);
             rate == Rate(change.absolute / Reach(c, s), change.percentage, Reach(c, s))
    ensures IsRate(rate, c, s, k)
  {
    var change := s[|s| - 1].value - s[k].value;
    QuotientOf(change, Reach(c, s));
    if s[k].value > TINY {
      QuotientOf(change, s[k].value);
      assert rate.percentage * s[k].value == 100.0 * (change / s[k].value * s[k].value);
    }
  }

  /** Exactly when there is a rate, on the samples alone: once the history is long enough, whenever there is a sample to
      measure the change from; and what it then is. */
  lemma {:induction false} RateIff(c: Config, s: seq<Sample>)
    requires c.interval > 0.0 && Spaced(c.interval, s)
    ensures WindowedRate(c, s).Some? <==> |s| >= 2 && Back(s, 0) >= c.minWindow && exists k :: Measures(c, s, k)
    ensures WindowedRate(c, s).Some? ==> exists k :: Measures(c, s, k) && IsRate(WindowedRate(c, s).value, c, s, k)
  {
    if |s| >= 2 && Back(s, 0) >= c.minWindow {
      var w := Reach(c, s);
      var k := FirstFrom(s, Cutoff(s, w));
      FirstIsMeasured(c, s, k);
      if Measures(c, s, k) {
        ChangeNeedsWindow(c.interval, s, w);
        ChangeIsRate(c, s, k, WindowedRate(c, s).value);
      } else {
        forall j | Measures(c, s, j) ensures false {
          MeasuredIsFirst(c, s, j);
        }
      }
    }
  }

  /** A series without long gaps always has a rate, over the whole window, however long the history grows. */
  lemma {:induction false} DenseSeriesHasRate(c: Config, s: seq<Sample>)
    requires c.interval > 0.0 && Spaced(c.interval, s) && |s| >= 2
    requires c.window > 0.0 && c.minWindow <= Back(s, 0)
    requires forall i :: 0 < i < |s| ==> Back(s, i - 1) - Back(s, i) <= Reach(c, s) / 2.0
    ensures WindowedRate(c, s).Some? && WindowedRate(c, s).value.window == Reach(c, s)
  {
    var w := Reach(c, s);
    var k := FirstFrom(s, Cutoff(s, w));
    FirstIsMeasured(c, s, k);
    MinutesApart(s[|s| - 1].at, s[|s| - 1].at, w);
    assert s[|s| - 1].at - s[0].at >= c.interval;
    forall i | 0 <= i <= k && i < |s| ensures s[i].at >= Cutoff(s, w) <==> Back(s, i) <= w {
      MinutesApart(s[|s| - 1].at, s[i].at, w);
    }
    if k > 0 {
      assert Back(s, k - 1) - Back(s, k) <= w / 2.0;
    }
    assert Measures(c, s, k);
    RateIff(c, s);
  }

  // -- One queue's history and baseline over a run -----------------------------------------------------------

  datatype Zone = Zone(buckets: seq<seq<Reading>>, baseline: Growth.Baseline)

  ghost predicate ValidZone(c: Config, z: Zone) {
    c.interval > 0.0 && IsResampling(c.interval, z.buckets) && [] !in z.buckets
  }

  /** The retained samples. */
  function Retained(c: Config, buckets: seq<seq<Reading>>): seq<Sample>
    requires [] !in buckets
  {
    Last(Series(c.interval, buckets), c.maxSamples)
  }

  lemma {:induction false} RetainedSpaced(c: Config, buckets: seq<seq<Reading>>)
    requires c.interval > 0.0 && IsResampling(c.interval, buckets) && [] !in buckets
    ensures Spaced(c.interval, Retained(c, buckets))
  {
    SeriesSpaced(c.interval, buckets);
  }

  lemma {:induction false} IngestValid(c: Config, z: Zone, r: Reading)
    requires ValidZone(c, z)
    ensures IsResampling(c.interval, Ingest(c.interval, z.buckets, r)) && [] !in Ingest(c.interval, z.buckets, r)
    ensures Spaced(c.interval, Retained(c, Ingest(c.interval, z.buckets, r)))
  {
    IngestKeeps(c.interval, z.buckets, r);
    NoneEmpty(c.interval, Ingest(c.interval, z.buckets, r));
    RetainedSpaced(c, Ingest(c.interval, z.buckets, r));
  }

  function PerMinute(rate: Option<Rate>): Option<real> {
    if rate.None? then None else Some(rate.value.perMinute)
  }

  /** The rate a reading makes available: one is measured when it seals a sample. */
  ghost function Measured(c: Config, z: Zone, r: Reading): Option<real>
    requires ValidZone(c, z)
  {
    IngestValid(c, z, r);
    var after := Ingest(c.interval, z.buckets, r);
    if |after| > |z.buckets| > 0 then PerMinute(WindowedRate(c, Retained(c, after))) else None
  }

  ghost function Advance(c: Config, z: Zone, r: Reading): (z': Zone)
    requires ValidZone(c, z)
    ensures ValidZone(c, z')
  {
    IngestValid(c, z, r);
    Zone(Ingest(c.interval, z.buckets, r), Growth.UpdateBaseline(c.growth, z.baseline, Measured(c, z, r)))
  }

  ghost function AdvanceAll(c: Config, z: Zone, rs: seq<Reading>): (z': Zone)
    requires ValidZone(c, z)
    ensures ValidZone(c, z')
  {
    if rs == [] then z else Advance(c, AdvanceAll(c, z, rs[..|rs| - 1]), rs[|rs| - 1])
  }

  ghost function MeasuredAll(c: Config, z: Zone, rs: seq<Reading>): (ms: seq<Option<real>>)
    requires ValidZone(c, z)
    ensures |ms| == |rs|
  {
    if rs == [] then []
    else
      var n := |rs| - 1;
      MeasuredAll(c, z, rs[..n]) + [Measured(c, AdvanceAll(c, z, rs[..n]), rs[n])]
  }

  lemma {:induction false} BaselineFollows(c: Config, z: Zone, rs: seq<Reading>)
    requires ValidZone(c, z)
    ensures AdvanceAll(c, z, rs).baseline == Growth.UpdateAll(c.growth, z.baseline, MeasuredAll(c, z, rs))
  {
    if rs != [] {
      var n := |rs| - 1;
      BaselineFollows(c, z, rs[..n]);
      var ms := MeasuredAll(c, z, rs);
      assert ms[..n] == MeasuredAll(c, z, rs[..n]);
      assert ms[n] == Measured(c, AdvanceAll(c, z, rs[..n]), rs[n]);
    }
  }

  ghost predicate AtLeast(ms: seq<Option<real>>, r0: real) {
    forall i :: 0 <= i < |ms| && ms[i].Some? ==> ms[i].value >= r0
  }

  /** A surge cannot silence its own alarm, over any run of readings. From a state whose baseline finds the rate r0
      abnormal: while every measured rate is at least r0, none trains the baseline and each is judged abnormal. */
  lemma {:induction false} SurgeKeepsAlarm(c: Config, z: Zone, rs: seq<Reading>, r0: real)
    requires ValidZone(c, z) && Growth.Classify(c.growth, z.baseline, r0) == Growth.AbnormalGrowth
    requires AtLeast(MeasuredAll(c, z, rs), r0)
    ensures AdvanceAll(c, z, rs).baseline == z.baseline
    ensures forall m :: m in MeasuredAll(c, z, rs) && m.Some? ==>
                          Growth.Classify(c.growth, AdvanceAll(c, z, rs).baseline, m.value) == Growth.AbnormalGrowth
  {
    BaselineFollows(c, z, rs);
    Growth.AlarmPersists(c.growth, z.baseline, r0, MeasuredAll(c, z, rs));
  }

  class ZoneState {
    const cfg: Config
    const buffer: ObservationBuffer
    const growth: Growth.GrowthDetector

    ghost function State(): Zone
      reads this, buffer, growth
    {
      Zone(buffer.buckets, growth.State())
    }

    ghost predicate Valid()
      reads this, buffer, growth
    {
      && ValidConfig(cfg) && buffer.interval == cfg.interval && buffer.maxSamples == cfg.maxSamples
      && growth.cfg == cfg.growth && buffer.Valid() && growth.Valid()
    }

    constructor (cfg: Config)
      requires ValidConfig(cfg)
      ensures Valid() && fresh(buffer) && fresh(growth) && this.cfg == cfg && State() == Zone([], Growth.UNTRAINED)
    {
      this.cfg := cfg;
      buffer := new ObservationBuffer(cfg.interval, cfg.maxSamples);
      growth := new Growth.GrowthDetector(cfg.growth);
    }

    /** Fold one count into the history, and into the baseline when it sealed a sample that is not abnormal. */
    method Observe(at: real, count: real)
      requires Valid()
      modifies buffer, growth
      ensures Valid() && ValidZone(cfg, old(State()))
      ensures State() == Advance(cfg, old(State()), Reading(at, count))
    {
      IngestValid(cfg, State(), Reading(at, count));
      var sealed := buffer.Observe(at, count);
      if sealed {
        var measured := MeasureRate();
        if measured.Some? {
          var pattern := Growth.Classify(cfg.growth, Growth.Baseline(growth.mean, growth.variance, growth.samples),
                                         measured.value.perMinute);
          if pattern != Growth.AbnormalGrowth {
            growth.Update(measured.value.perMinute);
          }
        }
      }
    }

    /** The rate the specification gives for the samples now in the buffer, if it gives one. */
    method MeasureRate() returns (rate: Option<Rate>)
      requires Valid()
      ensures Spaced(cfg.interval, buffer.samples) && rate == WindowedRate(cfg, buffer.samples)
    {
      RetainedSpaced(cfg, buffer.buckets);
      var span := SpanMinutes(buffer.samples);
      if span < cfg.minWindow {
        return None;
      }
      var window := Min(cfg.window, span);
      var change := buffer.ChangeOverLast(window);
      if change.None? {
        return None;
      }
      ChangeNeedsWindow(cfg.interval, buffer.samples, window);
      return Some(Rate(change.value.absolute / window, change.value.percentage, window));
    }
  }
}
