/** What the assessor reports over a run, stage by stage: each stage sees exactly what the one before it passed on
    (ai/surgeguard_ai/stability/weighted_assessor.py). */
module AssessorRuns {
  import opened Common
  import opened StabilityIndex
  import Indicators
  import opened IndicatorReadings
  import opened Assessor
  import Trend
  import Smoothing
  import Hysteresis

  /** The readings offered to the trend: one of every window. */
  function Peaks(inputs: seq<Input>): seq<Trend.Peak> {
    if inputs == [] then []
    else
      var i := inputs[|inputs| - 1];
      Peaks(inputs[..|inputs| - 1]) + [Trend.Peak(i.at, i.crowd.densityMax)]
  }

  /** The rate of change at the last window. */
  function RateAt(c: Config, inputs: seq<Input>): Option<real>
    requires c.csi.rateMinSpan > 0.0
  {
    Trend.RateFrom(Trend.Tuning(c.csi.rateWindow, c.csi.rateMinSpan),
                   Trend.RecordAll(Trend.Tuning(c.csi.rateWindow, c.csi.rateMinSpan), Peaks(inputs)))
  }

  /** `index` is that of the last window: of five readings that are what its crowd and the rate make them. */
  ghost predicate IsIndexAt(c: Config, exits: set<int>, inputs: seq<Input>, index: Option<real>)
    requires ValidConfig(c) && inputs != []
  {
    var w := inputs[|inputs| - 1].crowd;
    exists ms :: AreReadings(c.csi, w, exits, RateAt(c, inputs), ms)
                   && IsIndex(MeasuredWeight(c.csi.weights, ms), MeasuredPressure(c.csi.weights, ms), index)
  }

  ghost function IndexAt(c: Config, exits: set<int>, inputs: seq<Input>): Option<real>
    requires ValidConfig(c) && inputs != []
  {
    var n := |inputs| - 1;
    Index(c.csi, Trend.RecordAll(TrendTuning(c.csi), Peaks(inputs[..n])), inputs[n].crowd, exits, inputs[n].at)
  }

  lemma {:induction false} IndexAtIs(c: Config, exits: set<int>, inputs: seq<Input>)
    requires ValidConfig(c) && inputs != []
    ensures IsIndexAt(c, exits, inputs, IndexAt(c, exits, inputs))
  {
    var n := |inputs| - 1;
    var i, before, all := inputs[n], Peaks(inputs[..n]), Peaks(inputs);
    assert all == before + [Trend.Peak(i.at, i.crowd.densityMax)] && all[..|before|] == before;
    var ms := Indicators.MeasureAll(c.csi, i.crowd, exits, RateAt(c, inputs));
    ReadingsAre(c.csi, i.crowd, exits, RateAt(c, inputs));
    Indicators.MeasuredInRange(c.csi, i.crowd, exits, RateAt(c, inputs));
    IndexIs(c.csi, ms);
  }

  /** What is smoothed: the index of every window that has one. */
  ghost function Indexes(c: Config, exits: set<int>, inputs: seq<Input>): seq<Smoothing.Sample>
    requires ValidConfig(c)
  {
    if inputs == [] then []
    else
      var n := |inputs| - 1;
      var index := IndexAt(c, exits, inputs);
      Indexes(c, exits, inputs[..n]) + (if index.Some? then [Smoothing.Sample(index.value, inputs[n].at)] else [])
  }

  /** The averages after each sample. */
  function Smoothed(k: Smoothing.Tuning, samples: seq<Smoothing.Sample>): seq<real>
    requires k.tau > 0.0
  {
    if samples == [] then []
    else Smoothed(k, samples[..|samples| - 1]) + [Smoothing.UpdateAll(k, None, samples).value.value]
  }

  /** The stages in turn, each a fold of its own over what the one before it gave. */
  ghost predicate Staged(c: Config, exits: set<int>, inputs: seq<Input>, s: State)
    requires ValidConfig(c)
  {
    var samples := Indexes(c, exits, inputs);
    && s.history == Trend.RecordAll(TrendTuning(c.csi), Peaks(inputs))
    && HasSeen(c, s, samples)
  }

  lemma {:induction false} BandsAppend(csis: seq<real>, csi: real)
    ensures Smoothing.Bands(csis + [csi]) == Smoothing.Bands(csis) + [Smoothing.StatusFor(csi)]
  {
  }

  lemma {:induction false} OfferAppend(h: seq<Smoothing.Status>, x: Smoothing.Status,
                                       required: (Smoothing.Status, Smoothing.Status) -> nat)
    ensures Hysteresis.OfferAll(h + [x], required) == Hysteresis.Offer(Hysteresis.OfferAll(h, required), x, required)
  {
    assert (h + [x])[..|h|] == h;
  }

  lemma {:induction false} SmoothedAppend(k: Smoothing.Tuning, samples: seq<Smoothing.Sample>, x: Smoothing.Sample)
    requires k.tau > 0.0
    ensures Smoothing.UpdateAll(k, None, samples + [x])
              == Some(Smoothing.Absorb(k, Smoothing.UpdateAll(k, None, samples), x))
    ensures Smoothed(k, samples + [x])
              == Smoothed(k, samples) + [Smoothing.Absorb(k, Smoothing.UpdateAll(k, None, samples), x).value]
  {
    assert (samples + [x])[..|samples|] == samples;
  }

  lemma {:induction false} PeaksAppend(k: Trend.Tuning, inputs: seq<Input>, i: Input)
    ensures Trend.RecordAll(k, Peaks(inputs + [i]))
              == Trend.Record(k, Trend.RecordAll(k, Peaks(inputs)), Trend.Peak(i.at, i.crowd.densityMax))
  {
    var ps, p := Peaks(inputs), Trend.Peak(i.at, i.crowd.densityMax);
    assert (inputs + [i])[..|inputs|] == inputs;
    assert (ps + [p])[..|ps|] == ps;
  }

  /** What the smoother and the gate have seen: these samples. */
  ghost predicate HasSeen(c: Config, s: State, samples: seq<Smoothing.Sample>)
    requires ValidConfig(c)
  {
    && s.average == Smoothing.UpdateAll(c.smoothing, None, samples)
    && s.gate == Hysteresis.OfferAll(Smoothing.Bands(Smoothed(c.smoothing, samples)),
                                     Smoothing.Windows(c.escalate, c.deEscalate))
  }

  lemma {:induction false} SampleSeen(c: Config, s: State, samples: seq<Smoothing.Sample>, x: Smoothing.Sample,
                                      history: seq<Trend.Peak>)
    requires ValidConfig(c) && HasSeen(c, s, samples)
    ensures var average := Smoothing.Absorb(c.smoothing, s.average, x);
            HasSeen(c, State(history, Some(average), Offered(c, s.gate, average.value)), samples + [x])
  {
    var average := Smoothing.Absorb(c.smoothing, s.average, x).value;
    SmoothedAppend(c.smoothing, samples, x);
    BandsAppend(Smoothed(c.smoothing, samples), average);
    OfferAppend(Smoothing.Bands(Smoothed(c.smoothing, samples)), Smoothing.StatusFor(average),
                Smoothing.Windows(c.escalate, c.deEscalate));
  }

  lemma {:induction false} IndexesAppend(c: Config, exits: set<int>, inputs: seq<Input>, i: Input)
    requires ValidConfig(c)
    ensures var samples, index := Indexes(c, exits, inputs), IndexAt(c, exits, inputs + [i]);
            Indexes(c, exits, inputs + [i])
              == if index.Some? then samples + [Smoothing.Sample(index.value, i.at)] else samples
    ensures IndexAt(c, exits, inputs + [i])
              == Index(c.csi, Trend.RecordAll(TrendTuning(c.csi), Peaks(inputs)), i.crowd, exits, i.at)
  {
    assert (inputs + [i])[..|inputs|] == inputs;
  }

  lemma {:induction false} StagedNext(c: Config, exits: set<int>, inputs: seq<Input>, s: State, i: Input)
    requires ValidConfig(c) && Staged(c, exits, inputs, s)
    ensures Staged(c, exits, inputs + [i], Next(c, s, i.crowd, exits, i.at))
  {
    PeaksAppend(TrendTuning(c.csi), inputs, i);
    IndexesAppend(c, exits, inputs, i);
    var index := IndexAt(c, exits, inputs + [i]);
    if index.Some? {
      SampleSeen(c, s, Indexes(c, exits, inputs), Smoothing.Sample(index.value, i.at),
                 Recorded(c, s.history, i.crowd, i.at));
    }
  }

  lemma {:induction false} NextAppend(c: Config, exits: set<int>, inputs: seq<Input>, i: Input)
    requires ValidConfig(c)
    ensures NextAll(c, exits, inputs + [i]) == Next(c, NextAll(c, exits, inputs), i.crowd, exits, i.at)
  {
    assert (inputs + [i])[..|inputs|] == inputs;
  }

  ghost predicate RunStaged(c: Config, exits: set<int>, inputs: seq<Input>)
    requires ValidConfig(c)
  {
    Staged(c, exits, inputs, NextAll(c, exits, inputs))
  }

  lemma {:induction false} NothingStaged(c: Config, exits: set<int>)
    requires ValidConfig(c)
    ensures RunStaged(c, exits, [])
  {
  }

  lemma {:induction false} RunStagedAppend(c: Config, exits: set<int>, inputs: seq<Input>, i: Input)
    requires ValidConfig(c) && RunStaged(c, exits, inputs)
    ensures RunStaged(c, exits, inputs + [i])
  {
    StagedNext(c, exits, inputs, NextAll(c, exits, inputs), i);
    NextAppend(c, exits, inputs, i);
  }

  ghost function AreStaged(c: Config, exits: set<int>): seq<Input> -> bool
    requires ValidConfig(c)
  {
    inputs => RunStaged(c, exits, inputs)
  }

  /** Over every run: the trend sees the peak of every window, the average sees every index, and the gate every
      average. */
  lemma {:induction false} RunIsStaged(c: Config, exits: set<int>, inputs: seq<Input>)
    requires ValidConfig(c)
    ensures RunStaged(c, exits, inputs)
  {
    var staged := AreStaged(c, exits);
    NothingStaged(c, exits);
    forall qs: seq<Input>, q | staged(qs) ensures staged(qs + [q]) {
      RunStagedAppend(c, exits, qs, q);
    }
    FromTheEnd(staged, inputs);
  }

  lemma {:induction false} HeldByGate(c: Config, bands: seq<Smoothing.Status>)
    requires ValidConfig(c) && bands != []
    ensures Hysteresis.OfferAll(bands, Smoothing.Windows(c.escalate, c.deEscalate)).current
              == Some(Hysteresis.Held(bands, Smoothing.Windows(c.escalate, c.deEscalate)))
  {
    Hysteresis.CountersRefineHistory(bands, Smoothing.Windows(c.escalate, c.deEscalate));
  }

  /** An assessment is the state it leads to, if there is an index. */
  lemma {:induction false} AssessIsNext(c: Config, s: State, w: Indicators.Crowd, exits: set<int>, at: real)
    requires ValidConfig(c)
    ensures var index, next := Index(c.csi, s.history, w, exits, at), Next(c, s, w, exits, at);
            var r := Assess(c, s, w, exits, at);
            && (r.Some? <==> index.Some?)
            && (r.Some? ==>
                  && next.average.Some? && next.gate.current == Some(r.value.status)
                  && r.value.raw == index.value && r.value.smoothed == next.average.value.value
                  && r.value.changed == (next.gate.current != s.gate.current))
  {
  }

  /** What a state that has seen samples holds: the latest average, and the band for all of them. */
  ghost predicate Holds(c: Config, s: State, samples: seq<Smoothing.Sample>)
    requires ValidConfig(c)
  {
    var averages := Smoothed(c.smoothing, samples);
    && averages != [] && s.average.Some? && s.average.value.value == averages[|averages| - 1]
    && s.gate.current == HeldBand(c, averages)
  }

  /** The band held after these averages. */
  function HeldBand(c: Config, averages: seq<real>): Option<Smoothing.Status> {
    if averages == [] then None
    else Some(Hysteresis.Held(Smoothing.Bands(averages), Smoothing.Windows(c.escalate, c.deEscalate)))
  }

  lemma {:induction false} SeenHolds(c: Config, s: State, samples: seq<Smoothing.Sample>)
    requires ValidConfig(c) && HasSeen(c, s, samples)
    ensures s.gate.current == HeldBand(c, Smoothed(c.smoothing, samples))
    ensures samples != [] ==> Holds(c, s, samples)
  {
    if samples != [] {
      HeldByGate(c, Smoothing.Bands(Smoothed(c.smoothing, samples)));
    } else {
      assert Smoothing.Bands([]) == [];
    }
  }

  /** What is reported of the last window of a run: its own index, the latest average, the band that the gate holds
      after all averages, and whether it is another one than before; nothing at all when there is no index. */
  ghost predicate IsReport(c: Config, exits: set<int>, all: seq<Input>, r: Option<Assessment>)
    requires ValidConfig(c) && all != []
  {
    var index, averages := IndexAt(c, exits, all), Smoothed(c.smoothing, Indexes(c, exits, all));
    && IsIndexAt(c, exits, all, index)
    && (r.Some? <==> index.Some?)
    && (r.Some? ==>
          && averages != [] && r.value.raw == index.value && r.value.smoothed == averages[|averages| - 1]
          && HeldBand(c, averages) == Some(r.value.status)
          && r.value.changed == (HeldBand(c, averages) != HeldBand(c, averages[..|averages| - 1])))
  }

  lemma {:induction false} ReportIs(c: Config, exits: set<int>, inputs: seq<Input>, i: Input)
    requires ValidConfig(c)
    ensures IsReport(c, exits, inputs + [i], Assess(c, NextAll(c, exits, inputs), i.crowd, exits, i.at))
  {
    var all, s := inputs + [i], NextAll(c, exits, inputs);
    IndexAtIs(c, exits, all);
    RunIsStaged(c, exits, inputs);
    IndexesAppend(c, exits, inputs, i);
    AssessIsNext(c, s, i.crowd, exits, i.at);
    if IndexAt(c, exits, all).Some? {
      RunIsStaged(c, exits, all);
      NextAppend(c, exits, inputs, i);
      SmoothedAppend(c.smoothing, Indexes(c, exits, inputs),
                     Smoothing.Sample(IndexAt(c, exits, all).value, i.at));
      SeenHolds(c, s, Indexes(c, exits, inputs));
      SeenHolds(c, NextAll(c, exits, all), Indexes(c, exits, all));
    }
  }
}
