/** The stability assessor of one camera: trend, index, smoothing and band hysteresis in turn
    (ai/surgeguard_ai/stability/weighted_assessor.py). */
module Assessor {
  import opened Common
  import opened StabilityIndex
  import Window
  import Smoothing
  import Hysteresis

  datatype Config = Config(csi: Indicators.Config, smoothing: Smoothing.Tuning, escalate: nat, deEscalate: nat)

  ghost predicate ValidConfig(c: Config) {
    Indicators.ValidConfig(c.csi) && Smoothing.ValidTuning(c.smoothing) && c.escalate >= 1 && c.deEscalate >= 1
  }

  datatype State = State(history: seq<Trend.Peak>, average: Option<Smoothing.Average>,
                         gate: Hysteresis.Gate<Smoothing.Status>)

  const FRESH := State([], None, Hysteresis.Closed())

  datatype Assessment = Assessment(raw: real, smoothed: real, status: Smoothing.Status, changed: bool,
                                   readings: seq<IndicatorReading>)

  function Recorded(c: Config, history: seq<Trend.Peak>, w: Indicators.Crowd, at: real): seq<Trend.Peak> {
    Trend.Record(TrendTuning(c.csi), history, Trend.Peak(at, w.densityMax))
  }

  function Offered(c: Config, g: Hysteresis.Gate<Smoothing.Status>, smoothed: real): Hysteresis.Gate<Smoothing.Status> {
    Hysteresis.Offer(g, Smoothing.StatusFor(smoothed), Smoothing.Windows(c.escalate, c.deEscalate))
  }

  /** The state after a window. A window in which nothing could be measured still enters the trend. */
  ghost function Next(c: Config, s: State, w: Indicators.Crowd, exits: set<int>, at: real): State
    requires ValidConfig(c)
  {
    var index := Index(c.csi, s.history, w, exits, at);
    var history := Recorded(c, s.history, w, at);
    if index.None? then s.(history := history)
    else
      var average := Smoothing.Absorb(c.smoothing, s.average, Smoothing.Sample(index.value, at));
      State(history, Some(average), Offered(c, s.gate, average.value))
  }

  /** What is reported of it: no assessment when nothing could be measured. */
  ghost function Assess(c: Config, s: State, w: Indicators.Crowd, exits: set<int>, at: real): Option<Assessment>
    requires ValidConfig(c)
  {
    var index, next := Index(c.csi, s.history, w, exits, at), Next(c, s, w, exits, at);
    if index.None? || next.average.None? || next.gate.current.None? then None
    else
      Some(Assessment(index.value, next.average.value.value, next.gate.current.value,
                      next.gate.current != s.gate.current,
                      Weigh(WindowItems(c.csi, s.history, w, exits, at))))
  }

  datatype Input = Input(crowd: Indicators.Crowd, at: real)

  ghost function NextAll(c: Config, exits: set<int>, inputs: seq<Input>): State
    requires ValidConfig(c)
  {
    if inputs == [] then FRESH
    else
      var i := inputs[|inputs| - 1];
      Next(c, NextAll(c, exits, inputs[..|inputs| - 1]), i.crowd, exits, i.at)
  }

  /** Over every run the smoothed index stays on the scale, whatever the crowd and however irregular the times. */
  lemma {:induction false} SmoothedInRange(c: Config, exits: set<int>, inputs: seq<Input>)
    requires ValidConfig(c)
    ensures var s := NextAll(c, exits, inputs);
            s.average.Some? ==> 0.0 <= s.average.value.value <= 100.0
  {
    if inputs != [] {
      var n := |inputs| - 1;
      SmoothedInRange(c, exits, inputs[..n]);
      NextInRange(c, NextAll(c, exits, inputs[..n]), inputs[n].crowd, exits, inputs[n].at);
    }
  }

  lemma {:induction false} NextInRange(c: Config, s: State, w: Indicators.Crowd, exits: set<int>, at: real)
    requires ValidConfig(c) && (s.average.Some? ==> 0.0 <= s.average.value.value <= 100.0)
    ensures var next := Next(c, s, w, exits, at);
            next.average.Some? ==> 0.0 <= next.average.value.value <= 100.0
  {
    IndexInRange(c.csi, s.history, w, exits, at);
    var index := Index(c.csi, s.history, w, exits, at);
    if index.Some? && s.average.Some? {
      Smoothing.StepInHull(c.smoothing, s.average.value, Smoothing.Sample(index.value, at), 0.0, 100.0);
    }
  }

  class WeightedStabilityAssessor {
    const cfg: Config
    const smoother: Smoothing.ExponentialSmoother
    const hysteresis: Smoothing.BandHysteresis
    var densityHistory: seq<Trend.Peak>

    ghost function Now(): State
      reads this, smoother, hysteresis
    {
      State(densityHistory, smoother.State(), hysteresis.State())
    }

    ghost predicate Valid()
      reads this, smoother, hysteresis
    {
      && ValidConfig(cfg) && smoother.tuning == cfg.smoothing
      && hysteresis.escalate == cfg.escalate && hysteresis.deEscalate == cfg.deEscalate
      && smoother.Valid() && hysteresis.Valid()
    }

    constructor (cfg: Config)
      requires ValidConfig(cfg)
      ensures Valid() && fresh(smoother) && fresh(hysteresis) && Now() == FRESH && this.cfg == cfg
    {
      this.cfg := cfg;
      smoother := new Smoothing.ExponentialSmoother(cfg.smoothing);
      hysteresis := new Smoothing.BandHysteresis(cfg.escalate, cfg.deEscalate);
      densityHistory := [];
    }

    /** The trend takes in one reading as specified, and the rate is the slope over what it then holds. */
    method UpdateTrend(density: real, at: real) returns (rate: Option<real>)
      requires Valid()
      modifies this
      ensures Valid()
      ensures densityHistory == Trend.Record(TrendTuning(cfg.csi), old(densityHistory), Trend.Peak(at, density))
      ensures rate == Trend.RateFrom(TrendTuning(cfg.csi), densityHistory)
    {
      if densityHistory != [] && at <= densityHistory[|densityHistory| - 1].at {
        return Trend.RateFrom(TrendTuning(cfg.csi), densityHistory);
      }
      densityHistory := densityHistory + [Trend.Peak(at, density)];
      var cutoff := at - cfg.csi.rateWindow;
      ghost var whole := Window.DropWhile(densityHistory, Trend.OlderThan(cutoff));
      while densityHistory != [] && densityHistory[0].at < cutoff
        invariant Window.DropWhile(densityHistory, Trend.OlderThan(cutoff)) == whole
        invariant Valid()
        decreases |densityHistory|
      {
        densityHistory := densityHistory[1..];
      }
      return Trend.RateFrom(TrendTuning(cfg.csi), densityHistory);
    }

    /** The loop builds the readings of the specification, weights and all. */
    method WeighAll(items: seq<Item>) returns (readings: seq<IndicatorReading>)
      ensures readings == Weigh(items)
    {
      var total := AvailableTotal(items);
      readings := [];
      for i := 0 to |items|
        invariant readings == ReadingsFor(items[..i], total)
      {
        readings := readings + [ReadingOf(items[i], total)];
        assert items[..i + 1][..i] == items[..i];
      }
      assert items[..|items|] == items;
    }

    /** One step of the specification on trend, average and gate, and what it reports. */
    method AssessWindow(w: Indicators.Crowd, exits: set<int>, at: real) returns (r: Option<Assessment>)
      requires Valid()
      modifies this, smoother, hysteresis
      ensures Valid() && Now() == Next(cfg, old(Now()), w, exits, at) && r == Assess(cfg, old(Now()), w, exits, at)
    {
      var rate := UpdateTrend(w.densityMax, at);
      var readings := WeighAll(Items(cfg.csi, Indicators.MeasureAll(cfg.csi, w, exits, rate)));
      if WeightSum(readings) <= 0.0 {
        return None;
      }
      var raw := Clamp(100.0 - TotalPressure(readings), 0.0, 100.0);
      var smoothed := smoother.Update(raw, at);
      var status, changed := hysteresis.Offer(smoothed);
      return Some(Assessment(raw, smoothed, status, changed, readings));
    }

    /** Back to the state of a new assessor. */
    method Reset()
      requires Valid()
      modifies this, smoother, hysteresis
      ensures Valid() && Now() == FRESH
    {
      smoother.Reset();
      hysteresis.Reset();
      densityHistory := [];
    }
  }
}
