/** The five indicators of the Crowd Stability Index (ai/surgeguard_ai/stability/indicators.py). */
module Indicators {
  import opened Common
  import opened Reals
  import opened Curves

  datatype Config = Config(weights: Weights, metricCurve: seq<Knot>, relativeCurve: seq<Knot>,
                           egressCeiling: real, conflictCeiling: real, densityFloor: real,
                           rateCeilingMetric: real, rateCeilingRelative: real,
                           rateWindow: real, rateMinSpan: real)

  datatype Weights = Weights(density: real, motion: real, egress: real, conflict: real, rate: real)

  predicate ValidWeights(w: Weights) {
    && w.density >= 0.0 && w.motion >= 0.0 && w.egress >= 0.0 && w.conflict >= 0.0 && w.rate >= 0.0
    && 0.999999 <= w.density + w.motion + w.egress + w.conflict + w.rate <= 1.000001
  }

  predicate ValidConfig(c: Config) {
    && ValidWeights(c.weights) && ValidCurve(c.metricCurve) && ValidCurve(c.relativeCurve)
    && c.egressCeiling > 0.0 && 0.0 < c.conflictCeiling <= 1.0 && 0.0 <= c.densityFloor <= 1.0
    && c.rateCeilingMetric > 0.0 && c.rateCeilingRelative > 0.0
    && c.rateWindow > 0.0 && 0.0 < c.rateMinSpan <= c.rateWindow
  }

  datatype Occupancy = Occupancy(zone: int, ratio: Option<real>)

  /** What the index reads from one window's crowd measurements. */
  datatype Crowd = Crowd(metric: bool, densityMax: real, medianSpeed: Option<real>, baselineSpeed: Option<real>,
                         opposing: Option<real>, occupancy: seq<Occupancy>)

  datatype Measurement = Unmeasurable | Reading(raw: real, pressure: real)

  function Measured(raw: real, pressure: real): Measurement {
    Reading(raw, Clamp(pressure, 0.0, 100.0))
  }

  function DensityCurve(c: Config, metric: bool): seq<Knot> {
    if metric then c.metricCurve else c.relativeCurve
  }

  function RateCeiling(c: Config, metric: bool): real {
    if metric then c.rateCeilingMetric else c.rateCeilingRelative
  }

  /** A share of a ceiling, saturating at both ends, on the scale of pressures. */
  function Saturated(x: real, ceiling: real): real
    requires ceiling > 0.0
  {
    100.0 * Clamp(x / ceiling, 0.0, 1.0)
  }

  function DensityPressure(c: Config, w: Crowd): Measurement
    requires ValidConfig(c)
  {
    Measured(w.densityMax, PressureFor(DensityCurve(c, w.metric), w.densityMax))
  }

  function MotionSuppression(w: Crowd): Measurement {
    if w.medianSpeed.None? then Unmeasurable
    else if w.baselineSpeed.None? || w.baselineSpeed.value <= 0.0 then Unmeasurable
    else
      var ratio := w.medianSpeed.value / w.baselineSpeed.value;
      Measured(ratio, 100.0 * Clamp(1.0 - ratio, 0.0, 1.0))
  }

  /** The capacity ratios of the exits that have one. */
  function ExitRatios(occupancy: seq<Occupancy>, exits: set<int>): seq<real> {
    if occupancy == [] then []
    else
      var o := occupancy[|occupancy| - 1];
      ExitRatios(occupancy[..|occupancy| - 1], exits) +
      (if o.zone in exits && o.ratio.Some? then [o.ratio.value] else [])
  }

  function Peak(ratios: seq<real>): real
    requires ratios != []
  {
    var n := |ratios| - 1;
    if n == 0 then ratios[0] else Max(Peak(ratios[..n]), ratios[n])
  }

  function EgressCongestion(c: Config, w: Crowd, exits: set<int>): Measurement
    requires ValidConfig(c)
  {
    var ratios := ExitRatios(w.occupancy, exits);
    if exits == {} || ratios == [] then Unmeasurable
    else Measured(Peak(ratios), Saturated(Peak(ratios), c.egressCeiling))
  }

  /** How much of the flow conflict counts at a density pressure; all of it when density is unknown. */
  function Attenuation(c: Config, densityPressure: Option<real>): real {
    if densityPressure.None? then 1.0
    else Raised(c.densityFloor, Clamp(densityPressure.value / 100.0, 0.0, 1.0))
  }

  /** A floor, and a share of what is left above it. */
  function Raised(floor: real, share: real): real { floor + (1.0 - floor) * share }

  function FlowConflict(c: Config, w: Crowd, densityPressure: Option<real>): Measurement
    requires ValidConfig(c)
  {
    if w.opposing.None? then Unmeasurable
    else
      Measured(w.opposing.value,
               Saturated(w.opposing.value, c.conflictCeiling) * Attenuation(c, densityPressure))
  }

  function RateOfChange(c: Config, w: Crowd, signedRate: Option<real>): Measurement
    requires ValidConfig(c)
  {
    if signedRate.None? then Unmeasurable
    else Measured(signedRate.value, Saturated(Max(signedRate.value, 0.0), RateCeiling(c, w.metric)))
  }

  function PressureOf(m: Measurement): Option<real> {
    match m
    case Unmeasurable => None
    case Reading(_, p) => Some(p)
  }

  /** All five, in the order of the specification. Only flow conflict looks at another one. */
  function MeasureAll(c: Config, w: Crowd, exits: set<int>, signedRate: Option<real>): seq<Measurement>
    requires ValidConfig(c)
  {
    var density := DensityPressure(c, w);
    [density, MotionSuppression(w), EgressCongestion(c, w, exits), FlowConflict(c, w, PressureOf(density)),
     RateOfChange(c, w, signedRate)]
  }

  // -- Which way each indicator moves -----------------------------------------------------------------------

  /** Both unmeasurable, or both measured and the second pressure no lower. */
  predicate NoCalmer(m: Measurement, m': Measurement) {
    && (m.Unmeasurable? <==> m'.Unmeasurable?)
    && (m.Reading? ==> m.pressure <= m'.pressure)
  }

  lemma SaturatedMonotone(x: real, y: real, ceiling: real)
    requires ceiling > 0.0 && x <= y
    ensures 0.0 <= Saturated(x, ceiling) <= Saturated(y, ceiling) <= 100.0
  {
    QuotientOrder(x, y, ceiling);
  }

  /** Denser never reads as calmer, on a curve whose knots rise. */
  lemma {:induction false} DensityRises(c: Config, w: Crowd, w': Crowd)
    requires ValidConfig(c) && w.metric == w'.metric && Rising(DensityCurve(c, w.metric))
    requires w.densityMax <= w'.densityMax
    ensures NoCalmer(DensityPressure(c, w), DensityPressure(c, w'))
  {
    CurveMonotone(DensityCurve(c, w.metric), w.densityMax, w'.densityMax);
  }

  /** Slower never reads as calmer, against the same baseline. */
  lemma {:induction false} MotionRises(w: Crowd, w': Crowd)
    requires w.baselineSpeed == w'.baselineSpeed && (w.medianSpeed.Some? <==> w'.medianSpeed.Some?)
    requires w.medianSpeed.Some? ==> w'.medianSpeed.value <= w.medianSpeed.value
    ensures NoCalmer(MotionSuppression(w), MotionSuppression(w'))
  {
    if w.medianSpeed.Some? && w.baselineSpeed.Some? && w.baselineSpeed.value > 0.0 {
      QuotientOrder(w'.medianSpeed.value, w.medianSpeed.value, w.baselineSpeed.value);
    }
  }

  /** Nor does a smaller part of the baseline, whatever the two baselines are. */
  lemma {:induction false} SmallerPartRises(w: Crowd, w': Crowd)
    requires w.medianSpeed.Some? && w.baselineSpeed.Some? && w.baselineSpeed.value > 0.0
    requires w'.medianSpeed.Some? && w'.baselineSpeed.Some? && w'.baselineSpeed.value > 0.0
    requires w'.medianSpeed.value / w'.baselineSpeed.value <= w.medianSpeed.value / w.baselineSpeed.value
    ensures NoCalmer(MotionSuppression(w), MotionSuppression(w'))
  {
  }

  predicate FullerZone(o: Occupancy, o': Occupancy) {
    && o.zone == o'.zone && (o.ratio.Some? <==> o'.ratio.Some?)
    && (o.ratio.Some? ==> o.ratio.value <= o'.ratio.value)
  }

  /** The same zones, each at least as full. */
  predicate Fuller(a: seq<Occupancy>, b: seq<Occupancy>) {
    |a| == |b| && forall i :: 0 <= i < |a| ==> FullerZone(a[i], b[i])
  }

  predicate AllAtMost(r: seq<real>, r': seq<real>) {
    |r| == |r'| && forall i :: 0 <= i < |r| ==> r[i] <= r'[i]
  }

  lemma {:induction false} RatiosRise(a: seq<Occupancy>, b: seq<Occupancy>, exits: set<int>)
    requires Fuller(a, b)
    ensures AllAtMost(ExitRatios(a, exits), ExitRatios(b, exits))
  {
    if a != [] {
      RatiosRise(a[..|a| - 1], b[..|b| - 1], exits);
      assert FullerZone(a[|a| - 1], b[|b| - 1]);
    }
  }

  lemma {:induction false} PeakRises(r: seq<real>, r': seq<real>)
    requires r != [] && AllAtMost(r, r')
    ensures Peak(r) <= Peak(r')
  {
    if |r| > 1 {
      PeakRises(r[..|r| - 1], r'[..|r| - 1]);
    }
  }

  /** The worst exit decides: fuller exits never read as calmer. */
  lemma {:induction false} EgressRises(c: Config, w: Crowd, w': Crowd, exits: set<int>)
    requires ValidConfig(c) && Fuller(w.occupancy, w'.occupancy)
    ensures NoCalmer(EgressCongestion(c, w, exits), EgressCongestion(c, w', exits))
  {
    RatiosRise(w.occupancy, w'.occupancy, exits);
    var r, r' := ExitRatios(w.occupancy, exits), ExitRatios(w'.occupancy, exits);
    if r != [] {
      PeakRises(r, r');
      SaturatedMonotone(Peak(r), Peak(r'), c.egressCeiling);
    }
  }

  lemma {:induction false} AttenuationRises(c: Config, p: real, q: real)
    requires ValidConfig(c) && p <= q
    ensures 0.0 <= Attenuation(c, Some(p)) <= Attenuation(c, Some(q)) <= 1.0
  {
    RaisedMonotone(c.densityFloor, Clamp(p / 100.0, 0.0, 1.0), Clamp(q / 100.0, 0.0, 1.0));
  }

  lemma RaisedIs(floor: real, s: real, x: real)
    requires s == 1.0 - floor
    ensures Raised(floor, x) == floor + s * x
  {
  }

  lemma RaisedMonotone(floor: real, x: real, y: real)
    requires 0.0 <= floor <= 1.0 && 0.0 <= x <= y <= 1.0
    ensures 0.0 <= Raised(floor, x) <= Raised(floor, y) <= 1.0
  {
    var s := 1.0 - floor;
    ProductMonotone(s, s, x, y);
    ProductMonotone(s, s, y, 1.0);
    RaisedIs(floor, s, x);
    RaisedIs(floor, s, y);
  }

  lemma ProductMonotone(a: real, b: real, x: real, y: real)
    requires 0.0 <= a <= b && 0.0 <= x <= y
    ensures 0.0 <= a * x <= b * y
  {
    ProductNonNegative(b - a, y);
    ProductNonNegative(a, y - x);
    ProductNonNegative(a, x);
    Distribute(y, b, -a);
    Distribute(a, y, -x);
  }

  /** More people against the majority, or the same in a denser crowd, never reads as calmer. */
  lemma {:induction false} ConflictRises(c: Config, w: Crowd, w': Crowd, p: real, q: real)
    requires ValidConfig(c) && p <= q && (w.opposing.Some? <==> w'.opposing.Some?)
    requires w.opposing.Some? ==> w.opposing.value <= w'.opposing.value
    ensures NoCalmer(FlowConflict(c, w, Some(p)), FlowConflict(c, w', Some(q)))
  {
    if w.opposing.Some? {
      SaturatedMonotone(w.opposing.value, w'.opposing.value, c.conflictCeiling);
      AttenuationRises(c, p, q);
      ProductMonotone(Saturated(w.opposing.value, c.conflictCeiling), Saturated(w'.opposing.value, c.conflictCeiling),
                      Attenuation(c, Some(p)), Attenuation(c, Some(q)));
    }
  }

  lemma {:induction false} RateRises(c: Config, w: Crowd, w': Crowd, r: Option<real>, r': Option<real>)
    requires ValidConfig(c) && w.metric == w'.metric && (r.Some? <==> r'.Some?)
    requires r.Some? ==> r.value <= r'.value
    ensures NoCalmer(RateOfChange(c, w, r), RateOfChange(c, w', r'))
  {
    if r.Some? {
      SaturatedMonotone(Max(r.value, 0.0), Max(r'.value, 0.0), RateCeiling(c, w.metric));
    }
  }

  /** The second window is at least as bad in every respect but speed, and measurable in the same ones. */
  predicate Worse(w: Crowd, w': Crowd) {
    && w.metric == w'.metric && w.densityMax <= w'.densityMax
    && (w.opposing.Some? <==> w'.opposing.Some?) && (w.opposing.Some? ==> w.opposing.value <= w'.opposing.value)
    && Fuller(w.occupancy, w'.occupancy)
  }

  ghost predicate AllNoCalmer(ms: seq<Measurement>, ms': seq<Measurement>) {
    |ms| == |ms'| && forall i :: 0 <= i < |ms| ==> NoCalmer(ms[i], ms'[i])
  }

  /** No indicator of a worse window is calmer, as long as that of movement is not. */
  lemma {:induction false} IndicatorsRise(c: Config, w: Crowd, w': Crowd, exits: set<int>, r: Option<real>,
                                          r': Option<real>)
    requires ValidConfig(c) && Rising(DensityCurve(c, w.metric)) && Worse(w, w')
    requires NoCalmer(MotionSuppression(w), MotionSuppression(w'))
    requires (r.Some? <==> r'.Some?) && (r.Some? ==> r.value <= r'.value)
    ensures AllNoCalmer(MeasureAll(c, w, exits, r), MeasureAll(c, w', exits, r'))
  {
    DensityRises(c, w, w');
    EgressRises(c, w, w', exits);
    ConflictRises(c, w, w', DensityPressure(c, w).pressure, DensityPressure(c, w').pressure);
    RateRises(c, w, w', r, r');
  }

  ghost predicate InRange(ms: seq<Measurement>) {
    forall i :: 0 <= i < |ms| && ms[i].Reading? ==> 0.0 <= ms[i].pressure <= 100.0
  }

  lemma MeasuredInRange(c: Config, w: Crowd, exits: set<int>, r: Option<real>)
    requires ValidConfig(c)
    ensures InRange(MeasureAll(c, w, exits, r)) && |MeasureAll(c, w, exits, r)| == 5
    ensures MeasureAll(c, w, exits, r)[0].Reading?
  {
  }
}
