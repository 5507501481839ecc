/** What the five readings of a window are, each told without the function that computes it
    (ai/surgeguard_ai/stability/indicators.py). */
module IndicatorReadings {
  import opened Common
  import opened Reals
  import opened Curves
  import opened Indicators

  /** `p` is `x` in percent of a ceiling: nothing from zero down, all of it from the ceiling up. */
  ghost predicate IsPercent(p: real, x: real, ceiling: real) {
    && (x <= 0.0 ==> p == 0.0)
    && (x >= ceiling ==> p == 100.0)
    && (0.0 <= x <= ceiling ==> p * ceiling == 100.0 * x)
    && 0.0 <= p <= 100.0
  }

  lemma ShareOf(x: real, ceiling: real)
    requires ceiling > 0.0
    ensures x / ceiling * ceiling == x
    ensures x <= 0.0 ==> x / ceiling <= 0.0
    ensures x >= 0.0 ==> x / ceiling >= 0.0
    ensures x >= ceiling ==> x / ceiling >= 1.0
    ensures x <= ceiling ==> x / ceiling <= 1.0
  {
    QuotientOrder(x, 0.0, ceiling);
    QuotientOrder(0.0, x, ceiling);
    QuotientOrder(x, ceiling, ceiling);
    QuotientOrder(ceiling, x, ceiling);
    Whole(ceiling);
    Nothing(ceiling);
  }

  lemma Whole(d: real)
    requires d > 0.0
    ensures d / d == 1.0
  {
  }

  lemma Nothing(d: real)
    requires d > 0.0
    ensures 0.0 / d == 0.0
  {
  }

  lemma HundredTimes(q: real, ceiling: real, x: real)
    requires q * ceiling == x
    ensures (100.0 * q) * ceiling == 100.0 * x
  {
  }

  lemma {:induction false} SaturatedIsPercent(x: real, ceiling: real)
    requires ceiling > 0.0
    ensures IsPercent(Saturated(x, ceiling), x, ceiling)
  {
    ShareOf(x, ceiling);
    HundredTimes(x / ceiling, ceiling, x);
    if 0.0 <= x <= ceiling {
      assert Saturated(x, ceiling) == 100.0 * (x / ceiling);
    }
  }

  // -- Density ----------------------------------------------------------------------------------------------

  /** Peak density on the curve of this kind of camera. */
  ghost predicate IsDensity(c: Config, w: Crowd, m: Measurement)
    requires ValidConfig(c)
  {
    && m.Reading? && m.raw == w.densityMax
    && OnCurve(if w.metric then c.metricCurve else c.relativeCurve, w.densityMax, m.pressure)
  }

  lemma {:induction false} DensityIs(c: Config, w: Crowd)
    requires ValidConfig(c)
    ensures IsDensity(c, w, DensityPressure(c, w))
  {
    CurveIs(DensityCurve(c, w.metric), w.densityMax);
    PressureInRange(DensityCurve(c, w.metric), w.densityMax);
  }

  // -- Motion -----------------------------------------------------------------------------------------------

  /** The shortfall of the speed below the baseline, in percent of it. */
  ghost predicate IsMotion(w: Crowd, m: Measurement) {
    if w.medianSpeed.Some? && w.baselineSpeed.Some? && w.baselineSpeed.value > 0.0 then
      && m.Reading? && m.raw * w.baselineSpeed.value == w.medianSpeed.value
      && IsPercent(m.pressure, w.baselineSpeed.value - w.medianSpeed.value, w.baselineSpeed.value)
    else m.Unmeasurable?
  }

  lemma Shortfall(v: real, b: real)
    requires b > 0.0
    ensures 1.0 - v / b == (b - v) / b
  {
    Whole(b);
    assert (b - v) / b == b / b - v / b;
  }

  lemma {:induction false} MotionIs(w: Crowd)
    ensures IsMotion(w, MotionSuppression(w))
  {
    if w.medianSpeed.Some? && w.baselineSpeed.Some? && w.baselineSpeed.value > 0.0 {
      var v, b := w.medianSpeed.value, w.baselineSpeed.value;
      Shortfall(v, b);
      ShareOf(v, b);
      SaturatedIsPercent(b - v, b);
      assert MotionSuppression(w).pressure == Saturated(b - v, b);
    }
  }

  // -- Egress -----------------------------------------------------------------------------------------------

  /** An exit whose capacity is known. */
  ghost predicate KnownExit(o: Occupancy, exits: set<int>) {
    o.zone in exits && o.ratio.Some?
  }

  /** The fullest of the exits whose capacity is known, in percent of the ceiling; without one nothing is measured. */
  ghost predicate IsEgress(c: Config, w: Crowd, exits: set<int>, m: Measurement) {
    if exists o :: o in w.occupancy && KnownExit(o, exits) then
      && m.Reading?
      && (exists o :: o in w.occupancy && KnownExit(o, exits) && o.ratio.value == m.raw)
      && (forall o :: o in w.occupancy && KnownExit(o, exits) ==> o.ratio.value <= m.raw)
      && IsPercent(m.pressure, m.raw, c.egressCeiling)
    else m.Unmeasurable?
  }

  lemma {:induction false} RatiosAre(occupancy: seq<Occupancy>, exits: set<int>)
    ensures forall r :: r in ExitRatios(occupancy, exits) ==>
                          exists o :: o in occupancy && KnownExit(o, exits) && o.ratio.value == r
    ensures forall o :: o in occupancy && KnownExit(o, exits) ==> o.ratio.value in ExitRatios(occupancy, exits)
  {
    if occupancy != [] {
      var n := |occupancy| - 1;
      RatiosAre(occupancy[..n], exits);
      assert occupancy == occupancy[..n] + [occupancy[n]];
    }
  }

  lemma {:induction false} PeakIsLargest(ratios: seq<real>)
    requires ratios != []
    ensures Peak(ratios) in ratios && forall r :: r in ratios ==> r <= Peak(ratios)
  {
    var n := |ratios| - 1;
    assert ratios == ratios[..n] + [ratios[n]];
    if n > 0 {
      PeakIsLargest(ratios[..n]);
    }
  }

  lemma {:induction false} EgressIs(c: Config, w: Crowd, exits: set<int>)
    requires ValidConfig(c)
    ensures IsEgress(c, w, exits, EgressCongestion(c, w, exits))
  {
    var ratios := ExitRatios(w.occupancy, exits);
    RatiosAre(w.occupancy, exits);
    if ratios != [] {
      assert ratios[0] in ratios;
      PeakIsLargest(ratios);
      SaturatedIsPercent(Peak(ratios), c.egressCeiling);
    }
  }

  // -- Conflict ---------------------------------------------------------------------------------------------

  /** The opposing share in percent of its ceiling; of that the floor's share counts at no density pressure, all of it
      at full pressure, and in proportion in between. */
  ghost predicate IsConflict(c: Config, w: Crowd, density: real, m: Measurement) {
    if w.opposing.None? then m.Unmeasurable?
    else
      && m.Reading? && m.raw == w.opposing.value
      && exists full :: IsPercent(full, w.opposing.value, c.conflictCeiling)
                     && 100.0 * m.pressure == full * (100.0 * c.densityFloor + (1.0 - c.densityFloor) * density)
  }

  lemma AttenuationIs(floor: real, density: real)
    requires 0.0 <= floor <= 1.0 && 0.0 <= density <= 100.0
    ensures 0.0 <= Raised(floor, density / 100.0) <= 1.0
    ensures 100.0 * Raised(floor, density / 100.0) == 100.0 * floor + (1.0 - floor) * density
  {
    RaisedMonotone(floor, density / 100.0, 1.0);
  }

  lemma PartOfPercent(full: real, a: real)
    requires 0.0 <= full <= 100.0 && 0.0 <= a <= 1.0
    ensures 0.0 <= full * a <= 100.0
  {
    ProductNonNegative(full, a);
    ProductNonNegative(full, 1.0 - a);
    Distribute(full, 1.0, -a);
  }

  lemma HundredTimesProduct(full: real, a: real, h: real)
    requires 100.0 * a == h
    ensures 100.0 * (full * a) == full * h
  {
  }

  lemma {:induction false} ConflictIs(c: Config, w: Crowd, density: real)
    requires ValidConfig(c) && 0.0 <= density <= 100.0
    ensures IsConflict(c, w, density, FlowConflict(c, w, Some(density)))
  {
    if w.opposing.Some? {
      var full, a := Saturated(w.opposing.value, c.conflictCeiling), Raised(c.densityFloor, density / 100.0);
      SaturatedIsPercent(w.opposing.value, c.conflictCeiling);
      AttenuationIs(c.densityFloor, density);
      PartOfPercent(full, a);
      HundredTimesProduct(full, a, 100.0 * c.densityFloor + (1.0 - c.densityFloor) * density);
      assert Clamp(density / 100.0, 0.0, 1.0) == density / 100.0;
      assert FlowConflict(c, w, Some(density)).pressure == full * a;
    }
  }

  // -- Rate -------------------------------------------------------------------------------------------------

  /** A rise in percent of the ceiling for this kind of camera; a fall counts as nothing. */
  ghost predicate IsRise(c: Config, w: Crowd, signedRate: Option<real>, m: Measurement) {
    if signedRate.None? then m.Unmeasurable?
    else
      var ceiling := if w.metric then c.rateCeilingMetric else c.rateCeilingRelative;
      && m.Reading? && m.raw == signedRate.value && IsPercent(m.pressure, signedRate.value, ceiling)
      && (m.pressure == 0.0 <==> signedRate.value <= 0.0) && (m.pressure == 100.0 <==> signedRate.value >= ceiling)
  }

  lemma ZeroProduct(p: real, ceiling: real, x: real)
    requires ceiling > 0.0 && p * ceiling == 100.0 * x
    ensures p == 0.0 ==> x == 0.0
    ensures p == 100.0 ==> x == ceiling
  {
  }

  lemma {:induction false} RiseIs(c: Config, w: Crowd, signedRate: Option<real>)
    requires ValidConfig(c)
    ensures IsRise(c, w, signedRate, RateOfChange(c, w, signedRate))
  {
    if signedRate.Some? {
      var x, ceiling := signedRate.value, RateCeiling(c, w.metric);
      SaturatedIsPercent(Max(x, 0.0), ceiling);
      if 0.0 <= x <= ceiling {
        ZeroProduct(Saturated(x, ceiling), ceiling, x);
      }
    }
  }

  // -- All five ---------------------------------------------------------------------------------------------

  /** The five readings of a window, in the order of the specification; flow conflict is weighted by the density
      pressure of the same window. */
  ghost predicate AreReadings(c: Config, w: Crowd, exits: set<int>, signedRate: Option<real>, ms: seq<Measurement>)
    requires ValidConfig(c)
  {
    && |ms| == 5
    && IsDensity(c, w, ms[0]) && IsMotion(w, ms[1]) && IsEgress(c, w, exits, ms[2])
    && IsConflict(c, w, ms[0].pressure, ms[3]) && IsRise(c, w, signedRate, ms[4])
  }

  lemma {:induction false} ReadingsAre(c: Config, w: Crowd, exits: set<int>, signedRate: Option<real>)
    requires ValidConfig(c)
    ensures AreReadings(c, w, exits, signedRate, MeasureAll(c, w, exits, signedRate))
  {
    DensityIs(c, w);
    MotionIs(w);
    EgressIs(c, w, exits);
    PressureInRange(DensityCurve(c, w.metric), w.densityMax);
    ConflictIs(c, w, DensityPressure(c, w).pressure);
    RiseIs(c, w, signedRate);
  }
}
