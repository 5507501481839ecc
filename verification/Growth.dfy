/** Abnormal growth against a baseline learned online (ai/surgeguard_ai/forecast/growth.py and engine.py). */
module Growth {
  import opened Common
  import opened Reals

  datatype Config = Config(alpha: real, minSamples: int, zThreshold: real, minAbsoluteRate: real, stableBand: real,
                           sqrt: real -> real)

  ghost predicate ValidConfig(c: Config) {
    0.0 < c.alpha <= 1.0 && IsSqrt(c.sqrt)
  }

  datatype Baseline = Baseline(mean: Option<real>, variance: real, samples: nat)

  const UNTRAINED := Baseline(None, 0.0, 0)

  function NextMean(alpha: real, mean: real, rate: real): real {
    mean + alpha * (rate - mean)
  }

  function NextVariance(alpha: real, mean: real, variance: real, rate: real): real {
    (1.0 - alpha) * (variance + alpha * (rate - mean) * (rate - mean))
  }

  /** Fold one rate in, in constant space. */
  function Train(c: Config, b: Baseline, rate: real): Baseline {
    match b.mean
    case None => Baseline(Some(rate), 0.0, 1)
    case Some(mean) =>
      Baseline(Some(NextMean(c.alpha, mean, rate)), NextVariance(c.alpha, mean, b.variance, rate), b.samples + 1)
  }

  function TrainAll(c: Config, rates: seq<real>): Baseline {
    if rates == [] then UNTRAINED
    else Train(c, TrainAll(c, rates[..|rates| - 1]), rates[|rates| - 1])
  }

  // -- The definition over the whole history --------------------------------------------------------------

  function Pow(x: real, n: nat): real {
    if n == 0 then 1.0 else x * Pow(x, n - 1)
  }

  /** Exponential weights: the newest of `n` rates weighs alpha, and the first carries all that is left. */
  function Weight(alpha: real, n: nat, i: nat): real
    requires i < n
  {
    if i == 0 then Pow(1.0 - alpha, n - 1) else alpha * Pow(1.0 - alpha, n - 1 - i)
  }

  function Weights(alpha: real, n: nat): nat -> real {
    (i: nat) => if i < n then Weight(alpha, n, i) else 0.0
  }

  function Term(w: nat -> real, rates: seq<real>, f: real -> real, i: nat): real
    requires i < |rates|
  {
    w(i) * f(rates[i])
  }

  /** The weighted sum of `f` over the first `k` rates. */
  function Weighted(w: nat -> real, rates: seq<real>, f: real -> real, k: nat): real
    requires k <= |rates|
  {
    if k == 0 then 0.0
    else Weighted(w, rates, f, k - 1) + Term(w, rates, f, k - 1)
  }

  /** The definition: the exponentially weighted average of `f` over a history. */
  function Average(alpha: real, rates: seq<real>, f: real -> real): real {
    Weighted(Weights(alpha, |rates|), rates, f, |rates|)
  }

  function One(): real -> real { (x: real) => 1.0 }
  function Itself(): real -> real { (x: real) => x }
  function Squared(): real -> real { (x: real) => Square(x) }
  function Deviation(c: real): real -> real { (x: real) => Square(x - c) }

  lemma {:induction false} WeightShrinks(alpha: real, n: nat, i: nat)
    requires i < n
    ensures Weight(alpha, n + 1, i) == (1.0 - alpha) * Weight(alpha, n, i)
  {
    if i > 0 {
      assert n - i == (n - 1 - i) + 1;
      Swap(1.0 - alpha, alpha, Pow(1.0 - alpha, n - 1 - i));
    }
  }

  lemma Swap(x: real, y: real, z: real)
    ensures y * (x * z) == x * (y * z)
  {
  }

  lemma {:induction false} WeightedScales(w: nat -> real, w': nat -> real, r: real, xs: seq<real>, ys: seq<real>,
                                          f: real -> real, k: nat)
    requires k <= |xs| && k <= |ys|
    requires forall i :: 0 <= i < k ==> w'(i) == r * w(i) && ys[i] == xs[i]
    ensures Weighted(w', ys, f, k) == r * Weighted(w, xs, f, k)
  {
    if k > 0 {
      WeightedScales(w, w', r, xs, ys, f, k - 1);
      TermScales(r, w(k - 1), w'(k - 1), f(xs[k - 1]));
      Distribute(r, Weighted(w, xs, f, k - 1), Term(w, xs, f, k - 1));
    }
  }

  lemma TermScales(r: real, w: real, w': real, y: real)
    requires w' == r * w
    ensures w' * y == r * (w * y)
  {
  }

  lemma SameProduct(x: real, y: real, x': real, y': real)
    requires x == x' && y == y'
    ensures x * y == x' * y'
  {
  }

  /** One more rate: the old average shrinks by 1 - alpha and the new value gets alpha. */
  lemma {:induction false} AverageExtends(alpha: real, rates: seq<real>, x: real, f: real -> real)
    requires rates != []
    ensures Average(alpha, rates + [x], f) == (1.0 - alpha) * Average(alpha, rates, f) + alpha * f(x)
  {
    var n, w' := |rates|, Weights(alpha, |rates| + 1);
    OlderWeights(alpha, 1.0 - alpha, rates, x, f);
    NewestWeight(alpha, n);
    SameProduct(w'(n), f((rates + [x])[n]), alpha, f(x));
    assert Weighted(w', rates + [x], f, n + 1) == Weighted(w', rates + [x], f, n) + Term(w', rates + [x], f, n);
  }

  lemma {:induction false} WeightsShrink(alpha: real, r: real, n: nat)
    requires r == 1.0 - alpha
    ensures forall i: nat :: i < n ==> Weights(alpha, n + 1)(i) == r * Weights(alpha, n)(i)
  {
    forall i: nat | i < n ensures Weights(alpha, n + 1)(i) == r * Weights(alpha, n)(i) {
      WeightShrinks(alpha, n, i);
    }
  }

  lemma {:induction false} OlderWeights(alpha: real, r: real, rates: seq<real>, x: real, f: real -> real)
    requires r == 1.0 - alpha
    ensures Weighted(Weights(alpha, |rates| + 1), rates + [x], f, |rates|) == r * Average(alpha, rates, f)
  {
    var n, w, w', xs := |rates|, Weights(alpha, |rates|), Weights(alpha, |rates| + 1), rates + [x];
    WeightsShrink(alpha, r, n);
    forall i | 0 <= i < n ensures w'(i) == r * w(i) && xs[i] == rates[i] {
    }
    WeightedScales(w, w', r, rates, xs, f, n);
  }

  lemma {:induction false} NewestWeight(alpha: real, n: nat)
    requires n >= 1
    ensures Weights(alpha, n + 1)(n) == alpha
  {
    assert Pow(1.0 - alpha, 0) == 1.0;
  }

  lemma AverageOfOne(alpha: real, x: real, f: real -> real)
    ensures Average(alpha, [x], f) == f(x)
  {
    assert Weights(alpha, 1)(0) == 1.0;
    assert Weighted(Weights(alpha, 1), [x], f, 0) == 0.0;
  }

  function Plus(g: real -> real, h: real -> real): real -> real { (x: real) => g(x) + h(x) }
  function Times(r: real, g: real -> real): real -> real { (x: real) => r * g(x) }

  lemma {:induction false} WeightedSame(w: nat -> real, rates: seq<real>, f: real -> real, g: real -> real, k: nat)
    requires k <= |rates| && forall x :: f(x) == g(x)
    ensures Weighted(w, rates, f, k) == Weighted(w, rates, g, k)
  {
    if k > 0 {
      WeightedSame(w, rates, f, g, k - 1);
      SameProduct(w(k - 1), f(rates[k - 1]), w(k - 1), g(rates[k - 1]));
    }
  }

  lemma {:induction false} WeightedPlus(w: nat -> real, rates: seq<real>, g: real -> real, h: real -> real, k: nat)
    requires k <= |rates|
    ensures Weighted(w, rates, Plus(g, h), k) == Weighted(w, rates, g, k) + Weighted(w, rates, h, k)
  {
    if k > 0 {
      WeightedPlus(w, rates, g, h, k - 1);
      Distribute(w(k - 1), g(rates[k - 1]), h(rates[k - 1]));
    }
  }

  lemma {:induction false} WeightedTimes(w: nat -> real, rates: seq<real>, r: real, g: real -> real, k: nat)
    requires k <= |rates|
    ensures Weighted(w, rates, Times(r, g), k) == r * Weighted(w, rates, g, k)
  {
    if k > 0 {
      WeightedTimes(w, rates, r, g, k - 1);
      Swap(r, w(k - 1), g(rates[k - 1]));
      Distribute(r, Weighted(w, rates, g, k - 1), Term(w, rates, g, k - 1));
    }
  }

  /** The square, plus r times the value, plus q. */
  function Quadratic(r: real, q: real): real -> real {
    Plus(Plus(Squared(), Times(r, Itself())), Times(q, One()))
  }

  lemma {:induction false} QuadraticMoments(alpha: real, rates: seq<real>, r: real, q: real)
    ensures Average(alpha, rates, Quadratic(r, q)) ==
            Average(alpha, rates, Squared()) + r * Average(alpha, rates, Itself()) + q * Average(alpha, rates, One())
  {
    var w, n := Weights(alpha, |rates|), |rates|;
    WeightedPlus(w, rates, Plus(Squared(), Times(r, Itself())), Times(q, One()), n);
    WeightedPlus(w, rates, Squared(), Times(r, Itself()), n);
    WeightedTimes(w, rates, r, Itself(), n);
    WeightedTimes(w, rates, q, One(), n);
  }

  lemma {:induction false} DeviationSplits(c: real, r: real, q: real, x: real)
    requires r == -2.0 * c && q == c * c
    ensures Deviation(c)(x) == Quadratic(r, q)(x)
  {
    SquareOfDifference(x, c);
    SameProduct(r, x, -2.0 * c, x);
  }

  lemma SquareOfDifference(x: real, c: real)
    ensures Square(x - c) == Square(x) + (-2.0 * c) * x + (c * c) * 1.0
  {
  }

  /** Squared deviations from any point `c`, by moments. */
  lemma {:induction false} DeviationMoments(alpha: real, rates: seq<real>, c: real, r: real, q: real)
    requires r == -2.0 * c && q == c * c
    ensures Average(alpha, rates, Deviation(c)) ==
            Average(alpha, rates, Squared()) + r * Average(alpha, rates, Itself()) + q * Average(alpha, rates, One())
  {
    forall x ensures Deviation(c)(x) == Quadratic(r, q)(x) {
      DeviationSplits(c, r, q, x);
    }
    WeightedSame(Weights(alpha, |rates|), rates, Deviation(c), Quadratic(r, q), |rates|);
    QuadraticMoments(alpha, rates, r, q);
  }

  /** The weights sum to one. */
  lemma {:induction false} WeightsSumToOne(alpha: real, rates: seq<real>)
    requires rates != []
    ensures Average(alpha, rates, One()) == 1.0
  {
    var n := |rates| - 1;
    if n == 0 {
      AverageOfOne(alpha, rates[0], One());
      assert rates == [rates[0]];
    } else {
      WeightsSumToOne(alpha, rates[..n]);
      AverageExtends(alpha, rates[..n], rates[n], One());
      assert rates == rates[..n] + [rates[n]];
    }
  }

  /** How the second moment, the mean and the stored variance move together. */
  lemma VarianceStep(alpha: real, mean: real, second: real, variance: real, x: real)
    requires variance == second - Square(mean)
    ensures NextMean(alpha, mean, x) == (1.0 - alpha) * mean + alpha * x
    ensures NextVariance(alpha, mean, variance, x) ==
            (1.0 - alpha) * second + alpha * Square(x) - Square(NextMean(alpha, mean, x))
  {
  }

  ghost predicate Moments(alpha: real, rates: seq<real>, b: Baseline) {
    && b.mean == Some(Average(alpha, rates, Itself())) && b.samples == |rates|
    && b.variance == Average(alpha, rates, Squared()) - Square(b.mean.value)
  }

  lemma NextMeanIs(alpha: real, mean: real, x: real, y: real)
    requires y == x
    ensures NextMean(alpha, mean, x) == (1.0 - alpha) * mean + alpha * y
  {
    Distribute(alpha, x, -mean);
  }

  lemma {:induction false} MeanExtends(alpha: real, rates: seq<real>, x: real)
    requires rates != []
    ensures Average(alpha, rates + [x], Itself()) == NextMean(alpha, Average(alpha, rates, Itself()), x)
  {
    AverageExtends(alpha, rates, x, Itself());
    NextMeanIs(alpha, Average(alpha, rates, Itself()), x, Itself()(x));
  }

  lemma {:induction false} SecondExtends(alpha: real, rates: seq<real>, x: real)
    requires rates != []
    ensures Average(alpha, rates + [x], Squared()) ==
            (1.0 - alpha) * Average(alpha, rates, Squared()) + alpha * Square(x)
  {
    AverageExtends(alpha, rates, x, Squared());
    assert Squared()(x) == Square(x);
  }

  lemma {:induction false} VarianceExtends(alpha: real, rates: seq<real>, x: real, mean: real, variance: real)
    requires rates != [] && variance == Average(alpha, rates, Squared()) - Square(mean)
    ensures NextVariance(alpha, mean, variance, x) ==
            Average(alpha, rates + [x], Squared()) - Square(NextMean(alpha, mean, x))
  {
    SecondExtends(alpha, rates, x);
    VarianceStep(alpha, mean, Average(alpha, rates, Squared()), variance, x);
  }

  lemma {:induction false} MomentsStep(c: Config, rates: seq<real>, x: real, b: Baseline)
    requires rates != [] && Moments(c.alpha, rates, b)
    ensures Moments(c.alpha, rates + [x], Train(c, b, x))
  {
    MeanExtends(c.alpha, rates, x);
    VarianceExtends(c.alpha, rates, x, b.mean.value, b.variance);
  }

  lemma {:induction false} TrainedMoments(c: Config, rates: seq<real>)
    requires rates != []
    ensures Moments(c.alpha, rates, TrainAll(c, rates))
  {
    var n := |rates| - 1;
    if n == 0 {
      assert rates == [rates[0]] && rates[..0] == [];
      assert TrainAll(c, []) == UNTRAINED;
      AverageOfOne(c.alpha, rates[0], Itself());
      AverageOfOne(c.alpha, rates[0], Squared());
    } else {
      TrainedMoments(c, rates[..n]);
      MomentsStep(c, rates[..n], rates[n], TrainAll(c, rates[..n]));
      assert rates == rates[..n] + [rates[n]];
    }
  }

  lemma {:induction false} WeightedNonNegative(w: nat -> real, rates: seq<real>, f: real -> real, k: nat)
    requires k <= |rates| && (forall i :: 0 <= i < k ==> w(i) >= 0.0) && forall x :: f(x) >= 0.0
    ensures Weighted(w, rates, f, k) >= 0.0
  {
    if k > 0 {
      WeightedNonNegative(w, rates, f, k - 1);
      ProductNonNegative(w(k - 1), f(rates[k - 1]));
    }
  }

  lemma {:induction false} PowNonNegative(x: real, n: nat)
    requires x >= 0.0
    ensures Pow(x, n) >= 0.0
  {
    if n > 0 {
      PowNonNegative(x, n - 1);
      ProductNonNegative(x, Pow(x, n - 1));
    }
  }

  lemma {:induction false} WeightNonNegative(alpha: real, n: nat, i: nat)
    requires 0.0 < alpha <= 1.0 && i < n
    ensures Weight(alpha, n, i) >= 0.0
  {
    PowNonNegative(1.0 - alpha, n - 1);
    PowNonNegative(1.0 - alpha, n - 1 - i);
    ProductNonNegative(alpha, Pow(1.0 - alpha, n - 1 - i));
  }

  lemma {:induction false} AverageOfSquares(alpha: real, rates: seq<real>, c: real)
    requires 0.0 < alpha <= 1.0
    ensures Average(alpha, rates, Deviation(c)) >= 0.0
  {
    var w := Weights(alpha, |rates|);
    forall i | 0 <= i < |rates| ensures w(i) >= 0.0 {
      WeightNonNegative(alpha, |rates|, i);
    }
    forall x ensures Deviation(c)(x) >= 0.0 {
      SquareNonNegative(x - c);
    }
    WeightedNonNegative(w, rates, Deviation(c), |rates|);
  }

  /** The spread about the mean is the second moment less the square of the mean. */
  lemma {:induction false} SpreadAboutMean(alpha: real, rates: seq<real>, mean: real)
    requires rates != [] && mean == Average(alpha, rates, Itself())
    ensures Average(alpha, rates, Deviation(mean)) == Average(alpha, rates, Squared()) - Square(mean)
  {
    var r, q := -2.0 * mean, mean * mean;
    DeviationMoments(alpha, rates, mean, r, q);
    WeightsSumToOne(alpha, rates);
    MeanSquare(mean, r, q, Average(alpha, rates, One()));
  }

  lemma MeanSquare(m: real, r: real, q: real, one: real)
    requires r == -2.0 * m && q == m * m && one == 1.0
    ensures r * m + q * one == -Square(m)
  {
  }

  /** The constant-space baseline is the exponentially weighted mean of the whole history, and the weighted mean squared
      deviation from that final mean - hence never negative, so its root needs no guard. */
  lemma {:induction false} BaselineIsWholeHistory(c: Config, rates: seq<real>)
    requires ValidConfig(c) && rates != []
    ensures var b := TrainAll(c, rates);
            && b.samples == |rates|
            && b.mean == Some(Average(c.alpha, rates, Itself()))
            && b.variance == Average(c.alpha, rates, Deviation(b.mean.value))
            && b.variance >= 0.0
  {
    TrainedMoments(c, rates);
    SpreadAboutMean(c.alpha, rates, Average(c.alpha, rates, Itself()));
    AverageOfSquares(c.alpha, rates, Average(c.alpha, rates, Itself()));
  }

  // -- Judging a rate -----------------------------------------------------------------------------------------

  datatype Pattern = InsufficientHistory | AbnormalGrowth | Growing | Shrinking | Stable

  const STD_FLOOR: real := 0.25

  predicate HasBaseline(c: Config, b: Baseline) { b.samples >= c.minSamples }

  /** The baseline's standard deviation, with a nominal floor. */
  function EffectiveStd(c: Config, b: Baseline): real {
    Max((c.sqrt)(Max(0.0, b.variance)), STD_FLOOR)
  }

  lemma StdPositive(c: Config, b: Baseline)
    ensures EffectiveStd(c, b) >= STD_FLOOR
  {
  }

  /** How many standard deviations above the baseline; nothing without one. */
  function ZScore(c: Config, b: Baseline, rate: real): Option<real> {
    if !HasBaseline(c, b) || b.mean.None? then None
    else StdPositive(c, b); Some((rate - b.mean.value) / EffectiveStd(c, b))
  }

  function Classify(c: Config, b: Baseline, rate: real): Pattern {
    if !HasBaseline(c, b) then InsufficientHistory
    else
      var z := ZScore(c, b, rate);
      if z.Some? && z.value >= c.zThreshold && rate >= c.minAbsoluteRate then AbnormalGrowth
      else if rate > c.stableBand then Growing
      else if rate < -c.stableBand then Shrinking
      else Stable
  }

  /** The spread a rate is measured against: no less than the floor, and the root of the variance above it. */
  ghost predicate IsSpread(std: real, variance: real) {
    && std >= 0.25
    && std * std == if variance >= 0.0625 then variance else 0.0625
  }

  lemma {:induction false} SpreadIs(c: Config, b: Baseline)
    requires IsSqrt(c.sqrt)
    ensures IsSpread(EffectiveStd(c, b), b.variance)
  {
    var r := (c.sqrt)(Max(0.0, b.variance));
    SquareOrder(r, STD_FLOOR);
    SquareOrder(STD_FLOOR, r);
  }

  lemma Threshold(distance: real, std: real, z: real)
    requires std > 0.0
    ensures distance / std >= z <==> distance >= z * std
  {
    QuotientOrder(distance, distance, std);
    ThresholdTimes(distance / std, z, std);
  }

  lemma ThresholdTimes(q: real, z: real, std: real)
    requires std > 0.0
    ensures q >= z <==> q * std >= z * std
  {
    if q >= z {
      ProductNonNegative(q - z, std);
      Distribute(std, q, -z);
    } else {
      ProductPositive(z - q, std);
      Distribute(std, z, -q);
    }
  }

  /** Exactly when a rate gets which verdict, once the baseline has seen anything at all. */
  lemma {:induction false} VerdictIff(c: Config, b: Baseline, rate: real)
    requires IsSqrt(c.sqrt) && b.mean.Some?
    ensures exists std :: IsSpread(std, b.variance)
              && (Classify(c, b, rate) == AbnormalGrowth <==>
                    b.samples >= c.minSamples && rate - b.mean.value >= c.zThreshold * std && rate >= c.minAbsoluteRate)
    ensures Classify(c, b, rate) == InsufficientHistory <==> b.samples < c.minSamples
    ensures b.samples >= c.minSamples && Classify(c, b, rate) != AbnormalGrowth ==>
              && (Classify(c, b, rate) == Growing <==> rate > c.stableBand)
              && (Classify(c, b, rate) == Shrinking <==> rate <= c.stableBand && rate < -c.stableBand)
  {
    SpreadIs(c, b);
    StdPositive(c, b);
    Threshold(rate - b.mean.value, EffectiveStd(c, b), c.zThreshold);
  }

  /** A windowed rate trains the baseline unless it was judged abnormal; no rate, no change. */
  function UpdateBaseline(c: Config, b: Baseline, measured: Option<real>): Baseline {
    if measured.None? || Classify(c, b, measured.value) == AbnormalGrowth then b else Train(c, b, measured.value)
  }

  function UpdateAll(c: Config, b: Baseline, measured: seq<Option<real>>): Baseline {
    if measured == [] then b
    else UpdateBaseline(c, UpdateAll(c, b, measured[..|measured| - 1]), measured[|measured| - 1])
  }

  /** Against one baseline, whatever grows at least as fast as something abnormal is abnormal. */
  lemma {:induction false} AbnormalUpward(c: Config, b: Baseline, r0: real, r: real)
    requires Classify(c, b, r0) == AbnormalGrowth && r >= r0
    ensures Classify(c, b, r) == AbnormalGrowth
  {
    StdPositive(c, b);
    QuotientOrder(r0 - b.mean.value, r - b.mean.value, EffectiveStd(c, b));
  }

  /** A surge cannot silence its own alarm. Once a rate r0 is judged abnormal, then for as long as every measured rate
      is at least r0 the baseline stays exactly as it was, and every one of them is judged abnormal. */
  lemma {:induction false} AlarmPersists(c: Config, b: Baseline, r0: real, measured: seq<Option<real>>)
    requires Classify(c, b, r0) == AbnormalGrowth
    requires forall m :: m in measured && m.Some? ==> m.value >= r0
    ensures UpdateAll(c, b, measured) == b
    ensures forall m :: m in measured && m.Some? ==> Classify(c, UpdateAll(c, b, measured), m.value) == AbnormalGrowth
  {
    if measured != [] {
      var n := |measured| - 1;
      var init, m := measured[..n], measured[n];
      assert forall y :: y in init ==> y in measured;
      AlarmPersists(c, b, r0, init);
      assert m in measured;
      if m.Some? {
        AbnormalUpward(c, b, r0, m.value);
      }
      assert measured == init + [m];
    }
  }

  lemma ShortOfThreshold(distance: real, std: real, z: real)
    requires std > 0.0
    ensures distance / std < z ==> distance <= z * std
  {
    QuotientOrder(distance, distance, std);
    if distance / std < z {
      ScaleLess(distance / std, z, std);
    }
  }

  /** The distance above the mean from which a rate is abnormal. */
  function Limit(c: Config, b: Baseline, mean: real): real {
    Max(c.minAbsoluteRate - mean, c.zThreshold * EffectiveStd(c, b))
  }

  lemma RaisesBy(alpha: real, mean: real, rate: real, limit: real)
    requires alpha > 0.0 && rate - mean <= limit
    ensures NextMean(alpha, mean, rate) - mean <= alpha * limit
  {
    ScaleLess(rate - mean, limit, alpha);
  }

  lemma {:induction false} NotAbnormal(c: Config, b: Baseline, rate: real)
    requires HasBaseline(c, b) && b.mean.Some? && Classify(c, b, rate) != AbnormalGrowth
    ensures rate - b.mean.value <= Limit(c, b, b.mean.value)
  {
    StdPositive(c, b);
    ShortOfThreshold(rate - b.mean.value, EffectiveStd(c, b), c.zThreshold);
  }

  /** Once there is a baseline, a training step raises its mean by at most alpha times the distance to the nearer of
      the two things that make a rate abnormal. */
  lemma {:induction false} TrainingRaisesLittle(c: Config, b: Baseline, rate: real)
    requires ValidConfig(c) && HasBaseline(c, b) && b.mean.Some?
    requires Classify(c, b, rate) != AbnormalGrowth
    ensures var mean := b.mean.value;
            UpdateBaseline(c, b, Some(rate)).mean.value - mean <= c.alpha * Limit(c, b, mean)
  {
    var mean := b.mean.value;
    NotAbnormal(c, b, rate);
    RaisesBy(c.alpha, mean, rate, Limit(c, b, mean));
  }

  lemma ScaleLess(x: real, y: real, k: real)
    requires x <= y && k > 0.0
    ensures x * k <= y * k && k * x <= k * y
  {
    assert (y - x) * k >= 0.0;
  }

  class GrowthDetector {
    const cfg: Config
    var mean: Option<real>
    var variance: real
    var samples: nat
    ghost var history: seq<real>

    ghost function State(): Baseline
      reads this
    {
      Baseline(mean, variance, samples)
    }

    ghost predicate Valid()
      reads this
    {
      ValidConfig(cfg) && State() == TrainAll(cfg, history)
    }

    constructor (cfg: Config)
      requires ValidConfig(cfg)
      ensures Valid() && history == [] && this.cfg == cfg
    {
      this.cfg := cfg;
      mean, variance, samples, history := None, 0.0, 0, [];
    }

    /** Keeps the two numbers equal to the definitions on the whole history. */
    method Update(rate: real)
      requires Valid()
      modifies this
      ensures Valid() && history == old(history) + [rate]
      ensures State() == Train(cfg, old(State()), rate)
      ensures mean == Some(Average(cfg.alpha, history, Itself()))
      ensures variance == Average(cfg.alpha, history, Deviation(mean.value))
    {
      history := history + [rate];
      assert history[..|history| - 1] == old(history);
      BaselineIsWholeHistory(cfg, history);
      if mean.None? {
        mean, variance, samples := Some(rate), 0.0, 1;
      } else {
        var previous := mean.value;
        mean := Some(NextMean(cfg.alpha, previous, rate));
        variance := NextVariance(cfg.alpha, previous, variance, rate);
        samples := samples + 1;
      }
    }

    method Reset()
      requires Valid()
      modifies this
      ensures Valid() && history == [] && State() == UNTRAINED
    {
      mean, variance, samples, history := None, 0.0, 0, [];
    }
  }
}
