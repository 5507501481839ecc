/** The time-based moving average and the band hysteresis of the stability index
    (ai/surgeguard_ai/stability/smoothing.py). */
module Smoothing {
  import opened Common
  import opened Reals
  import opened Hysteresis

  datatype Sample = Sample(value: real, at: real)
  datatype Tuning = Tuning(tau: real, exp: real -> real)
  datatype Average = Average(value: real, last: real, elapsed: real)

  ghost predicate ValidTuning(k: Tuning) {
    k.tau > 0.0 && IsExp(k.exp)
  }

  /** How much of the old value survives `delta` seconds. */
  function Decay(k: Tuning, delta: real): real
    requires k.tau > 0.0
  {
    (k.exp)(-delta / k.tau)
  }

  /** The share `e` of the old value stays, the rest moves to the new one. */
  function Blended(e: real, x: real, v: real): real {
    x + (1.0 - e) * (v - x)
  }

  /** One sample; before the first one there is no average. A timestamp that does not advance is ignored. */
  function Absorb(k: Tuning, a: Option<Average>, s: Sample): Average
    requires k.tau > 0.0
  {
    match a
    case None => Average(s.value, s.at, 0.0)
    case Some(m) =>
      var delta := s.at - m.last;
      if delta <= 0.0 then m
      else Average(Blended(Decay(k, delta), m.value, s.value), s.at, m.elapsed + delta)
  }

  function UpdateAll(k: Tuning, a: Option<Average>, samples: seq<Sample>): Option<Average>
    requires k.tau > 0.0
  {
    if samples == [] then a
    else Some(Absorb(k, UpdateAll(k, a, samples[..|samples| - 1]), samples[|samples| - 1]))
  }

  /** The samples that advance the clock. */
  function Accepted(samples: seq<Sample>): seq<Sample> {
    if samples == [] then []
    else
      var rest := Accepted(samples[..|samples| - 1]);
      var s := samples[|samples| - 1];
      if rest == [] || s.at > rest[|rest| - 1].at then rest + [s] else rest
  }

  /** Out-of-order and duplicate timestamps leave no trace: the average is that of the accepted samples, its clock is
      the last of them, and the elapsed time telescopes to last minus first. */
  lemma {:induction false} OnlyAcceptedCount(k: Tuning, samples: seq<Sample>)
    requires k.tau > 0.0 && samples != []
    ensures var kept, a := Accepted(samples), UpdateAll(k, None, samples);
            && kept != [] && a == UpdateAll(k, None, kept) && a.Some?
            && a.value.last == kept[|kept| - 1].at
            && a.value.elapsed == kept[|kept| - 1].at - kept[0].at
  {
    var n := |samples| - 1;
    var kept0, kept := Accepted(samples[..n]), Accepted(samples);
    if n > 0 {
      OnlyAcceptedCount(k, samples[..n]);
      if kept != kept0 {
        assert kept[..|kept0|] == kept0;
      }
    } else {
      assert UpdateAll(k, None, samples[..0]) == None && kept0 == [];
      assert kept[..0] == [];
    }
  }

  lemma {:induction false} DecayRange(k: Tuning, delta: real)
    requires ValidTuning(k) && delta > 0.0
    ensures 0.0 < Decay(k, delta) < 1.0
  {
    Quotient(-delta, k.tau);
  }

  lemma Quotient(x: real, d: real)
    requires d > 0.0 && x < 0.0
    ensures x / d < 0.0
  {
  }

  lemma {:induction false} DecaySum(k: Tuning, d1: real, d2: real)
    requires ValidTuning(k)
    ensures Decay(k, d1 + d2) == Decay(k, d1) * Decay(k, d2)
  {
    assert SumLaw(k.exp, -d1 / k.tau, -d2 / k.tau);
    assert -(d1 + d2) / k.tau == -d1 / k.tau + -d2 / k.tau;
  }

  lemma BlendedBetween(e: real, x: real, v: real, lo: real, hi: real)
    requires 0.0 < e < 1.0 && lo <= x <= hi && lo <= v <= hi
    ensures lo <= Blended(e, x, v) <= hi
  {
    var r, d := 1.0 - e, v - x;
    PartOf(r, d);
    StepBetween(x, d, r * d, lo, hi);
  }

  lemma StepBetween(x: real, d: real, p: real, lo: real, hi: real)
    requires lo <= x <= hi && lo <= x + d <= hi
    requires (d >= 0.0 ==> 0.0 <= p <= d) && (d <= 0.0 ==> d <= p <= 0.0)
    ensures lo <= x + p <= hi
  {
  }

  /** A share of a step is no longer than the step. */
  lemma PartOf(r: real, d: real)
    requires 0.0 <= r <= 1.0
    ensures d >= 0.0 ==> 0.0 <= r * d <= d
    ensures d <= 0.0 ==> d <= r * d <= 0.0
  {
    var q := 1.0 - r;
    if d >= 0.0 {
      ProductNonNegative(r, d);
      ProductNonNegative(q, d);
    } else {
      ProductNonNegative(r, -d);
      ProductNonNegative(q, -d);
    }
  }

  lemma {:induction false} StepInHull(k: Tuning, m: Average, s: Sample, lo: real, hi: real)
    requires ValidTuning(k) && lo <= m.value <= hi && (s.at > m.last ==> lo <= s.value <= hi)
    ensures lo <= Absorb(k, Some(m), s).value <= hi
  {
    if s.at > m.last {
      DecayRange(k, s.at - m.last);
      BlendedBetween(Decay(k, s.at - m.last), m.value, s.value, lo, hi);
    }
  }

  /** The average never leaves the range of the accepted samples. */
  lemma {:induction false} InHull(k: Tuning, samples: seq<Sample>, lo: real, hi: real)
    requires ValidTuning(k) && samples != []
    requires forall s :: s in Accepted(samples) ==> lo <= s.value <= hi
    ensures lo <= UpdateAll(k, None, samples).value.value <= hi
  {
    var n := |samples| - 1;
    var s := samples[n];
    if n > 0 {
      var kept0 := Accepted(samples[..n]);
      assert forall y :: y in kept0 ==> y in Accepted(samples);
      InHull(k, samples[..n], lo, hi);
      OnlyAcceptedCount(k, samples[..n]);
      var m := UpdateAll(k, None, samples[..n]).value;
      if s.at > m.last {
        assert Accepted(samples) == kept0 + [s];
        assert s in Accepted(samples);
      }
      StepInHull(k, m, s, lo, hi);
    } else {
      assert samples[..0] == [] && UpdateAll(k, None, []) == None;
      assert s in Accepted(samples);
    }
  }

  /** What one more sample does to the difference of two averages at the same clock. */
  lemma {:induction false} StepForgets(k: Tuning, a: Average, b: Average, s: Sample, gap: real, since: real)
    requires ValidTuning(k) && a.last == b.last
    requires a.value - b.value == Decay(k, since) * gap
    ensures var a', b' := Absorb(k, Some(a), s), Absorb(k, Some(b), s);
            && a'.last == b'.last && a'.elapsed - a.elapsed == b'.elapsed - b.elapsed == a'.last - a.last
            && a'.value - b'.value == Decay(k, since + (a'.last - a.last)) * gap
  {
    var delta := s.at - a.last;
    if delta > 0.0 {
      var e, d := Decay(k, delta), Decay(k, since);
      BlendedGap(e, a.value, b.value, s.value);
      DecaySum(k, since, delta);
      Reassociate(e, d, gap);
    }
  }

  lemma BlendedGap(e: real, x: real, y: real, v: real)
    ensures Blended(e, x, v) - Blended(e, y, v) == e * (x - y)
  {
  }

  lemma Reassociate(x: real, y: real, z: real)
    ensures x * (y * z) == (y * x) * z
  {
  }

  /** From `a` and `b` to `a'` and `b'` the same time went by, and exp(-elapsed / tau) of the difference is left. */
  ghost predicate Forgotten(k: Tuning, a: Average, b: Average, a': Average, b': Average)
    requires k.tau > 0.0
  {
    && a'.last == b'.last
    && a'.elapsed - a.elapsed == b'.elapsed - b.elapsed == a'.last - a.last
    && a'.value - b'.value == (k.exp)(-(a'.elapsed - a.elapsed) / k.tau) * (a.value - b.value)
  }

  lemma {:induction false} StepForgotten(k: Tuning, a: Average, b: Average, a1: Average, b1: Average, s: Sample)
    requires ValidTuning(k) && a.last == b.last && Forgotten(k, a, b, a1, b1)
    ensures Forgotten(k, a, b, Absorb(k, Some(a1), s), Absorb(k, Some(b1), s))
  {
    var since := a1.elapsed - a.elapsed;
    StepForgets(k, a1, b1, s, a.value - b.value, since);
    var a' := Absorb(k, Some(a1), s);
    assert since + (a'.last - a1.last) == a'.elapsed - a.elapsed;
  }

  /** The influence of the past depends on the time gone by and on nothing else: two averages at the same clock fed the
      same samples differ by exactly exp(-elapsed / tau) of what they differed before, however the time was
      subdivided. */
  lemma {:induction false} ForgetsByTime(k: Tuning, a: Average, b: Average, samples: seq<Sample>)
    requires ValidTuning(k) && a.last == b.last
    ensures var a', b' := UpdateAll(k, Some(a), samples), UpdateAll(k, Some(b), samples);
            a'.Some? && b'.Some? && Forgotten(k, a, b, a'.value, b'.value)
  {
    if samples == [] {
      DecayNothing(k);
    } else {
      var n := |samples| - 1;
      ForgetsByTime(k, a, b, samples[..n]);
      var a1, b1 := UpdateAll(k, Some(a), samples[..n]).value, UpdateAll(k, Some(b), samples[..n]).value;
      StepForgotten(k, a, b, a1, b1, samples[n]);
    }
  }

  lemma {:induction false} DecayNothing(k: Tuning)
    requires ValidTuning(k)
    ensures Decay(k, 0.0) == 1.0
  {
    assert -0.0 / k.tau == 0.0;
  }

  /** Two steps towards the same value are one longer step. */
  lemma {:induction false} TwoSteps(k: Tuning, a: Average, v: real, t1: real, t2: real)
    requires ValidTuning(k) && a.last < t1 < t2
    ensures Absorb(k, Some(Absorb(k, Some(a), Sample(v, t1))), Sample(v, t2)) == Absorb(k, Some(a), Sample(v, t2))
  {
    var e1, e2, e := Decay(k, t1 - a.last), Decay(k, t2 - t1), Decay(k, t2 - a.last);
    DecayOver(k, t1 - a.last, t2 - t1, t2 - a.last);
    BlendedTwice(e1, e2, e, a.value, v);
    assert Absorb(k, Some(a), Sample(v, t1)) == Average(Blended(e1, a.value, v), t1, a.elapsed + (t1 - a.last));
  }

  lemma {:induction false} DecayOver(k: Tuning, d1: real, d2: real, d: real)
    requires ValidTuning(k) && d == d1 + d2
    ensures Decay(k, d) == Decay(k, d1) * Decay(k, d2)
  {
    DecaySum(k, d1, d2);
  }

  lemma BlendedFrom(e: real, x: real, v: real)
    ensures Blended(e, x, v) == v + e * (x - v)
  {
    Distribute(e, x, -v);
  }

  lemma ScaledTwice(e1: real, e2: real, e: real, z: real, z': real)
    requires z' == e1 * z && e == e1 * e2
    ensures e2 * z' == e * z
  {
    Reassociate(e2, e1, z);
  }

  lemma BlendedTwice(e1: real, e2: real, e: real, x: real, v: real)
    requires e == e1 * e2
    ensures Blended(e2, Blended(e1, x, v), v) == Blended(e, x, v)
  {
    var y := Blended(e1, x, v);
    BlendedFrom(e1, x, v);
    BlendedFrom(e2, y, v);
    BlendedFrom(e, x, v);
    ScaledTwice(e1, e2, e, x - v, y - v);
  }

  /** A steady reading moves the average by the same amount whether it is sampled once or any number of times on the
      way. */
  lemma {:induction false} SubdivisionIrrelevant(k: Tuning, a: Average, v: real, times: seq<real>)
    requires ValidTuning(k) && times != [] && times[0] > a.last
    requires forall i, j :: 0 <= i < j < |times| ==> times[i] < times[j]
    ensures UpdateAll(k, Some(a), Steady(v, times)) == Some(Absorb(k, Some(a), Sample(v, times[|times| - 1])))
  {
    var n := |times| - 1;
    var all := Steady(v, times);
    assert all[n] == Sample(v, times[n]) && all[..n] == Steady(v, times[..n]);
    if n > 0 {
      SubdivisionIrrelevant(k, a, v, times[..n]);
      TwoSteps(k, a, v, times[n - 1], times[n]);
    } else {
      assert UpdateAll(k, Some(a), all[..0]) == Some(a);
    }
  }

  function Steady(v: real, times: seq<real>): seq<Sample> {
    seq(|times|, i requires 0 <= i < |times| => Sample(v, times[i]))
  }

  lemma ShareOfTau(t: real, tau: real)
    requires tau > 0.0
    ensures t == tau ==> -t / tau == -1.0
  {
  }

  /** How fast the average follows: of its distance to a steady reading exp(-t / tau) is left after t seconds, however
      the reading was sampled; so after one time constant exp(-1) of it is. */
  lemma {:induction false} TimeConstant(k: Tuning, a: Average, v: real, times: seq<real>)
    requires ValidTuning(k) && times != [] && times[0] > a.last
    requires forall i, j :: 0 <= i < j < |times| ==> times[i] < times[j]
    ensures var t, after := times[|times| - 1] - a.last, UpdateAll(k, Some(a), Steady(v, times));
            && after.Some?
            && after.value.value - v == (k.exp)(-t / k.tau) * (a.value - v)
            && (t == k.tau ==> after.value.value - v == (k.exp)(-1.0) * (a.value - v))
  {
    var t := times[|times| - 1] - a.last;
    SubdivisionIrrelevant(k, a, v, times);
    BlendedFrom(Decay(k, t), a.value, v);
    ShareOfTau(t, k.tau);
  }

  class ExponentialSmoother {
    const tuning: Tuning
    var value: Option<real>
    var lastTimestamp: Option<real>
    var elapsed: real
    ghost var samples: seq<Sample>  // everything offered since the last reset

    ghost predicate Valid()
      reads this
    {
      && ValidTuning(tuning)
      && (value.Some? <==> lastTimestamp.Some?) && (value.None? ==> elapsed == 0.0)
      && State() == UpdateAll(tuning, None, samples)
    }

    ghost function State(): Option<Average>
      reads this
    {
      if value.None? || lastTimestamp.None? then None else Some(Average(value.value, lastTimestamp.value, elapsed))
    }

    constructor (tuning: Tuning)
      requires ValidTuning(tuning)
      ensures Valid() && samples == [] && State() == None && this.tuning == tuning
    {
      this.tuning := tuning;
      value, lastTimestamp, elapsed, samples := None, None, 0.0, [];
    }

    method Update(v: real, at: real) returns (smoothed: real)
      requires Valid()
      modifies this
      ensures Valid() && samples == old(samples) + [Sample(v, at)]
      ensures State() == Some(Absorb(tuning, old(State()), Sample(v, at)))
      ensures smoothed == State().value.value
    {
      samples := samples + [Sample(v, at)];
      assert samples[..|samples| - 1] == old(samples);
      if value.None? || lastTimestamp.None? {
        value, lastTimestamp := Some(v), Some(at);
        return v;
      }
      var delta := at - lastTimestamp.value;
      if delta <= 0.0 {
        return value.value;
      }
      value := Some(Blended(Decay(tuning, delta), value.value, v));
      lastTimestamp := Some(at);
      elapsed := elapsed + delta;
      return value.value;
    }

    /** The elapsed time as a share of the time constant, and one from there on. */
    function FillFraction(): (r: real)
      requires Valid()
      reads this
      ensures r <= 1.0 && (r < 1.0 ==> r * tuning.tau == elapsed) && (r == 1.0 ==> elapsed >= tuning.tau)
    {
      Min(elapsed / tuning.tau, 1.0)
    }

    method Reset()
      requires Valid()
      modifies this
      ensures Valid() && samples == [] && State() == None
    {
      value, lastTimestamp, elapsed, samples := None, None, 0.0, [];
    }
  }

  // -- Bands --------------------------------------------------------------------------------------------

  datatype Status = STABLE | OBSERVE | ATTENTION_REQUIRED | HIGH_ALERT | CRITICAL

  function Rank(s: Status): nat {
    match s
    case STABLE => 0
    case OBSERVE => 1
    case ATTENTION_REQUIRED => 2
    case HIGH_ALERT => 3
    case CRITICAL => 4
  }

  /** Five even bands, each given by its inclusive lower bound; values outside the scale are clamped. */
  function StatusFor(csi: real): Status {
    var c := Clamp(csi, 0.0, 100.0);
    if c >= 80.0 then STABLE
    else if c >= 60.0 then OBSERVE
    else if c >= 40.0 then ATTENTION_REQUIRED
    else if c >= 20.0 then HIGH_ALERT
    else CRITICAL
  }

  /** A lower index is never a milder status. */
  lemma StatusMonotone(a: real, b: real)
    requires a <= b
    ensures Rank(StatusFor(b)) <= Rank(StatusFor(a))
  {
  }

  /** The five bands are twenty wide, the last one closed at the top, and worse ones lie lower. */
  lemma EvenBands(csi: real, band: nat)
    requires 0.0 <= csi <= 100.0 && band <= 4
    ensures Rank(StatusFor(csi)) == 4 - band <==>
              20.0 * band as real <= csi && (csi < 20.0 * (band + 1) as real || band == 4)
  {
  }

  /** Windows required to go from the held status to the observed one: escalation and de-escalation differ. */
  function Windows(escalate: nat, deEscalate: nat): (Status, Status) -> nat {
    (held: Status, observed: Status) => if Rank(observed) > Rank(held) then escalate else deEscalate
  }

  function Bands(csis: seq<real>): seq<Status> {
    seq(|csis|, i requires 0 <= i < |csis| => StatusFor(csis[i]))
  }

  function LeastWindows(escalate: nat, deEscalate: nat): nat {
    if escalate <= deEscalate then escalate else deEscalate
  }

  /** A band holds for at least the smaller of the two window counts before the status changes again. */
  lemma {:induction false} BandSteadiness(csis: seq<real>, escalate: nat, deEscalate: nat, m: nat, n: nat)
    requires escalate >= 1 && deEscalate >= 1
    requires 0 < m < n < |csis|
    ensures var h, req := Bands(csis), Windows(escalate, deEscalate);
            Changes(h, req, m) && Changes(h, req, n) ==> n - m >= LeastWindows(escalate, deEscalate)
  {
    var h, req, least := Bands(csis), Windows(escalate, deEscalate), LeastWindows(escalate, deEscalate);
    assert Positive(req, least);
    if Changes(h, req, m) && Changes(h, req, n) {
      ChangesApart(h, req, least, m, n);
    }
  }

  /** In any number n of windows, one or two included, the status changes at most (n - 1) / that many times. */
  lemma {:induction false} BandChangesBounded(csis: seq<real>, escalate: nat, deEscalate: nat)
    requires escalate >= 1 && deEscalate >= 1 && csis != []
    ensures ChangeCount(Bands(csis), Windows(escalate, deEscalate))
              <= (|csis| - 1) / LeastWindows(escalate, deEscalate)
  {
    var req, least := Windows(escalate, deEscalate), LeastWindows(escalate, deEscalate);
    assert Positive(req, least);
    ChangesBounded(Bands(csis), req, least);
  }

  /** The windows' latest bands, `n` of them, are all that of the last one. */
  ghost predicate LatestBandsAgree(csis: seq<real>, n: nat) {
    n <= |csis| && forall j :: |csis| - n <= j < |csis| ==> StatusFor(csis[j]) == StatusFor(csis[|csis| - 1])
  }

  /** When the status changes: for the worse at the window at which `escalate` windows in a row have agreed on a worse
      band, for the better at that at which `deEscalate` of them have agreed on a better one, and at no other. */
  lemma {:induction false} StatusChangesIff(csis: seq<real>, escalate: nat, deEscalate: nat, n: nat)
    requires escalate >= 1 && deEscalate >= 1 && 0 < n < |csis|
    ensures var h, req := Bands(csis), Windows(escalate, deEscalate);
            var held, band := Held(h[..n], req), StatusFor(csis[n]);
            && (Held(h[..n + 1], req) != held <==>
                  || (Rank(band) > Rank(held) && LatestBandsAgree(csis[..n + 1], escalate))
                  || (Rank(band) < Rank(held) && LatestBandsAgree(csis[..n + 1], deEscalate)))
            && (Held(h[..n + 1], req) != held ==> Held(h[..n + 1], req) == band)
  {
    var h, req := Bands(csis), Windows(escalate, deEscalate);
    ChangeIffLatestAgree(h, req, n);
    AgreeingBands(csis, n, escalate);
    AgreeingBands(csis, n, deEscalate);
    RankDistinguishes(Held(h[..n], req), StatusFor(csis[n]));
  }

  lemma RankDistinguishes(a: Status, b: Status)
    ensures Rank(a) == Rank(b) <==> a == b
  {
  }

  lemma {:induction false} AgreeingBands(csis: seq<real>, n: nat, k: nat)
    requires n < |csis|
    ensures LatestAre(Bands(csis)[..n + 1], k, StatusFor(csis[n])) <==> LatestBandsAgree(csis[..n + 1], k)
  {
    var h, cs := Bands(csis)[..n + 1], csis[..n + 1];
    if LatestAre(h, k, StatusFor(csis[n])) {
      forall j | n + 1 - k <= j <= n ensures StatusFor(cs[j]) == StatusFor(cs[n]) {
        assert h[j] == StatusFor(csis[n]);
      }
    }
    if LatestBandsAgree(cs, k) {
      forall j | n + 1 - k <= j <= n ensures h[j] == StatusFor(csis[n]) {
        assert StatusFor(cs[j]) == StatusFor(cs[n]);
      }
    }
  }

  class BandHysteresis {
    const escalate: nat
    const deEscalate: nat
    var current: Option<Status>
    var candidate: Option<Status>
    var count: nat
    ghost var history: seq<Status>  // the bands observed since the last reset

    ghost function State(): Gate<Status>
      reads this
    {
      Gate(current, candidate, count)
    }

    ghost predicate Valid()
      reads this
    {
      && escalate >= 1 && deEscalate >= 1
      && State() == OfferAll(history, Windows(escalate, deEscalate))
      && (current.None? <==> history == [])
    }

    constructor (escalate: nat, deEscalate: nat)
      requires escalate >= 1 && deEscalate >= 1
      ensures Valid() && history == [] && State() == Closed()
      ensures this.escalate == escalate && this.deEscalate == deEscalate
    {
      this.escalate, this.deEscalate := escalate, deEscalate;
      current, candidate, count, history := None, None, 0, [];
    }

    /** Offer one window's index; the status to report is the definition's answer on the whole history. */
    method Offer(csi: real) returns (status: Status, changed: bool)
      requires Valid()
      modifies this
      ensures Valid() && history == old(history) + [StatusFor(csi)]
      ensures State() == Hysteresis.Offer(old(State()), StatusFor(csi), Windows(escalate, deEscalate))
      ensures status == Held(history, Windows(escalate, deEscalate)) && current == Some(status)
      ensures changed == (old(current) != Some(status))
    {
      var observed := StatusFor(csi);
      history := history + [observed];
      assert history[..|history| - 1] == old(history);
      CountersRefineHistory(history, Windows(escalate, deEscalate));
      if current.None? {
        current := Some(observed);
        ClearCandidate();
        return observed, true;
      }
      if current == Some(observed) {
        ClearCandidate();
        return observed, false;
      }
      if candidate == Some(observed) {
        count := count + 1;
      } else {
        candidate, count := Some(observed), 1;
      }
      var required := if Rank(observed) > Rank(current.value) then escalate else deEscalate;
      if count >= required {
        current := Some(observed);
        ClearCandidate();
        return observed, true;
      }
      return current.value, false;
    }

    method ClearCandidate()
      modifies this`candidate, this`count
      ensures candidate == None && count == 0
    {
      candidate, count := None, 0;
    }

    method Reset()
      requires escalate >= 1 && deEscalate >= 1
      modifies this
      ensures Valid() && history == [] && State() == Closed()
    {
      current, history := None, [];
      ClearCandidate();
    }
  }
}
