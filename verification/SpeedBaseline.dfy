/** The rolling speed baseline of one camera (ai/surgeguard_ai/analysis/grid_crowd_analyzer.py). */
module SpeedBaseline {
  import opened Common
  import opened Window
  import opened Medians
  import opened Reals

  datatype Speed = Speed(at: real, speed: real)

  datatype Tuning = Tuning(window: real, minSamples: nat)

  function OlderThan(cutoff: real): Speed -> bool { (s: Speed) => s.at < cutoff }

  /** Add a sample and drop what left the window. */
  function Record(k: Tuning, history: seq<Speed>, s: Speed): seq<Speed> {
    DropWhile(history + [s], OlderThan(s.at - k.window))
  }

  function RecordAll(k: Tuning, samples: seq<Speed>): seq<Speed> {
    if samples == [] then [] else Record(k, RecordAll(k, samples[..|samples| - 1]), samples[|samples| - 1])
  }

  function SpeedsOf(history: seq<Speed>): seq<real> {
    seq(|history|, i requires 0 <= i < |history| => history[i].speed)
  }

  /** The median over the window; nothing until enough of it has filled. */
  function Baseline(k: Tuning, history: seq<Speed>): Option<real>
    requires k.minSamples >= 1
  {
    if |history| < k.minSamples then None else Some(Median(SpeedsOf(history)))
  }

  /** The latest time of any sample. */
  function Latest(samples: seq<Speed>): real
    requires samples != []
  {
    var n := |samples| - 1;
    if n == 0 then samples[0].at else Max(Latest(samples[..n]), samples[n].at)
  }

  lemma {:induction false} LatestIsLast(samples: seq<Speed>)
    requires samples != []
    ensures exists i :: 0 <= i < |samples| && samples[i].at == Latest(samples)
  {
    var n := |samples| - 1;
    if n > 0 {
      LatestIsLast(samples[..n]);
      var i :| 0 <= i < n && samples[..n][i].at == Latest(samples[..n]);
      assert samples[i].at == Latest(samples[..n]);
    }
    assert samples[n].at == Latest(samples) || (n > 0 && Latest(samples) == Latest(samples[..n]));
  }

  /** What of a history is not older than the window before its latest sample. */
  function InWindow(k: Tuning, samples: seq<Speed>): seq<Speed>
    requires samples != []
  {
    DropWhile(samples, OlderThan(Latest(samples) - k.window))
  }

  lemma {:induction false} LatestInWindow(k: Tuning, samples: seq<Speed>)
    requires samples != [] && k.window >= 0.0
    ensures InWindow(k, samples) != [] && InWindow(k, samples)[0].at >= Latest(samples) - k.window
  {
    LatestIsLast(samples);
    var i :| 0 <= i < |samples| && samples[i].at == Latest(samples);
    var stale := OlderThan(Latest(samples) - k.window);
    FreshMeansSome(samples, i, stale);
    DropWhileIsSuffix(samples, stale);
  }

  lemma {:induction false} FirstSample(k: Tuning, s: Speed)
    requires k.window >= 0.0
    ensures Record(k, [], s) == [s] == InWindow(k, [s])
  {
    assert [] + [s] == [s];
  }

  lemma {:induction false} RecordInWindow(k: Tuning, samples: seq<Speed>, s: Speed)
    requires samples != [] && k.window >= 0.0
    ensures Record(k, InWindow(k, samples), s) == InWindow(k, samples + [s])
  {
    assert (samples + [s])[..|samples|] == samples;
    LatestInWindow(k, samples);
    var early := OlderThan(Latest(samples) - k.window);
    if s.at > Latest(samples) {
      DropWhileResumes(samples, [s], early, OlderThan(s.at - k.window));
    } else {
      DropWhileStops(samples, [s], early);
    }
  }

  /** Whatever the times, also when they run backwards: the history kept is the suffix of everything recorded since the
      reset that starts at the first sample not older than the window before the latest time seen. */
  lemma {:induction false} HistoryIsWindow(k: Tuning, samples: seq<Speed>)
    requires samples != [] && k.window >= 0.0
    ensures RecordAll(k, samples) == InWindow(k, samples)
  {
    var n := |samples| - 1;
    var s := samples[n];
    assert samples == samples[..n] + [s];
    if n == 0 {
      FirstSample(k, s);
    } else {
      HistoryIsWindow(k, samples[..n]);
      RecordInWindow(k, samples[..n], s);
    }
  }

  // -- A baseline that the window's own speed is part of ----------------------------------------------------

  ghost predicate NonNegative(s: seq<real>) {
    forall i :: 0 <= i < |s| ==> s[i] >= 0.0
  }

  lemma NoSmaller(x: real, k: real)
    requires x >= 0.0 && k >= 1.0
    ensures x <= k * x
  {
    ProductNonNegative(k - 1.0, x);
    Distribute(x, k, -1.0);
  }

  /** Others stay, and one sample grows `k`-fold. */
  lemma {:induction false} OneGrows(s: seq<real>, v: real, v': real, k: real)
    requires NonNegative(s) && k >= 1.0 && v' <= k * v
    ensures AtMostScaled(s + [v], s + [v'], k)
  {
    forall i | 0 <= i < |s| + 1 ensures ScaledBound((s + [v])[i], (s + [v'])[i], k) {
      if i < |s| {
        NoSmaller(s[i], k);
      }
    }
  }

  lemma CrossQuotient(a: real, b: real, c: real, d: real)
    requires b > 0.0 && d > 0.0 && a * d <= c * b
    ensures a / b <= c / d
  {
    var q, r := a / b, c / d;
    QuotientOrder(a, a, b);
    QuotientOrder(c, c, d);
    ProductPositive(b, d);
    CancelOrder(q, r, b * d, a * d, c * b);
  }

  lemma CancelOrder(q: real, r: real, m: real, x: real, y: real)
    requires m > 0.0 && q * m == x && r * m == y && x <= y
    ensures q <= r
  {
    LessTimes(r, q, m);
  }

  lemma LessTimes(x: real, y: real, m: real)
    requires m > 0.0
    ensures x < y ==> x * m < y * m
  {
    if x < y {
      ProductPositive(y - x, m);
      Distribute(m, y, -x);
    }
  }

  lemma GrowthFactor(v: real, v': real)
    requires 0.0 < v <= v'
    ensures v' / v >= 1.0 && v' == v' / v * v
  {
    QuotientOrder(v, v', v);
    QuotientOrder(v', v', v);
    QuotientOrder(v, v, v);
  }

  /** Moving faster lifts the baseline, but never by more than the speed itself. */
  lemma {:induction false} RatioRises(s: seq<real>, v: real, v': real)
    requires NonNegative(s) && 0.0 <= v <= v' && Median(s + [v]) > 0.0
    ensures Median(s + [v']) > 0.0 && v / Median(s + [v]) <= v' / Median(s + [v'])
  {
    MedianGrows(s, v, v');
    var m, m' := Median(s + [v]), Median(s + [v']);
    if v > 0.0 {
      var k := v' / v;
      GrowthFactor(v, v');
      OneGrows(s, v, v', k);
      MedianScaled(s + [v], s + [v'], k);
      CrossFactor(v, v', m, m', k);
      CrossQuotient(v, m, v', m');
    } else {
      QuotientOrder(0.0, v', m');
      QuotientOrder(0.0, 0.0, m);
    }
  }

  lemma CrossFactor(v: real, v': real, m: real, m': real, k: real)
    requires v > 0.0 && v' == k * v && m' <= k * m
    ensures v * m' <= v' * m
  {
    ProductNonNegative(v, k * m - m');
    Distribute(v, k * m, -m');
    assert v * (k * m) == (k * v) * m;
  }

  lemma {:induction false} MedianGrows(s: seq<real>, v: real, v': real)
    requires NonNegative(s) && v <= v'
    ensures Median(s + [v]) <= Median(s + [v'])
  {
    forall i | 0 <= i < |s| + 1 ensures ScaledBound((s + [v'])[i], (s + [v])[i], 1.0) {
    }
    MedianScaled(s + [v'], s + [v], 1.0);
  }

  /** The baseline of a window with this median speed, which the analyser records first. */
  function BaselineWith(k: Tuning, history: seq<Speed>, at: real, median: Option<real>): Option<real>
    requires k.minSamples >= 1
  {
    Baseline(k, if median.None? then history else Record(k, history, Speed(at, median.value)))
  }

  predicate Usable(baseline: Option<real>) { baseline.Some? && baseline.value > 0.0 }

  lemma {:induction false} RecordedSpeeds(k: Tuning, history: seq<Speed>, at: real, v: real)
    requires k.window >= 0.0
    ensures var kept := DropWhile(history, OlderThan(at - k.window));
            SpeedsOf(Record(k, history, Speed(at, v))) == SpeedsOf(kept) + [v]
  {
    DropWhileKeepsLast(history, Speed(at, v), OlderThan(at - k.window));
  }

  lemma {:induction false} KeptNonNegative(k: Tuning, history: seq<Speed>, at: real)
    requires NonNegative(SpeedsOf(history))
    ensures NonNegative(SpeedsOf(DropWhile(history, OlderThan(at - k.window))))
  {
    var stale := OlderThan(at - k.window);
    DropWhileIsSuffix(history, stale);
    var kept := DropWhile(history, stale);
    var d := |history| - |kept|;
    forall i | 0 <= i < |kept| ensures SpeedsOf(kept)[i] >= 0.0 {
      assert SpeedsOf(history)[d + i] >= 0.0;
    }
  }

  /** After the same history, a slower window is a smaller part of its baseline, although the baseline falls with it. */
  lemma {:induction false} SlowerIsSmallerPart(k: Tuning, history: seq<Speed>, at: real, slow: real, fast: real)
    requires k.window >= 0.0 && k.minSamples >= 1 && NonNegative(SpeedsOf(history)) && 0.0 <= slow <= fast
    requires Usable(BaselineWith(k, history, at, Some(slow)))
    ensures Usable(BaselineWith(k, history, at, Some(fast)))
    ensures slow / BaselineWith(k, history, at, Some(slow)).value
              <= fast / BaselineWith(k, history, at, Some(fast)).value
  {
    var kept := SpeedsOf(DropWhile(history, OlderThan(at - k.window)));
    RecordedSpeeds(k, history, at, slow);
    RecordedSpeeds(k, history, at, fast);
    KeptNonNegative(k, history, at);
    RatioRises(kept, slow, fast);
  }
}
