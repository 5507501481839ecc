/** The rate at which peak density changes (ai/surgeguard_ai/stability/weighted_assessor.py). */
module Trend {
  import opened Common
  import opened Reals
  import opened Window

  /** Peak density at an instant, in seconds. */
  datatype Peak = Peak(at: real, density: real)

  datatype Tuning = Tuning(window: real, minSpan: real)

  ghost predicate ValidTuning(k: Tuning) {
    0.0 < k.minSpan <= k.window
  }

  function OlderThan(cutoff: real): Peak -> bool { (p: Peak) => p.at < cutoff }

  /** An out-of-order or duplicate reading is ignored; any other is appended, and what left the window is dropped. */
  function Record(k: Tuning, history: seq<Peak>, p: Peak): seq<Peak> {
    if history != [] && p.at <= history[|history| - 1].at then history
    else DropWhile(history + [p], OlderThan(p.at - k.window))
  }

  function RecordAll(k: Tuning, ps: seq<Peak>): seq<Peak> {
    if ps == [] then [] else Record(k, RecordAll(k, ps[..|ps| - 1]), ps[|ps| - 1])
  }

  /** The slope over the retained window, once it is long enough. */
  function RateFrom(k: Tuning, history: seq<Peak>): Option<real>
    requires k.minSpan > 0.0
  {
    if |history| < 2 then None
    else
      var first, last := history[0], history[|history| - 1];
      if last.at - first.at < k.minSpan then None
      else Some((last.density - first.density) / (last.at - first.at))
  }

  // -- The definition over everything offered ---------------------------------------------------------------

  /** The readings that advance the clock. */
  function Accepted(ps: seq<Peak>): seq<Peak> {
    if ps == [] then []
    else
      var rest, p := Accepted(ps[..|ps| - 1]), ps[|ps| - 1];
      if rest != [] && p.at <= rest[|rest| - 1].at then rest else rest + [p]
  }

  ghost predicate Ascending(ps: seq<Peak>) {
    forall i, j :: 0 <= i < j < |ps| ==> ps[i].at < ps[j].at
  }

  lemma {:induction false} AcceptedAscend(ps: seq<Peak>)
    ensures Ascending(Accepted(ps)) && (ps != [] ==> Accepted(ps) != [])
  {
    if ps != [] {
      AcceptedAscend(ps[..|ps| - 1]);
    }
  }

  /** The last accepted time less the window. */
  function CutoffOf(k: Tuning, ps: seq<Peak>): real
    requires ps != []
  {
    ps[|ps| - 1].at - k.window
  }

  /** What of an accepted history lies in the window. */
  function WindowOf(k: Tuning, a: seq<Peak>): seq<Peak>
    requires a != []
  {
    DropWhile(a, OlderThan(CutoffOf(k, a)))
  }

  lemma {:induction false} WindowKeepsLast(k: Tuning, a: seq<Peak>)
    requires ValidTuning(k) && a != []
    ensures WindowOf(k, a) != [] && WindowOf(k, a)[|WindowOf(k, a)| - 1] == a[|a| - 1]
  {
    var n := |a| - 1;
    assert a == a[..n] + [a[n]];
    DropWhileKeepsLast(a[..n], a[n], OlderThan(CutoffOf(k, a)));
  }

  lemma {:induction false} RecordStep(k: Tuning, a: seq<Peak>, p: Peak)
    requires ValidTuning(k) && a != [] && p.at > a[|a| - 1].at
    ensures Record(k, WindowOf(k, a), p) == WindowOf(k, a + [p])
  {
    WindowKeepsLast(k, a);
    DropWhileResumes(a, [p], OlderThan(CutoffOf(k, a)), OlderThan(p.at - k.window));
  }

  lemma {:induction false} FirstRecord(k: Tuning, p: Peak)
    requires ValidTuning(k)
    ensures Record(k, [], p) == [p] == WindowOf(k, [p])
  {
    assert [] + [p] == [p];
  }

  lemma {:induction false} RecordedSuffix(k: Tuning, ps: seq<Peak>)
    requires ValidTuning(k) && ps != []
    ensures Accepted(ps) != [] && RecordAll(k, ps) == WindowOf(k, Accepted(ps))
  {
    var n := |ps| - 1;
    var a, p := Accepted(ps[..n]), ps[n];
    if n == 0 {
      FirstRecord(k, p);
      assert ps[..0] == [] && [] + [p] == [p];
    } else {
      RecordedSuffix(k, ps[..n]);
      WindowKeepsLast(k, a);
      if p.at > a[|a| - 1].at {
        RecordStep(k, a, p);
      }
    }
  }

  lemma {:induction false} InWindow(k: Tuning, a: seq<Peak>, p: Peak)
    requires ValidTuning(k) && a != [] && Ascending(a)
    ensures p in WindowOf(k, a) <==> p in a && p.at >= CutoffOf(k, a)
  {
    var r := WindowOf(k, a);
    DropWhileIsSuffix(a, OlderThan(CutoffOf(k, a)));
    var d := |a| - |r|;
    if p in r {
      var i :| 0 <= i < |r| && r[i] == p;
      assert a[d + i] == p && a[d] == r[0];
    }
    if p in a && p.at >= CutoffOf(k, a) {
      var i :| 0 <= i < |a| && a[i] == p;
      assert i >= d;
      assert r[i - d] == p;
    }
  }

  /** What is retained is exactly what was accepted within the window before the last accepted reading. */
  lemma {:induction false} RetainedIsWindow(k: Tuning, ps: seq<Peak>)
    requires ValidTuning(k) && ps != []
    ensures Accepted(ps) != [] && Ascending(Accepted(ps))
    ensures forall p :: p in RecordAll(k, ps) <==> p in Accepted(ps) && p.at >= CutoffOf(k, Accepted(ps))
  {
    RecordedSuffix(k, ps);
    AcceptedAscend(ps);
    forall p ensures p in RecordAll(k, ps) <==> p in Accepted(ps) && p.at >= CutoffOf(k, Accepted(ps)) {
      InWindow(k, Accepted(ps), p);
    }
  }

  /** A rate is always a slope over at least the minimum span and at most the window. */
  lemma {:induction false} RateSpan(k: Tuning, ps: seq<Peak>)
    requires ValidTuning(k) && ps != [] && RateFrom(k, RecordAll(k, ps)).Some?
    ensures var r := RecordAll(k, ps);
            |r| >= 2 && k.minSpan <= r[|r| - 1].at - r[0].at <= k.window
  {
    RetainedIsWindow(k, ps);
    RecordedSuffix(k, ps);
    WindowKeepsLast(k, Accepted(ps));
    assert RecordAll(k, ps)[0] in RecordAll(k, ps);
  }

  /** The earliest accepted reading no older than the window before the last one. */
  ghost predicate IsEarliest(k: Tuning, ps: seq<Peak>, p: Peak) {
    var a := Accepted(ps);
    && a != [] && p in a && p.at >= CutoffOf(k, a)
    && forall q :: q in a && q.at >= CutoffOf(k, a) ==> p.at <= q.at
  }

  lemma {:induction false} FirstRetained(k: Tuning, ps: seq<Peak>)
    requires ValidTuning(k) && ps != []
    ensures var a, r := Accepted(ps), RecordAll(k, ps);
            && a != [] && r != [] && r[|r| - 1] == a[|a| - 1] && IsEarliest(k, ps, r[0])
            && (|r| == 1 ==> r[0].at == a[|a| - 1].at) && (|r| >= 2 ==> r[0].at < a[|a| - 1].at)
  {
    RetainedIsWindow(k, ps);
    RecordedSuffix(k, ps);
    var a, r := Accepted(ps), RecordAll(k, ps);
    WindowKeepsLast(k, a);
    DropWhileIsSuffix(a, OlderThan(CutoffOf(k, a)));
    var d := |a| - |r|;
    forall q | q in a && q.at >= CutoffOf(k, a) ensures r[0].at <= q.at {
      var i :| 0 <= i < |r| && r[i] == q;
      assert r[0] == a[d] && r[i] == a[d + i];
    }
    assert r[0] in r && r[0] == a[d];
  }

  lemma {:induction false} SameTime(ps: seq<Peak>, p: Peak, q: Peak)
    requires p in Accepted(ps) && q in Accepted(ps) && p.at == q.at
    ensures p == q
  {
    AcceptedAscend(ps);
  }

  lemma SlopeTimes(rise: real, run: real)
    requires run > 0.0
    ensures rise / run * run == rise
  {
  }

  /** A slope between two readings, there being one exactly when they are the least span apart. */
  ghost predicate IsSlope(k: Tuning, rate: Option<real>, first: Peak, last: Peak) {
    && (rate.Some? <==> last.at - first.at >= k.minSpan)
    && (rate.Some? ==> rate.value * (last.at - first.at) == last.density - first.density)
  }

  lemma {:induction false} RateFromIs(k: Tuning, h: seq<Peak>)
    requires k.minSpan > 0.0 && h != [] && (|h| >= 2 ==> h[0].at < h[|h| - 1].at)
    ensures IsSlope(k, RateFrom(k, h), h[0], h[|h| - 1])
  {
    if |h| >= 2 {
      SlopeTimes(h[|h| - 1].density - h[0].density, h[|h| - 1].at - h[0].at);
    }
  }

  /** Exactly when there is a rate, and what it is: the slope from the earliest reading in the window to the last one,
      once they are the least span apart. */
  lemma {:induction false} RateIs(k: Tuning, ps: seq<Peak>, p: Peak)
    requires ValidTuning(k) && ps != [] && IsEarliest(k, ps, p)
    ensures var a := Accepted(ps); IsSlope(k, RateFrom(k, RecordAll(k, ps)), p, a[|a| - 1])
  {
    var a, r := Accepted(ps), RecordAll(k, ps);
    FirstRetained(k, ps);
    SameTime(ps, p, r[0]);
    RateFromIs(k, r);
  }

  /** After the same history and at the same instant, a denser reading never gives a lower rate, and whether there is a
      rate at all does not depend on the density. */
  lemma {:induction false} RateRisesWithDensity(k: Tuning, history: seq<Peak>, at: real, d: real, d': real)
    requires ValidTuning(k) && d <= d'
    ensures var r, r' := RateFrom(k, Record(k, history, Peak(at, d))), RateFrom(k, Record(k, history, Peak(at, d')));
            (r.Some? <==> r'.Some?) && (r.Some? ==> r.value <= r'.value)
  {
    if history == [] || at > history[|history| - 1].at {
      var stale := OlderThan(at - k.window);
      DropWhileKeepsLast(history, Peak(at, d), stale);
      DropWhileKeepsLast(history, Peak(at, d'), stale);
      var kept := DropWhile(history, stale);
      if kept != [] && at - kept[0].at >= k.minSpan {
        QuotientOrder(d - kept[0].density, d' - kept[0].density, at - kept[0].at);
      }
    }
  }
}
