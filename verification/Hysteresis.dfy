/** Holding a reported state steady (ai/surgeguard_ai/stability/smoothing.py, intelligence/decision_engine.py):
    counters that decide as a definition over the whole history of observations does. */
module Hysteresis {
  import opened Common

  /** The state of a gate: what is held, the candidate to replace it, and for how many windows in a row it was seen. */
  datatype Gate<S> = Gate(current: Option<S>, candidate: Option<S>, count: nat)

  function Closed<S>(): Gate<S> { Gate(None, None, 0) }

  /** `required(held, observed)` windows in a row are needed to adopt `observed`. */
  function Offer<S(==)>(g: Gate<S>, observed: S, required: (S, S) -> nat): Gate<S> {
    if g.current.None? || observed == g.current.value then Gate(Some(observed), None, 0)
    else
      var count := if g.candidate == Some(observed) then g.count + 1 else 1;
      if count >= required(g.current.value, observed) then Gate(Some(observed), None, 0)
      else Gate(g.current, Some(observed), count)
  }

  function OfferAll<S(==)>(history: seq<S>, required: (S, S) -> nat): Gate<S> {
    if history == [] then Closed()
    else Offer(OfferAll(history[..|history| - 1], required), history[|history| - 1], required)
  }

  // -- The definition on histories ------------------------------------------------------------------------

  /** How many of the latest observations are equal. */
  function TailRun<S(==)>(history: seq<S>): nat {
    if history == [] then 0
    else
      var n := |history| - 1;
      if n > 0 && history[n - 1] == history[n] then TailRun(history[..n]) + 1 else 1
  }

  /** The state held after a history: the first observation, until another has been seen often enough in a row. */
  function Held<S(==)>(history: seq<S>, required: (S, S) -> nat): S
    requires history != []
  {
    var n := |history| - 1;
    if n == 0 then history[0]
    else
      var held := Held(history[..n], required);
      if history[n] != held && TailRun(history) >= required(held, history[n]) then history[n] else held
  }

  /** Did window `n` change the held state? */
  predicate Changes<S(==)>(history: seq<S>, required: (S, S) -> nat, n: nat)
    requires 0 < n < |history|
  {
    Held(history[..n + 1], required) != Held(history[..n], required)
  }

  function ChangeCount<S(==)>(history: seq<S>, required: (S, S) -> nat): nat {
    if |history| <= 1 then 0
    else
      var n := |history| - 1;
      ChangeCount(history[..n], required) + (if Held(history, required) != Held(history[..n], required) then 1 else 0)
  }

  ghost predicate Positive<S(!new)>(required: (S, S) -> nat, least: nat) {
    least >= 1 && forall a, b :: required(a, b) >= least
  }

  /** The tail run is constant. */
  lemma {:induction false} TailRunConstant<S>(history: seq<S>)
    requires history != []
    ensures 1 <= TailRun(history) <= |history|
    ensures forall j :: |history| - TailRun(history) <= j < |history| ==> history[j] == history[|history| - 1]
  {
    var n := |history| - 1;
    if n > 0 && history[n - 1] == history[n] {
      TailRunConstant(history[..n]);
    }
  }

  /** The counters are the history: what is held is the definition's answer, and the count is the length of the
      tail run of an observation that differs from it. A run that reached its required length was adopted. */
  lemma {:induction false} CountersRefineHistory<S(!new)>(history: seq<S>, required: (S, S) -> nat)
    requires history != [] && Positive(required, 1)
    ensures var g, held, x := OfferAll(history, required), Held(history, required), history[|history| - 1];
            && g.current == Some(held)
            && (x == held ==> g.candidate == None && g.count == 0)
            && (x != held ==> g.candidate == Some(x) && g.count == TailRun(history) < required(held, x))
  {
    var n := |history| - 1;
    if n > 0 {
      CountersRefineHistory(history[..n], required);
      TailRunConstant(history);
    } else {
      assert OfferAll(history[..0], required) == Closed<S>();
    }
  }

  /** The held state changes at a window exactly when the run of a different observation just reaches its required
      length. */
  lemma {:induction false} ChangeIffRunReached<S(!new)>(history: seq<S>, required: (S, S) -> nat, n: nat)
    requires 0 < n < |history| && Positive(required, 1)
    ensures var held, x := Held(history[..n], required), history[n];
            Changes(history, required, n) <==> x != held && TailRun(history[..n + 1]) == required(held, x)
  {
    var h := history[..n + 1];
    assert h[..n] == history[..n];
    CountersRefineHistory(history[..n], required);
    TailRunConstant(h);
  }

  /** The latest `n` observations are all `x`. */
  predicate LatestAre<S(==)>(history: seq<S>, n: nat, x: S) {
    n <= |history| && forall j :: |history| - n <= j < |history| ==> history[j] == x
  }

  lemma {:induction false} TailRunIsLongest<S>(history: seq<S>, n: nat)
    requires history != []
    ensures n >= 1 ==> (LatestAre(history, n, history[|history| - 1]) <==> n <= TailRun(history))
  {
    var k := |history| - 1;
    TailRunConstant(history);
    if n > 1 && LatestAre(history, n, history[k]) {
      assert history[k - 1] == history[k];
      TailRunIsLongest(history[..k], n - 1);
      assert LatestAre(history[..k], n - 1, history[..k][k - 1]);
    }
  }

  lemma {:induction false} TailRunStep<S>(history: seq<S>)
    requires |history| > 1
    ensures var n := |history| - 1;
            TailRun(history) > 1 ==> history[n - 1] == history[n] && TailRun(history) == TailRun(history[..n]) + 1
  {
  }

  /** The definition without its counters: the first observation is held; from then on a different one is adopted at the
      very window at which as many in a row as it needs have been seen, and nothing else is. */
  lemma {:induction false} ChangeIffLatestAgree<S(!new)>(history: seq<S>, required: (S, S) -> nat, n: nat)
    requires n < |history| && Positive(required, 1)
    ensures n == 0 ==> Held(history[..1], required) == history[0]
    ensures n > 0 ==>
              var held, x := Held(history[..n], required), history[n];
              && (Changes(history, required, n) <==>
                    x != held && LatestAre(history[..n + 1], required(held, x), x))
              && Held(history[..n + 1], required) == (if Changes(history, required, n) then x else held)
  {
    if n > 0 {
      var h := history[..n + 1];
      var held, x := Held(history[..n], required), history[n];
      assert h[..n] == history[..n];
      ChangeIffRunReached(history, required, n);
      assert required(held, x) >= 1;
      TailRunIsLongest(h, required(held, x));
      CountersRefineHistory(history[..n], required);
      TailRunStep(h);
    }
  }

  /** Once adopted, a state stays while it is all that is observed. */
  lemma {:induction false} HeldThroughRun<S(!new)>(history: seq<S>, required: (S, S) -> nat, from: nat, to: nat)
    requires 0 < from <= to <= |history|
    requires forall j :: from - 1 <= j < to ==> history[j] == Held(history[..from], required)
    ensures Held(history[..to], required) == Held(history[..from], required)
  {
    if from < to {
      HeldThroughRun(history, required, from, to - 1);
      assert history[..to][..to - 1] == history[..to - 1];
    }
  }

  /** Changes are at least `least` windows apart. */
  lemma {:induction false} ChangesApart<S(!new)>(history: seq<S>, required: (S, S) -> nat, least: nat, m: nat, n: nat)
    requires Positive(required, least) && 0 < m < n < |history|
    requires Changes(history, required, m) && Changes(history, required, n)
    ensures n - m >= least
  {
    var x := history[n];
    var h := history[..n + 1];
    ChangeIffRunReached(history, required, m);
    ChangeIffRunReached(history, required, n);
    TailRunConstant(h);
    assert forall j :: n + 1 - TailRun(h) <= j <= n ==> h[j] == history[j];
    if n - m < least {
      assert history[..m + 1][..m] == history[..m];
      assert Held(history[..m + 1], required) == history[m];
      HeldThroughRun(history, required, m + 1, n);
    }
  }

  /** How far the window count must have advanced for the changes and the pending run so far. */
  function Pending<S(==)>(history: seq<S>, required: (S, S) -> nat): nat
    requires history != []
  {
    if history[|history| - 1] == Held(history, required) then 0 else TailRun(history)
  }

  /** `least` for every change. */
  function Price<S(==)>(history: seq<S>, required: (S, S) -> nat, least: nat): nat {
    if |history| <= 1 then 0
    else
      var n := |history| - 1;
      Price(history[..n], required, least)
        + (if Held(history, required) != Held(history[..n], required) then least else 0)
  }

  lemma {:induction false} PriceIsProduct<S(!new)>(history: seq<S>, required: (S, S) -> nat, least: nat)
    ensures Price(history, required, least) == ChangeCount(history, required) * least
  {
    if |history| > 1 {
      PriceIsProduct(history[..|history| - 1], required, least);
    }
  }

  lemma {:induction false} ChangesPaidFor<S(!new)>(history: seq<S>, required: (S, S) -> nat, least: nat)
    requires history != [] && Positive(required, least)
    ensures Price(history, required, least) + Pending(history, required) <= |history| - 1
  {
    var n := |history| - 1;
    if n > 0 {
      var held := Held(history[..n], required);
      ChangesPaidFor(history[..n], required, least);
      CountersRefineHistory(history[..n], required);
      TailRunConstant(history[..n]);
      if history[n] != held && TailRun(history) > 1 {
        assert TailRun(history) == TailRun(history[..n]) + 1 && history[n - 1] == history[n];
      }
      assert required(held, history[n]) >= least;
    }
  }

  /** In n windows the held state changes at most (n - 1) / least times after the first reading. */
  lemma {:induction false} ChangesBounded<S(!new)>(history: seq<S>, required: (S, S) -> nat, least: nat)
    requires history != [] && Positive(required, least)
    ensures ChangeCount(history, required) <= (|history| - 1) / least
  {
    ChangesPaidFor(history, required, least);
    PriceIsProduct(history, required, least);
    AtMost(ChangeCount(history, required), least, |history| - 1);
  }

  lemma ProductOrder(a: nat, b: nat, m: nat)
    ensures a <= b ==> a * m <= b * m
  {
  }

  lemma {:induction false} AtMost(k: nat, m: nat, n: nat)
    requires m >= 1 && k * m <= n
    ensures k <= n / m
  {
    assert n < (n / m + 1) * m;
    ProductOrder(n / m + 1, k, m);
  }
}
