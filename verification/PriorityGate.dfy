/** The decision engine's priority gate (ai/surgeguard_ai/intelligence/decision_engine.py): the same hysteresis with
    one length for raising and lowering. */
module PriorityGate {
  import opened Common
  import opened Hysteresis

  datatype Priority = LOW | MEDIUM | HIGH | CRITICAL

  function Always(windows: nat): (Priority, Priority) -> nat {
    (held: Priority, observed: Priority) => windows
  }

  /** Priority changes are at least the configured number of windows apart. */
  lemma {:induction false} PrioritySteadiness(h: seq<Priority>, windows: nat, m: nat, n: nat)
    requires windows >= 1 && 0 < m < n < |h|
    ensures Changes(h, Always(windows), m) && Changes(h, Always(windows), n) ==> n - m >= windows
  {
    assert Positive(Always(windows), windows);
    if Changes(h, Always(windows), m) && Changes(h, Always(windows), n) {
      ChangesApart(h, Always(windows), windows, m, n);
    }
  }

  /** In any number n of windows, one or two included, the priority changes at most (n - 1) / that many times. */
  lemma {:induction false} PriorityChangesBounded(h: seq<Priority>, windows: nat)
    requires windows >= 1 && h != []
    ensures ChangeCount(h, Always(windows)) <= (|h| - 1) / windows
  {
    assert Positive(Always(windows), windows);
    ChangesBounded(h, Always(windows), windows);
  }

  /** When the priority changes: at the window at which the configured number of them in a row have agreed on another
      one, and at no other; then it becomes that one. */
  lemma {:induction false} PriorityChangesIff(h: seq<Priority>, windows: nat, n: nat)
    requires windows >= 1 && 0 < n < |h|
    ensures var held := Held(h[..n], Always(windows));
            Held(h[..n + 1], Always(windows))
              == if h[n] != held && LatestAre(h[..n + 1], windows, h[n]) then h[n] else held
  {
    ChangeIffLatestAgree(h, Always(windows), n);
  }

  class Stabiliser {
    const windows: nat
    var priority: Option<Priority>
    var candidate: Option<Priority>
    var run: nat
    ghost var history: seq<Priority>

    ghost predicate Valid()
      reads this
    {
      && windows >= 1
      && Gate(priority, candidate, run) == OfferAll(history, Always(windows))
      && (priority.None? <==> history == [])
    }

    constructor (windows: nat)
      requires windows >= 1
      ensures Valid() && history == [] && this.windows == windows
    {
      this.windows := windows;
      priority, candidate, run, history := None, None, 0, [];
    }

    /** Hold the priority steady; what is returned is the definition's answer on the whole history. */
    method Stabilise(observed: Priority) returns (held: Priority)
      requires Valid()
      modifies this
      ensures Valid() && history == old(history) + [observed]
      ensures held == Held(history, Always(windows)) && priority == Some(held)
    {
      history := history + [observed];
      assert history[..|history| - 1] == old(history);
      CountersRefineHistory(history, Always(windows));
      if priority.None? {
        priority, candidate, run := Some(observed), None, 0;
        return observed;
      }
      if priority == Some(observed) {
        candidate, run := None, 0;
        return observed;
      }
      if candidate == Some(observed) {
        run := run + 1;
      } else {
        candidate, run := Some(observed), 1;
      }
      if run >= windows {
        priority, candidate, run := Some(observed), None, 0;
      }
      return priority.value;
    }

    method Reset()
      requires windows >= 1
      modifies this
      ensures Valid() && history == []
    {
      priority, candidate, run, history := None, None, 0, [];
    }
  }
}
