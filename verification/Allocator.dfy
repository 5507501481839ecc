/** How many counters should be open (ai/surgeguard_ai/resources/allocator.py). */
module Allocator {
  import opened Common
  import opened Reals

  datatype Config = Config(horizon: nat, target: real, minRate: real, closeMargin: real)

  predicate ValidConfig(c: Config) {
    c.horizon > 0 && c.target > 0.0 && c.minRate > 0.0 && 0.0 < c.closeMargin <= 1.0
  }

  /** The measurements a plan is made from, per minute. */
  datatype Demand = Demand(queue: nat, arrivals: real, abandonment: real, perCounter: real)

  predicate ValidDemand(d: Demand) {
    d.arrivals >= 0.0 && d.abandonment >= 0.0 && d.perCounter > 0.0
  }

  datatype CapacityOption = CapacityOption(counters: nat, rate: real, projectedQueue: real, wait: Option<real>,
                                           clears: bool, pressure: Option<real>)

  datatype Action = OpenCounter | CloseCounter | Observe

  datatype Plan = Plan(current: CapacityOption, recommended: CapacityOption, action: Action, change: int,
                       feasible: bool)

  // -- Projection -------------------------------------------------------------------------------------------

  function ServiceRate(d: Demand, counters: nat): real { counters as real * d.perCounter }

  /** The queue at the horizon if nothing at all is served. */
  function Unserved(c: Config, d: Demand): real {
    d.queue as real + (d.arrivals - d.abandonment) * c.horizon as real
  }

  function Projected(c: Config, d: Demand, rate: real): real {
    Max(0.0, d.queue as real + (d.arrivals - rate - d.abandonment) * c.horizon as real)
  }

  function Evaluate(c: Config, d: Demand, counters: nat): CapacityOption
    requires ValidConfig(c)
  {
    var rate := ServiceRate(d, counters);
    var projected := Projected(c, d, rate);
    if rate < c.minRate then CapacityOption(counters, rate, projected, None, false, None)
    else
      var wait := projected / rate;
      CapacityOption(counters, rate, projected, Some(wait), wait <= c.target, Some(d.arrivals / rate))
  }

  function Ladder(c: Config, d: Demand, total: nat): seq<CapacityOption>
    requires ValidConfig(c)
  {
    seq(total + 1, n requires 0 <= n => Evaluate(c, d, n))
  }

  // -- Choosing ---------------------------------------------------------------------------------------------

  function OptionFor(options: seq<CapacityOption>, counters: nat): Option<CapacityOption> {
    if options == [] then None
    else if options[0].counters == counters then Some(options[0])
    else OptionFor(options[1..], counters)
  }

  function Clears(): CapacityOption -> bool { (o: CapacityOption) => o.clears }

  function Sufficient(options: seq<CapacityOption>): seq<CapacityOption> {
    Filter(options, Clears())
  }

  /** The first of the options with the fewest counters. */
  function Fewest(options: seq<CapacityOption>): CapacityOption
    requires options != []
  {
    var n := |options| - 1;
    if n == 0 then options[0]
    else
      var best := Fewest(options[..n]);
      if options[n].counters < best.counters then options[n] else best
  }

  /** The first of the options with the highest throughput. */
  function Strongest(options: seq<CapacityOption>): CapacityOption
    requires options != []
  {
    var n := |options| - 1;
    if n == 0 then options[0]
    else
      var best := Strongest(options[..n]);
      if options[n].rate > best.rate then options[n] else best
  }

  /** The longest projected wait at which closing down is still proposed. */
  function CloseLimit(c: Config): real { c.target * c.closeMargin }

  function Choose(c: Config, options: seq<CapacityOption>, current: CapacityOption, active: nat): Plan
    requires options != []
  {
    var sufficient := Sufficient(options);
    if sufficient == [] then
      var best := Strongest(options);
      var change := best.counters - active;
      Plan(current, best, if change > 0 then OpenCounter else Observe, change, false)
    else
      var minimal := Fewest(sufficient);
      var change := minimal.counters - active;
      if change > 0 then Plan(current, minimal, OpenCounter, change, true)
      else if change < 0 && minimal.wait.Some? && minimal.wait.value <= CloseLimit(c) then
        Plan(current, minimal, CloseCounter, change, true)
      else Plan(current, current, Observe, 0, true)
  }

  function MakePlan(c: Config, d: Demand, active: nat, total: nat): Plan
    requires ValidConfig(c)
  {
    var options := Ladder(c, d, total);
    var listed := OptionFor(options, active);
    Choose(c, options, if listed.Some? then listed.value else Evaluate(c, d, active), active)
  }

  // -- What the projection means ----------------------------------------------------------------------------

  /** The hand calculation: `counters` serve at the least rate that counts, and what they serve within the horizon and
      the target wait covers everybody who would be waiting. */
  predicate Suffices(c: Config, d: Demand, counters: nat) {
    var rate := ServiceRate(d, counters);
    rate >= c.minRate && rate * (c.target + c.horizon as real) >= Unserved(c, d)
  }

  lemma QuotientAtMost(x: real, d: real, bound: real)
    requires d > 0.0
    ensures x / d <= bound <==> x <= bound * d
  {
    var q := x / d;
    assert q * d == x;
    if q <= bound {
      assert (bound - q) * d >= 0.0;
    } else {
      assert (q - bound) * d > 0.0;
    }
  }

  lemma {:induction false} ProjectedIs(c: Config, d: Demand, rate: real)
    ensures Projected(c, d, rate) == Max(0.0, Unserved(c, d) - rate * c.horizon as real)
  {
    Expand(d.arrivals, rate, d.abandonment, c.horizon as real);
  }

  lemma Expand(a: real, s: real, b: real, h: real)
    ensures (a - s - b) * h == (a - b) * h - s * h
  {
  }

  lemma TargetSum(rate: real, t: real, h: real)
    ensures rate * (t + h) == t * rate + rate * h
  {
  }

  /** An option clears the target exactly when the hand calculation says so. */
  lemma {:induction false} ClearsIffSuffices(c: Config, d: Demand, counters: nat)
    requires ValidConfig(c)
    ensures Evaluate(c, d, counters).clears <==> Suffices(c, d, counters)
  {
    var rate := ServiceRate(d, counters);
    if rate >= c.minRate {
      ProjectedIs(c, d, rate);
      QuotientAtMost(Projected(c, d, rate), rate, c.target);
      TargetSum(rate, c.target, c.horizon as real);
      ProductNonNegative(c.target, rate);
    }
  }

  lemma {:induction false} ServiceRateGrows(d: Demand, n: nat, m: nat)
    requires ValidDemand(d) && n <= m
    ensures ServiceRate(d, n) <= ServiceRate(d, m)
    ensures n < m ==> ServiceRate(d, n) < ServiceRate(d, m)
  {
    ScaleUp(n as real, m as real, d.perCounter);
  }

  lemma ScaleUp(x: real, y: real, k: real)
    requires k >= 0.0 && x <= y
    ensures x * k <= y * k
    ensures k > 0.0 && x < y ==> x * k < y * k
  {
    ProductNonNegative(y - x, k);
    assert y * k - x * k == (y - x) * k;
    if k > 0.0 && x < y {
      ProductPositive(y - x, k);
    }
  }

  lemma {:induction false} ProjectedFalls(c: Config, d: Demand, r: real, s: real)
    requires r <= s
    ensures 0.0 <= Projected(c, d, s) <= Projected(c, d, r)
  {
    ProjectedIs(c, d, r);
    ProjectedIs(c, d, s);
    ScaleUp(r, s, c.horizon as real);
  }

  /** The wait would be divided by a rate of zero. */
  predicate DividesByZero(c: Config, d: Demand, counters: nat) {
    ServiceRate(d, counters) >= c.minRate && ServiceRate(d, counters) == 0.0
  }

  /** A plan fails exactly without a positive minimum rate, which the configuration does not demand; it then fails at
      any demand, because no counter at all is always among the options. */
  lemma {:induction false} PlanFailsIffNoMinimum(c: Config, d: Demand, total: nat)
    requires ValidDemand(d)
    ensures (exists n: nat :: n <= total && DividesByZero(c, d, n)) <==> c.minRate <= 0.0
  {
    if c.minRate <= 0.0 {
      assert DividesByZero(c, d, 0);
    }
  }

  /** More counters never lengthen the projected queue nor the projected wait, and an option that serves somebody is
      followed only by options that do. */
  lemma {:induction false} WaitNonIncreasing(c: Config, d: Demand, n: nat, m: nat)
    requires ValidConfig(c) && ValidDemand(d) && n <= m
    ensures var a, b := Evaluate(c, d, n), Evaluate(c, d, m);
            && b.projectedQueue <= a.projectedQueue
            && (a.wait.Some? ==> b.wait.Some? && b.wait.value <= a.wait.value)
  {
    var r, s := ServiceRate(d, n), ServiceRate(d, m);
    ServiceRateGrows(d, n, m);
    ProjectedFalls(c, d, r, s);
    if r >= c.minRate {
      ShorterWait(Projected(c, d, r), r, Projected(c, d, s), s);
    }
  }

  /** Fewer people served faster wait no longer. */
  lemma ShorterWait(x: real, r: real, y: real, s: real)
    requires 0.0 < r <= s && 0.0 <= y <= x
    ensures y / s <= x / r
  {
    var w := x / r;
    QuotientOrder(0.0, x, r);
    ScaleUp(r, s, w);
    QuotientAtMost(y, s, w);
  }

  /** Sufficiency is upward closed. */
  lemma {:induction false} SufficientUpward(c: Config, d: Demand, n: nat, m: nat)
    requires ValidConfig(c) && ValidDemand(d) && n <= m && Suffices(c, d, n)
    ensures Suffices(c, d, m)
  {
    ServiceRateGrows(d, n, m);
    ScaleUp(ServiceRate(d, n), ServiceRate(d, m), c.target + c.horizon as real);
  }

  // -- What the search finds --------------------------------------------------------------------------------

  lemma {:induction false} LastOrBefore<T>(s: seq<T>, x: T)
    requires x in s
    ensures x == s[|s| - 1] || x in s[..|s| - 1]
  {
    var i :| 0 <= i < |s| && s[i] == x;
    assert i < |s| - 1 ==> s[..|s| - 1][i] == x;
  }

  lemma {:induction false} FewestIsLeast(options: seq<CapacityOption>)
    requires options != []
    ensures Fewest(options) in options && forall o :: o in options ==> Fewest(options).counters <= o.counters
  {
    var n := |options| - 1;
    if n > 0 {
      FewestIsLeast(options[..n]);
      assert Fewest(options[..n]) in options;
      forall o | o in options ensures o == options[n] || o in options[..n] {
        LastOrBefore(options, o);
      }
    }
  }

  lemma {:induction false} StrongestIsMost(options: seq<CapacityOption>)
    requires options != []
    ensures Strongest(options) in options && forall o :: o in options ==> Strongest(options).rate >= o.rate
  {
    var n := |options| - 1;
    if n > 0 {
      StrongestIsMost(options[..n]);
      assert Strongest(options[..n]) in options;
      forall o | o in options ensures o == options[n] || o in options[..n] {
        LastOrBefore(options, o);
      }
    }
  }

  ghost predicate Least(c: Config, d: Demand, n: nat) {
    Suffices(c, d, n) && forall k: nat :: k < n ==> !Suffices(c, d, k)
  }

  lemma {:induction false} LadderOption(c: Config, d: Demand, total: nat, o: CapacityOption)
    requires ValidConfig(c)
    ensures o in Ladder(c, d, total) <==> o.counters <= total && o == Evaluate(c, d, o.counters)
  {
    var options := Ladder(c, d, total);
    if o.counters <= total && o == Evaluate(c, d, o.counters) {
      assert options[o.counters] == o;
    }
  }

  lemma {:induction false} SufficientOption(c: Config, d: Demand, total: nat, o: CapacityOption)
    requires ValidConfig(c)
    ensures o in Sufficient(Ladder(c, d, total)) <==>
            o.counters <= total && o == Evaluate(c, d, o.counters) && Suffices(c, d, o.counters)
  {
    LadderOption(c, d, total, o);
    FilterMembers(Ladder(c, d, total), Clears());
    ClearsIffSuffices(c, d, o.counters);
  }

  /** Something on the ladder suffices exactly when every counter together does. */
  lemma {:induction false} FeasibleIffAllSuffice(c: Config, d: Demand, total: nat)
    requires ValidConfig(c) && ValidDemand(d)
    ensures Sufficient(Ladder(c, d, total)) != [] <==> Suffices(c, d, total)
  {
    var s := Sufficient(Ladder(c, d, total));
    SufficientOption(c, d, total, Evaluate(c, d, total));
    if s != [] {
      assert s[0] in s;
      SufficientOption(c, d, total, s[0]);
      SufficientUpward(c, d, s[0].counters, total);
    }
  }

  /** The search on the ladder finds the least sufficient number of counters. */
  lemma {:induction false} SearchFindsLeast(c: Config, d: Demand, total: nat)
    requires ValidConfig(c) && ValidDemand(d) && Suffices(c, d, total)
    ensures Sufficient(Ladder(c, d, total)) != []
    ensures var m := Fewest(Sufficient(Ladder(c, d, total)));
            m.counters <= total && m == Evaluate(c, d, m.counters) && Least(c, d, m.counters)
  {
    var s := Sufficient(Ladder(c, d, total));
    FeasibleIffAllSuffice(c, d, total);
    FewestIsLeast(s);
    var m := Fewest(s);
    SufficientOption(c, d, total, m);
    forall k: nat | k < m.counters ensures !Suffices(c, d, k) {
      SufficientOption(c, d, total, Evaluate(c, d, k));
    }
  }

  lemma {:induction false} StrongestIsAll(c: Config, d: Demand, total: nat)
    requires ValidConfig(c) && ValidDemand(d)
    ensures Strongest(Ladder(c, d, total)) == Evaluate(c, d, total)
  {
    var options := Ladder(c, d, total);
    StrongestIsMost(options);
    var best := Strongest(options);
    LadderOption(c, d, total, best);
    LadderOption(c, d, total, Evaluate(c, d, total));
    ServiceRateGrows(d, best.counters, total);
  }

  lemma {:induction false} OptionForFinds(options: seq<CapacityOption>, from: nat, counters: nat)
    requires forall i :: 0 <= i < |options| ==> options[i].counters == from + i
    ensures OptionFor(options, counters) ==
            if from <= counters < from + |options| then Some(options[counters - from]) else None
    decreases |options|
  {
    if options != [] {
      OptionForFinds(options[1..], from + 1, counters);
    }
  }

  /** The do-nothing baseline is the projection at the counters now open, also when more are open than exist. */
  lemma {:induction false} CurrentIsActive(c: Config, d: Demand, active: nat, total: nat)
    requires ValidConfig(c)
    ensures MakePlan(c, d, active, total) == Choose(c, Ladder(c, d, total), Evaluate(c, d, active), active)
    ensures MakePlan(c, d, active, total).current == Evaluate(c, d, active)
  {
    OptionForFinds(Ladder(c, d, total), 0, active);
  }

  /** A plan that opens up to the least sufficient number, closes down to it only with margin to spare, and otherwise
      leaves things alone because the counters now open suffice already. */
  ghost predicate Economical(c: Config, d: Demand, active: nat, p: Plan)
    requires ValidConfig(c)
  {
    var n := p.recommended.counters;
    && p.feasible && p.change == n - active && p.recommended == Evaluate(c, d, n) && Suffices(c, d, n)
    && match p.action
       case OpenCounter => p.change > 0 && Least(c, d, n) && !Suffices(c, d, active)
       case CloseCounter =>
         p.change < 0 && Least(c, d, n) && p.recommended.wait.Some? && p.recommended.wait.value <= CloseLimit(c)
       case Observe => p.change == 0 && p.recommended == p.current && Suffices(c, d, active)
  }

  /** A plan that asks for every counter and says that this is not enough. */
  ghost predicate AllHands(c: Config, d: Demand, active: nat, total: nat, p: Plan)
    requires ValidConfig(c)
  {
    && !p.feasible && p.change == total - active && p.recommended == Evaluate(c, d, total)
    && (forall k: nat :: k <= total ==> !Suffices(c, d, k))
    && p.action == if total > active then OpenCounter else Observe
  }

  lemma ChosenIsEconomical(c: Config, d: Demand, options: seq<CapacityOption>, active: nat, m: CapacityOption)
    requires ValidConfig(c) && options != [] && Sufficient(options) != [] && m == Fewest(Sufficient(options))
    requires m == Evaluate(c, d, m.counters) && Least(c, d, m.counters)
    requires active >= m.counters ==> Suffices(c, d, active)
    ensures Economical(c, d, active, Choose(c, options, Evaluate(c, d, active), active))
  {
  }

  /** The plan by its meaning. When all counters together suffice it is economical; when they do not - which is exactly
      when no number of them does - it asks for all. */
  lemma {:induction false} PlanIsLeastSufficient(c: Config, d: Demand, active: nat, total: nat)
    requires ValidConfig(c) && ValidDemand(d)
    ensures Suffices(c, d, total) ==> Economical(c, d, active, MakePlan(c, d, active, total))
    ensures !Suffices(c, d, total) ==> AllHands(c, d, active, total, MakePlan(c, d, active, total))
  {
    CurrentIsActive(c, d, active, total);
    FeasibleIffAllSuffice(c, d, total);
    if Suffices(c, d, total) {
      SearchFindsLeast(c, d, total);
      var m := Fewest(Sufficient(Ladder(c, d, total)));
      if active >= m.counters {
        SufficientUpward(c, d, m.counters, active);
      }
      ChosenIsEconomical(c, d, Ladder(c, d, total), active, m);
    } else {
      StrongestIsAll(c, d, total);
      NoneSuffices(c, d, total);
    }
  }

  lemma {:induction false} NoneSuffices(c: Config, d: Demand, total: nat)
    requires ValidConfig(c) && ValidDemand(d) && !Suffices(c, d, total)
    ensures forall k: nat :: k <= total ==> !Suffices(c, d, k)
  {
    forall k: nat | k <= total && Suffices(c, d, k) ensures false {
      SufficientUpward(c, d, k, total);
    }
  }

  lemma {:induction false} ClosesWithinLimit(c: Config, d: Demand, active: nat, total: nat, n: nat)
    requires ValidConfig(c) && ValidDemand(d) && n < active && n <= total && Least(c, d, n)
    ensures MakePlan(c, d, active, total).action == CloseCounter <==>
            Evaluate(c, d, n).wait.Some? && Evaluate(c, d, n).wait.value <= CloseLimit(c)
  {
    SufficientUpward(c, d, n, total);
    SearchFindsLeast(c, d, total);
    var m := Fewest(Sufficient(Ladder(c, d, total)));
    assert m.counters == n by {
      assert !(m.counters < n) && !(n < m.counters);
    }
  }

  /** When a counter is closable the plan says so: it observes while feasible only if no smaller number suffices, or the
      least one that does leaves too little margin. */
  lemma {:induction false} ClosesWheneverSafe(c: Config, d: Demand, active: nat, total: nat, n: nat, limit: real)
    requires ValidConfig(c) && ValidDemand(d) && n < active && n <= total && Least(c, d, n)
    requires limit == c.target * c.closeMargin
    ensures MakePlan(c, d, active, total).action == CloseCounter <==>
            Evaluate(c, d, n).wait.Some? && Evaluate(c, d, n).wait.value <= limit
  {
    ClosesWithinLimit(c, d, active, total, n);
    LimitIs(c, limit);
  }

  lemma LimitIs(c: Config, limit: real)
    requires limit == c.target * c.closeMargin
    ensures CloseLimit(c) == limit
  {
  }

  /** Following a recommendation ends the matter: the same measurements then recommend no change. */
  lemma {:induction false} FollowedPlanIsStable(c: Config, d: Demand, active: nat, total: nat)
    requires ValidConfig(c) && ValidDemand(d)
    ensures var p := MakePlan(c, d, active, total);
            var q := MakePlan(c, d, p.recommended.counters, total);
            q.action == Observe && q.change == 0 && q.recommended == q.current == p.recommended
  {
    var p := MakePlan(c, d, active, total);
    CurrentIsActive(c, d, active, total);
    CurrentIsActive(c, d, p.recommended.counters, total);
    FeasibleIffAllSuffice(c, d, total);
    if Suffices(c, d, total) {
      SearchFindsLeast(c, d, total);
    } else {
      StrongestIsAll(c, d, total);
    }
  }

  /** What an option says of `counters` counters: the queue left at the horizon, which is what came less what left and
      was served, or nobody; the minutes they would take to serve it; and the load they would be under. */
  ghost predicate IsOption(c: Config, d: Demand, counters: nat, o: CapacityOption) {
    var rate := counters as real * d.perCounter;
    var left := d.queue as real + (d.arrivals - d.abandonment) * c.horizon as real - rate * c.horizon as real;
    && o.counters == counters && o.rate == rate
    && o.projectedQueue == (if left >= 0.0 then left else 0.0)
    && (o.wait.Some? <==> rate >= c.minRate) && (o.pressure.Some? <==> rate >= c.minRate)
    && (o.wait.Some? ==> o.wait.value * rate == o.projectedQueue)
    && (o.pressure.Some? ==> o.pressure.value * rate == d.arrivals)
    && (o.clears <==> o.wait.Some? && o.wait.value <= c.target)
  }

  lemma LeftAtHorizon(queue: real, arrivals: real, rate: real, abandonment: real, h: real)
    ensures queue + (arrivals - rate - abandonment) * h == queue + (arrivals - abandonment) * h - rate * h
  {
  }

  lemma QuotientIs(x: real, rate: real)
    requires rate > 0.0
    ensures x / rate * rate == x
  {
  }

  lemma {:induction false} EvaluateIsOption(c: Config, d: Demand, counters: nat)
    requires ValidConfig(c)
    ensures IsOption(c, d, counters, Evaluate(c, d, counters))
  {
    var rate := ServiceRate(d, counters);
    LeftAtHorizon(d.queue as real, d.arrivals, rate, d.abandonment, c.horizon as real);
    if rate >= c.minRate {
      QuotientIs(Projected(c, d, rate), rate);
      QuotientIs(d.arrivals, rate);
    }
  }

  /** The options of a plan are those of every number of counters there is, in order, and its two are among the options
      or, when more are open than there are, one like them. */
  lemma {:induction false} PlanOptions(c: Config, d: Demand, active: nat, total: nat)
    requires ValidConfig(c) && ValidDemand(d)
    ensures |Ladder(c, d, total)| == total + 1
    ensures forall n: nat :: n <= total ==> IsOption(c, d, n, Ladder(c, d, total)[n])
    ensures var p := MakePlan(c, d, active, total);
            && IsOption(c, d, active, p.current) && IsOption(c, d, p.recommended.counters, p.recommended)
            && p.change == p.recommended.counters - active
  {
    forall n: nat | n <= total ensures IsOption(c, d, n, Ladder(c, d, total)[n]) {
      EvaluateIsOption(c, d, n);
    }
    EvaluateIsOption(c, d, active);
    CurrentIsActive(c, d, active, total);
    PlanIsLeastSufficient(c, d, active, total);
    EvaluateIsOption(c, d, MakePlan(c, d, active, total).recommended.counters);
  }
}
