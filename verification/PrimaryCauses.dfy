/** What drives the index, and by how much (ai/surgeguard_ai/intelligence/decision_engine.py,
    contracts/stability.py). */
module PrimaryCauses {
  import opened Common
  import opened StabilityIndex

  datatype Cause = Cause(indicator: Indicator, percentage: real, pressure: real)

  /** Place a reading after everything that contributes at least as much. */
  function Insert(sorted: seq<IndicatorReading>, r: IndicatorReading): seq<IndicatorReading> {
    if sorted == [] then [r]
    else
      var n := |sorted| - 1;
      if Contribution(sorted[n]) >= Contribution(r) then sorted + [r]
      else Insert(sorted[..n], r) + [sorted[n]]
  }

  function Sorted(rs: seq<IndicatorReading>): seq<IndicatorReading> {
    if rs == [] then [] else Insert(Sorted(rs[..|rs| - 1]), rs[|rs| - 1])
  }

  function Available(): IndicatorReading -> bool { (r: IndicatorReading) => r.available }

  /** Available readings, the largest contribution first; equal ones keep their order. */
  function Ranked(rs: seq<IndicatorReading>): seq<IndicatorReading> {
    Sorted(Filter(rs, Available()))
  }

  /** A part of a total, in percent. */
  function Share(x: real, total: real): real
    requires total > 0.0
  {
    x / total * 100.0
  }

  predicate IsCause(r: IndicatorReading) { Contribution(r) > 0.0 && r.pressure.Some? }

  function CausesFor(rs: seq<IndicatorReading>, total: real): seq<Cause>
    requires total > 0.0
  {
    if rs == [] then []
    else
      var r := rs[|rs| - 1];
      CausesFor(rs[..|rs| - 1], total) +
      (if IsCause(r) then [Cause(r.indicator, Share(Contribution(r), total), r.pressure.value)] else [])
  }

  function Causes(rs: seq<IndicatorReading>): seq<Cause> {
    var total := TotalPressure(rs);
    if total <= 0.0 then [] else CausesFor(Ranked(rs), total)
  }

  function PercentageSum(cs: seq<Cause>): real {
    if cs == [] then 0.0 else PercentageSum(cs[..|cs| - 1]) + cs[|cs| - 1].percentage
  }

  predicate NoLess(a: IndicatorReading, b: IndicatorReading) { Contribution(a) >= Contribution(b) }

  ghost predicate Descending(rs: seq<IndicatorReading>) {
    forall i, j :: 0 <= i < j < |rs| ==> NoLess(rs[i], rs[j])
  }

  lemma {:induction false} InsertMembers(s: seq<IndicatorReading>, r: IndicatorReading)
    ensures forall x :: x in Insert(s, r) <==> x in s || x == r
  {
    if s != [] {
      var n := |s| - 1;
      assert s == s[..n] + [s[n]];
      InsertMembers(s[..n], r);
    }
  }

  lemma {:induction false} InsertTotals(s: seq<IndicatorReading>, r: IndicatorReading, p: IndicatorReading -> bool)
    ensures TotalPressure(Insert(s, r)) == TotalPressure(s) + Contribution(r)
    ensures Count(Insert(s, r), p) == Count(s, p) + (if p(r) then 1 else 0)
  {
    WeightAppend(s, r);
    CountAppend(s, r, p);
    if s == [] {
      assert s + [r] == [r];
    } else {
      var n := |s| - 1;
      InsertTotals(s[..n], r, p);
      WeightAppend(Insert(s[..n], r), s[n]);
      CountAppend(Insert(s[..n], r), s[n], p);
    }
  }

  lemma {:induction false} AppendDescending(s: seq<IndicatorReading>, r: IndicatorReading)
    requires Descending(s) && forall x :: x in s ==> NoLess(x, r)
    ensures Descending(s + [r])
  {
    forall i, j | 0 <= i < j < |s + [r]| ensures NoLess((s + [r])[i], (s + [r])[j]) {
      assert (s + [r])[i] == s[i] && s[i] in s;
    }
  }

  lemma {:induction false} LastIsLeast(s: seq<IndicatorReading>, r: IndicatorReading)
    requires Descending(s) && s != [] && NoLess(s[|s| - 1], r)
    ensures forall x :: x in s ==> NoLess(x, r)
  {
    forall x | x in s ensures NoLess(x, r) {
      var i :| 0 <= i < |s| && s[i] == x;
      assert i < |s| - 1 ==> NoLess(s[i], s[|s| - 1]);
    }
  }

  lemma {:induction false} InsertDescending(s: seq<IndicatorReading>, r: IndicatorReading)
    requires Descending(s)
    ensures Descending(Insert(s, r))
  {
    if s != [] {
      var n := |s| - 1;
      if NoLess(s[n], r) {
        LastIsLeast(s, r);
        AppendDescending(s, r);
      } else {
        InsertDescending(s[..n], r);
        InsertMembers(s[..n], r);
        assert s[..n + 1] == s;
        forall x | x in Insert(s[..n], r) ensures NoLess(x, s[n]) {
          if x != r {
            var i :| 0 <= i < n && s[..n][i] == x;
            assert NoLess(s[i], s[n]);
          }
        }
        AppendDescending(Insert(s[..n], r), s[n]);
      }
    }
  }

  lemma {:induction false} SortedKeeps(rs: seq<IndicatorReading>, p: IndicatorReading -> bool)
    ensures Descending(Sorted(rs))
    ensures TotalPressure(Sorted(rs)) == TotalPressure(rs)
    ensures Count(Sorted(rs), p) == Count(rs, p)
  {
    if rs != [] {
      var n := |rs| - 1;
      SortedKeeps(rs[..n], p);
      InsertDescending(Sorted(rs[..n]), rs[n]);
      InsertTotals(Sorted(rs[..n]), rs[n], p);
    }
  }

  /** Indicators that could not be measured contribute nothing. */
  lemma {:induction false} AvailableTotalPressure(rs: seq<IndicatorReading>)
    ensures TotalPressure(Filter(rs, Available())) == TotalPressure(rs)
  {
    if rs != [] {
      var n := |rs| - 1;
      AvailableTotalPressure(rs[..n]);
      WeightAppend(Filter(rs[..n], Available()), rs[n]);
      if !rs[n].available {
        assert Filter(rs, Available()) == Filter(rs[..n], Available());
      }
    }
  }

  /** Every contribution is non-negative, and an available reading has a pressure. */
  ghost predicate Sound(rs: seq<IndicatorReading>) {
    forall r :: r in rs ==> Contribution(r) >= 0.0
  }

  lemma {:induction false} PercentageAppend(cs: seq<Cause>, c: Cause)
    ensures PercentageSum(cs + [c]) == PercentageSum(cs) + c.percentage
  {
    assert (cs + [c])[..|cs|] == cs;
  }

  lemma SumOfShares(x: real, y: real, d: real)
    requires d > 0.0
    ensures Share(x + y, d) == Share(x, d) + Share(y, d)
    ensures Share(d, d) == 100.0
  {
  }

  lemma {:induction false} PercentagesAddUp(rs: seq<IndicatorReading>, total: real)
    requires total > 0.0 && Sound(rs)
    ensures PercentageSum(CausesFor(rs, total)) == Share(TotalPressure(rs), total)
  {
    if rs != [] {
      var n := |rs| - 1;
      assert rs == rs[..n] + [rs[n]] && rs[n] in rs;
      PercentagesAddUp(rs[..n], total);
      SumOfShares(TotalPressure(rs[..n]), Contribution(rs[n]), total);
      if IsCause(rs[n]) {
        PercentageAppend(CausesFor(rs[..n], total),
                         Cause(rs[n].indicator, Share(Contribution(rs[n]), total), rs[n].pressure.value));
      } else {
        assert CausesFor(rs, total) == CausesFor(rs[..n], total);
      }
    }
  }

  predicate NoSmaller(a: Cause, b: Cause) { a.percentage >= b.percentage }

  ghost predicate Falling(cs: seq<Cause>) {
    forall i, j :: 0 <= i < j < |cs| ==> NoSmaller(cs[i], cs[j])
  }

  lemma ShareOrder(x: real, y: real, d: real)
    requires d > 0.0 && x <= y
    ensures Share(x, d) <= Share(y, d)
    ensures x > 0.0 ==> Share(x, d) > 0.0
  {
  }

  ghost predicate AllAtLeast(cs: seq<Cause>, least: real) {
    forall i :: 0 <= i < |cs| ==> cs[i].percentage >= least
  }

  lemma {:induction false} RestContributesMore(rs: seq<IndicatorReading>, rest: seq<IndicatorReading>)
    requires Descending(rs) && rs != [] && rest == rs[..|rs| - 1]
    ensures forall x :: x in rest ==> NoLess(x, rs[|rs| - 1])
  {
    var n := |rs| - 1;
    forall x | x in rest ensures NoLess(x, rs[n]) {
      var i :| 0 <= i < n && rs[i] == x;
      assert NoLess(rs[i], rs[n]);
    }
  }

  lemma {:induction false} CausesFall(rs: seq<IndicatorReading>, total: real, least: real)
    requires total > 0.0 && Descending(rs) && (forall r :: r in rs ==> Contribution(r) >= least)
    ensures Falling(CausesFor(rs, total)) && AllAtLeast(CausesFor(rs, total), Share(least, total))
  {
    if rs != [] {
      var n := |rs| - 1;
      var r := rs[n];
      assert r in rs;
      RestContributesMore(rs, rs[..n]);
      CausesFall(rs[..n], total, Contribution(r));
      ShareOrder(least, Contribution(r), total);
      AppendFalling(CausesFor(rs[..n], total), Share(Contribution(r), total), CausesFor(rs, total));
    }
  }

  lemma {:induction false} AppendFalling(cs: seq<Cause>, least: real, cs': seq<Cause>)
    requires Falling(cs) && AllAtLeast(cs, least)
    requires cs' == cs || (|cs'| == |cs| + 1 && cs'[..|cs|] == cs && cs'[|cs|].percentage == least)
    ensures Falling(cs') && AllAtLeast(cs', least)
  {
    if |cs'| > |cs| {
      forall i | 0 <= i < |cs| ensures cs'[i] == cs[i] {
        assert cs'[..|cs|][i] == cs[i];
      }
      forall i, j | 0 <= i < j < |cs'| ensures NoSmaller(cs'[i], cs'[j]) {
        assert j < |cs| ==> NoSmaller(cs[i], cs[j]);
      }
    }
  }

  lemma {:induction false} CausesPositive(rs: seq<IndicatorReading>, total: real)
    requires total > 0.0
    ensures forall c :: c in CausesFor(rs, total) ==> c.percentage > 0.0
  {
    if rs != [] {
      CausesPositive(rs[..|rs| - 1], total);
      ShareOrder(Contribution(rs[|rs| - 1]), Contribution(rs[|rs| - 1]), total);
    }
  }

  /** How many causes there are, and of what: one for each contributing reading. */
  function Contributes(i: Indicator): IndicatorReading -> bool {
    (r: IndicatorReading) => IsCause(r) && r.indicator == i
  }

  function Names(i: Indicator): Cause -> bool { (c: Cause) => c.indicator == i }

  lemma {:induction false} OneCauseEach(rs: seq<IndicatorReading>, total: real, i: Indicator)
    requires total > 0.0
    ensures Count(CausesFor(rs, total), Names(i)) == Count(rs, Contributes(i))
  {
    if rs != [] {
      var n := |rs| - 1;
      OneCauseEach(rs[..n], total, i);
      if IsCause(rs[n]) {
        CountAppend(CausesFor(rs[..n], total),
                    Cause(rs[n].indicator, Share(Contribution(rs[n]), total), rs[n].pressure.value),
                    Names(i));
      } else {
        assert CausesFor(rs, total) == CausesFor(rs[..n], total);
      }
    }
  }

  lemma {:induction false} AvailableCount(rs: seq<IndicatorReading>, i: Indicator)
    ensures Count(Filter(rs, Available()), Contributes(i)) == Count(rs, Contributes(i))
  {
    if rs != [] {
      var n := |rs| - 1;
      AvailableCount(rs[..n], i);
      CountAppend(Filter(rs[..n], Available()), rs[n], Contributes(i));
      if !rs[n].available {
        assert Filter(rs, Available()) == Filter(rs[..n], Available());
      }
    }
  }

  lemma {:induction false} RankedSound(rs: seq<IndicatorReading>)
    requires Sound(rs)
    ensures Sound(Ranked(rs))
  {
    FilterMembers(rs, Available());
    SortedMembers(Filter(rs, Available()));
  }

  lemma {:induction false} SortedMembers(rs: seq<IndicatorReading>)
    ensures forall r :: r in Sorted(rs) <==> r in rs
  {
    if rs != [] {
      var n := |rs| - 1;
      assert rs == rs[..n] + [rs[n]];
      SortedMembers(rs[..n]);
      InsertMembers(Sorted(rs[..n]), rs[n]);
    }
  }

  /** The causes shown are the arithmetic of the index: largest first, each positive, one for each reading that
      contributes, and together they make up all of the pressure. */
  lemma {:induction false} CausesExplainIndex(rs: seq<IndicatorReading>)
    requires Sound(rs)
    ensures Falling(Causes(rs)) && forall c :: c in Causes(rs) ==> c.percentage > 0.0
    ensures TotalPressure(rs) > 0.0 ==> PercentageSum(Causes(rs)) == 100.0
    ensures TotalPressure(rs) > 0.0 ==>
              forall i :: Count(Causes(rs), Names(i)) == Count(rs, Contributes(i))
    ensures TotalPressure(rs) <= 0.0 ==> Causes(rs) == []
  {
    var total := TotalPressure(rs);
    if total > 0.0 {
      RankedSound(rs);
      SortedKeeps(Filter(rs, Available()), Available());
      AvailableTotalPressure(rs);
      PercentagesAddUp(Ranked(rs), total);
      SumOfShares(0.0, total, total);
      CausesFall(Ranked(rs), total, 0.0);
      CausesPositive(Ranked(rs), total);
      forall i ensures Count(Causes(rs), Names(i)) == Count(rs, Contributes(i)) {
        OneCauseEach(Ranked(rs), total, i);
        SortedKeeps(Filter(rs, Available()), Contributes(i));
        AvailableCount(rs, i);
      }
    }
  }

  /** Each cause is that of a contributing reading, with its pressure and with its part of the pressure in percent. */
  ghost predicate IsCauseOf(cause: Cause, r: IndicatorReading, total: real) {
    && IsCause(r) && cause.indicator == r.indicator && cause.pressure == r.pressure.value
    && cause.percentage * total == 100.0 * Contribution(r)
  }

  lemma PercentTimes(x: real, total: real)
    requires total > 0.0
    ensures Share(x, total) * total == 100.0 * x
  {
    assert x / total * total == x;
  }

  lemma {:induction false} CausesStem(rs: seq<IndicatorReading>, total: real)
    requires total > 0.0
    ensures forall cause :: cause in CausesFor(rs, total) ==> exists r :: r in rs && IsCauseOf(cause, r, total)
  {
    if rs != [] {
      var n := |rs| - 1;
      assert rs == rs[..n] + [rs[n]];
      CausesStem(rs[..n], total);
      PercentTimes(Contribution(rs[n]), total);
      forall cause | cause in CausesFor(rs, total) ensures exists r :: r in rs && IsCauseOf(cause, r, total) {
        if cause in CausesFor(rs[..n], total) {
          var r :| r in rs[..n] && IsCauseOf(cause, r, total);
          assert r in rs;
        } else {
          assert IsCauseOf(cause, rs[n], total);
        }
      }
    }
  }

  lemma {:induction false} InsertHolds(sorted: seq<IndicatorReading>, r: IndicatorReading)
    ensures forall x :: x in Insert(sorted, r) ==> x in sorted || x == r
  {
    if sorted != [] {
      InsertHolds(sorted[..|sorted| - 1], r);
    }
  }

  lemma {:induction false} SortedHolds(rs: seq<IndicatorReading>)
    ensures forall x :: x in Sorted(rs) ==> x in rs
  {
    if rs != [] {
      var n := |rs| - 1;
      SortedHolds(rs[..n]);
      InsertHolds(Sorted(rs[..n]), rs[n]);
    }
  }

  /** What each cause says is the arithmetic of one of the readings. */
  lemma {:induction false} CausesAreReadings(rs: seq<IndicatorReading>)
    ensures forall cause :: cause in Causes(rs) ==>
              exists r :: r in rs && r.available && IsCauseOf(cause, r, TotalPressure(rs))
  {
    var total := TotalPressure(rs);
    if total > 0.0 {
      CausesStem(Ranked(rs), total);
      SortedHolds(Filter(rs, Available()));
      FilterMembers(rs, Available());
      forall cause | cause in Causes(rs) ensures exists r :: r in rs && r.available && IsCauseOf(cause, r, total) {
        var r :| r in Ranked(rs) && IsCauseOf(cause, r, total);
        assert r in rs && r.available;
      }
    }
  }

  /** The readings of a window are sound, so the above holds of every index. */
  lemma {:induction false} WeighedSound(items: seq<Item>, total: real)
    requires WeightsNonNegative(items) && PressuresBetween(items, 0.0, 100.0)
    ensures Sound(ReadingsFor(items, total))
  {
    if items != [] {
      var n := |items| - 1;
      WeighedSound(items[..n], total);
      if items[n].measurement.Reading? && total > 0.0 {
        ScaleRises(items[n].weight, total, 0.0, items[n].measurement.pressure);
      }
    }
  }
}
