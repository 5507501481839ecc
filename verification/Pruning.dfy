/** Discarding old pending movements never changes what is recorded for a track. */
module Pruning {
  import opened Common
  import opened Choose
  import opened Movements

  /** Everything but the discarding itself. */
  predicate IsVisible(ev: Event) { !ev.ExpiredExit? && !ev.ExpiredEntry? }
  function Seen(): Event -> bool { (ev: Event) => IsVisible(ev) }
  function Visible(log: seq<Event>): seq<Event> { Filter(log, Seen()) }

  /** Two books that differ only in pending movements too old to matter: departures before `hx`, entries before `he`. */
  ghost predicate Agree(b1: Book, b2: Book, hx: Time, he: Time) {
    && b1.presences == b2.presences
    && Filter(b1.exits, LiveExit(hx)) == Filter(b2.exits, LiveExit(hx))
    && Filter(b1.entries, LiveEntry(he)) == Filter(b2.entries, LiveEntry(he))
  }

  lemma {:induction false} AgreeLater(b1: Book, b2: Book, hx: Time, he: Time, hx': Time, he': Time)
    requires Agree(b1, b2, hx, he) && hx <= hx' && he <= he'
    ensures Agree(b1, b2, hx', he')
  {
    FilterTwice(b1.exits, LiveExit(hx'), LiveExit(hx));
    FilterTwice(b2.exits, LiveExit(hx'), LiveExit(hx));
    FilterTwice(b1.entries, LiveEntry(he'), LiveEntry(he));
    FilterTwice(b2.entries, LiveEntry(he'), LiveEntry(he));
  }

  /** A departure older than the largest gap is never chosen, so both books choose alike. */
  lemma {:induction false} PairEntryAgrees(c: Config, b1: Book, b2: Book, e: Entry, hx: Time, he: Time)
    requires Agree(b1, b2, hx, he) && hx <= e.enteredAt - c.maxGap
    ensures var o1, o2 := PairEntry(c, b1, e), PairEntry(c, b2, e);
            o1.events == o2.events && Agree(o1.book, o2.book, hx, he)
  {
    BestThroughFilter(b1.exits, Precedes(c, e), Latest(), LiveExit(hx));
    BestThroughFilter(b2.exits, Precedes(c, e), Latest(), LiveExit(hx));
    FilterAppend(b1.entries, e, LiveEntry(he));
    FilterAppend(b2.entries, e, LiveEntry(he));
  }

  /** An entry older than the overlap allows is never chosen, so both books choose alike. */
  lemma {:induction false} PairExitAgrees(c: Config, b1: Book, b2: Book, x: Exit, hx: Time, he: Time)
    requires Agree(b1, b2, hx, he) && he <= x.leftAt - c.overlap
    ensures var o1, o2 := PairExit(c, b1, x), PairExit(c, b2, x);
            o1.events == o2.events && Agree(o1.book, o2.book, hx, he)
  {
    BestThroughFilter(b1.entries, Follows(c, x), Earliest(), LiveEntry(he));
    BestThroughFilter(b2.entries, Follows(c, x), Earliest(), LiveEntry(he));
    FilterAppend(b1.exits, x, LiveExit(hx));
    FilterAppend(b2.exits, x, LiveExit(hx));
  }

  lemma {:induction false} VisitAgrees(c: Config, b1: Book, b2: Book, zone: ZoneId, now: Time, baseline: bool, hx: Time,
                                       he: Time)
    requires Agree(b1, b2, hx, he) && hx <= now - c.maxGap
    ensures var o1, o2 := Visit(c, b1, zone, now, baseline), Visit(c, b2, zone, now, baseline);
            o1.events == o2.events && Agree(o1.book, o2.book, hx, he)
  {
    if IndexOf(b1.presences, zone).None? && !baseline {
      var ps := b1.presences + [Presence(zone, now, now)];
      PairEntryAgrees(c, b1.(presences := ps), b2.(presences := ps), Entry(zone, now), hx, he);
    }
  }

  lemma {:induction false} VisitAllAgrees(c: Config, b1: Book, b2: Book, zones: seq<ZoneId>, now: Time, baseline: bool,
                                          hx: Time, he: Time)
    requires Agree(b1, b2, hx, he) && hx <= now - c.maxGap
    ensures var o1, o2 := VisitAll(c, b1, zones, now, baseline), VisitAll(c, b2, zones, now, baseline);
            o1.events == o2.events && Agree(o1.book, o2.book, hx, he)
  {
    if zones != [] {
      var n := |zones| - 1;
      VisitAllAgrees(c, b1, b2, zones[..n], now, baseline, hx, he);
      VisitAgrees(c, VisitAll(c, b1, zones[..n], now, baseline).book, VisitAll(c, b2, zones[..n], now, baseline).book,
                  zones[n], now, baseline, hx, he);
    }
  }

  lemma {:induction false} DepartAllAgrees(c: Config, b1: Book, b2: Book, gone: seq<Presence>, hx: Time, he: Time)
    requires Agree(b1, b2, hx, he)
    requires forall p :: p in gone ==> he <= p.lastSeenAt - c.overlap
    ensures var o1, o2 := DepartAll(c, b1, gone), DepartAll(c, b2, gone);
            o1.events == o2.events && Agree(o1.book, o2.book, hx, he)
  {
    if gone != [] {
      var n := |gone| - 1;
      DepartAllAgrees(c, b1, b2, gone[..n], hx, he);
      PairExitAgrees(c, DepartAll(c, b1, gone[..n]).book, DepartAll(c, b2, gone[..n]).book, ExitOf(gone[n]), hx, he);
    }
  }

  /** No presence has been out of sight for long. */
  ghost predicate Recent(c: Config, b: Book, at: Time) {
    forall p :: p in b.presences ==> at - c.grace <= p.lastSeenAt <= at
  }

  lemma {:induction false} DepartAllKeepsPresences(c: Config, b: Book, gone: seq<Presence>)
    ensures DepartAll(c, b, gone).book.presences == b.presences
  {
    if gone != [] {
      DepartAllKeepsPresences(c, b, gone[..|gone| - 1]);
    }
  }

  lemma {:induction false} VisitAllRecent(c: Config, b: Book, zones: seq<ZoneId>, now: Time, baseline: bool, from: Time)
    requires forall p :: p in b.presences ==> from <= p.lastSeenAt <= now
    requires from <= now
    ensures forall p :: p in VisitAll(c, b, zones, now, baseline).book.presences ==>
              from <= p.lastSeenAt <= now
  {
    if zones != [] {
      VisitAllRecent(c, b, zones[..|zones| - 1], now, baseline, from);
    }
  }

  lemma {:induction false} VisitMarks(c: Config, b: Book, zones: seq<ZoneId>, now: Time, baseline: bool)
    requires Zoned(b)
    ensures var o := VisitAll(c, b, zones, now, baseline);
            && Zoned(o.book)
            && (forall p :: p in o.book.presences && p.zone in zones ==> p.lastSeenAt == now)
            && (forall z :: z in zones ==> exists p :: p in o.book.presences && p.zone == z)
  {
    if zones != [] {
      var n := |zones| - 1;
      VisitMarks(c, b, zones[..n], now, baseline);
      var b1, z := VisitAll(c, b, zones[..n], now, baseline).book, zones[n];
      var b2 := Visit(c, b1, z, now, baseline).book;
      var i := IndexOf(b1.presences, z);
      if i.Some? {
        assert b2.presences == b1.presences[i.value := b1.presences[i.value].(lastSeenAt := now)];
        assert b2.presences[i.value].zone == z;
        forall y | y in zones ensures exists p :: p in b2.presences && p.zone == y {
          if y != z {
            assert y in zones[..n];
            var p :| p in b1.presences && p.zone == y;
            var k :| 0 <= k < |b1.presences| && b1.presences[k] == p;
            assert b2.presences[k] == p;
          }
        }
      } else {
        assert b2.presences == b1.presences + [Presence(z, now, now)];
        forall y | y in zones ensures exists p :: p in b2.presences && p.zone == y {
          if y == z {
            assert Presence(z, now, now) in b2.presences;
          } else {
            assert y in zones[..n];
            var p :| p in b1.presences && p.zone == y;
            assert p in b2.presences;
          }
        }
      }
    }
  }

  /** At most one presence a zone, as in a dictionary keyed by zone. */
  ghost predicate Zoned(b: Book) {
    OnePerZone(b.presences)
  }

  ghost predicate OnePerZone(ps: seq<Presence>) {
    forall i, j :: 0 <= i < j < |ps| ==> ps[i].zone != ps[j].zone
  }

  lemma {:induction false} ZonedFilter(ps: seq<Presence>, keep: Presence -> bool)
    requires OnePerZone(ps)
    ensures OnePerZone(Filter(ps, keep))
  {
    if ps != [] {
      var n := |ps| - 1;
      ZonedFilter(ps[..n], keep);
      FilterMembers(ps[..n], keep);
      var r0 := Filter(ps[..n], keep);
      forall i | 0 <= i < |r0| ensures r0[i].zone != ps[n].zone {
        assert r0[i] in ps[..n];
      }
    }
  }

  /** After a frame every presence left has been seen within the grace period. */
  lemma {:induction false} StepRecent(c: Config, policy: Policy, b: Book, seen: Option<seq<ZoneId>>, now: Time,
                                      baseline: bool, prev: Time)
    requires ValidConfig(c) && Zoned(b) && Recent(c, b, prev) && prev <= now
    ensures var o := TrackStep(c, policy, b, seen, now, baseline);
            Zoned(o.book) && Recent(c, o.book, now)
  {
    var inside := ZonesSeen(seen);
    VisitMarks(c, b, inside, now, baseline);
    VisitAllRecent(c, b, inside, now, baseline, prev - c.grace);
    var b1 := VisitAll(c, b, inside, now, baseline).book;
    ZonedFilter(b1.presences, Stays(c, inside, now));
    FilterMembers(b1.presences, Stays(c, inside, now));
    DepartAllKeepsPresences(c, b1.(presences := Filter(b1.presences, Stays(c, inside, now))),
                            Filter(b1.presences, Goes(c, inside, now)));
    assert TrackStep(c, policy, b, seen, now, baseline).book.presences == Filter(b1.presences, Stays(c, inside, now));
  }

  /** The horizons inside which two books must agree to act alike from `at` on. Note that they need no frame slack. */
  ghost predicate ActAlike(c: Config, b1: Book, b2: Book, at: Time) {
    Agree(b1, b2, at - c.maxGap, at - c.grace - c.overlap)
  }

  lemma {:induction false} ExpireIsHarmless(c: Config, b: Book, now: Time)
    ensures Agree(ExpireBook(c, b, now), b, now - c.maxGap, now - c.grace - c.overlap)
  {
    FilterTwice(b.exits, LiveExit(now - c.maxGap), LiveExit(ExitHorizon(c, now)));
    FilterTwice(b.entries, LiveEntry(now - c.grace - c.overlap), LiveEntry(EntryHorizon(c, now)));
  }

  lemma {:induction false} ExpireAgrees(c: Config, b1: Book, b2: Book, now: Time, he: Time)
    requires Agree(b1, b2, now - c.maxGap, he) && he <= now - c.grace - c.overlap
    ensures ActAlike(c, ExpireBook(c, b1, now), b2, now)
  {
    AgreeLater(b1, b2, now - c.maxGap, he, now - c.maxGap, now - c.grace - c.overlap);
    ExpireIsHarmless(c, b1, now);
  }

  lemma {:induction false} VisibleExpire(c: Config, b: Book, now: Time)
    ensures Visible(Expire(c, b, now).events) == []
  {
    FilterNone(Expire(c, b, now).events, Seen());
  }

  lemma VisitVisible(c: Config, b: Book, zone: ZoneId, now: Time, baseline: bool)
    ensures forall ev :: ev in Visit(c, b, zone, now, baseline).events ==> IsVisible(ev)
  {
  }

  lemma {:induction false} VisibleVisit(c: Config, b: Book, zones: seq<ZoneId>, now: Time, baseline: bool)
    ensures Visible(VisitAll(c, b, zones, now, baseline).events) == VisitAll(c, b, zones, now, baseline).events
  {
    if zones != [] {
      var n := |zones| - 1;
      VisibleVisit(c, b, zones[..n], now, baseline);
      var o := VisitAll(c, b, zones[..n], now, baseline);
      var o' := Visit(c, o.book, zones[n], now, baseline);
      VisitVisible(c, o.book, zones[n], now, baseline);
      FilterConcat(o.events, o'.events, Seen());
      FilterAll(o'.events, Seen());
    }
  }

  lemma PairExitVisible(c: Config, b: Book, x: Exit)
    ensures forall ev :: ev in PairExit(c, b, x).events ==> IsVisible(ev)
  {
  }

  lemma {:induction false} VisibleDepart(c: Config, b: Book, gone: seq<Presence>)
    ensures Visible(DepartAll(c, b, gone).events) == DepartAll(c, b, gone).events
  {
    if gone != [] {
      var n := |gone| - 1;
      VisibleDepart(c, b, gone[..n]);
      var o := DepartAll(c, b, gone[..n]);
      var o' := PairExit(c, o.book, ExitOf(gone[n]));
      PairExitVisible(c, o.book, ExitOf(gone[n]));
      FilterConcat(o.events, o'.events, Seen());
      FilterAll(o'.events, Seen());
    }
  }

  /** The same events, and books that agree inside the horizons. */
  ghost predicate AlikeSoFar(o1: Outcome, o2: Outcome, hx: Time, he: Time) {
    o1.events == o2.events && Agree(o1.book, o2.book, hx, he)
  }

  /** Those who leave were all seen lately enough for the two books to pair their departures alike. */
  lemma {:induction false} LeaveAgrees(c: Config, b1: Book, b2: Book, inside: seq<ZoneId>, now: Time, hx: Time,
                                       he: Time)
    requires Agree(b1, b2, hx, he) && forall p :: p in b1.presences ==> he <= p.lastSeenAt - c.overlap
    ensures var o1, o2 := Leave(c, b1, inside, now), Leave(c, b2, inside, now);
            AlikeSoFar(o1, o2, hx, he)
  {
    var stay, gone := Filter(b1.presences, Stays(c, inside, now)), Filter(b1.presences, Goes(c, inside, now));
    FilterMembers(b1.presences, Goes(c, inside, now));
    DepartAllAgrees(c, b1.(presences := stay), b2.(presences := stay), gone, hx, he);
  }

  /** Of one frame, everything but the expiry. */
  function Movement(c: Config, b: Book, inside: seq<ZoneId>, now: Time, baseline: bool): Outcome {
    var v := VisitAll(c, b, inside, now, baseline);
    var l := Leave(c, v.book, inside, now);
    Outcome(l.book, v.events + l.events)
  }

  lemma {:induction false} MovementVisible(c: Config, b: Book, inside: seq<ZoneId>, now: Time, baseline: bool)
    ensures Visible(Movement(c, b, inside, now, baseline).events) == Movement(c, b, inside, now, baseline).events
  {
    var v := VisitAll(c, b, inside, now, baseline);
    var l := Leave(c, v.book, inside, now);
    VisibleVisit(c, b, inside, now, baseline);
    VisibleDepart(c, v.book.(presences := Filter(v.book.presences, Stays(c, inside, now))),
                  Filter(v.book.presences, Goes(c, inside, now)));
    FilterConcat(v.events, l.events, Seen());
  }

  lemma AlikeThen(v1: Outcome, v2: Outcome, l1: Outcome, l2: Outcome, hx: Time, he: Time)
    requires v1.events == v2.events && AlikeSoFar(l1, l2, hx, he)
    ensures AlikeSoFar(Outcome(l1.book, v1.events + l1.events), Outcome(l2.book, v2.events + l2.events), hx, he)
  {
  }

  lemma {:induction false} VisitsAgree(c: Config, b1: Book, b2: Book, inside: seq<ZoneId>, now: Time,
                                       baseline: bool, prev: Time)
    requires ValidConfig(c) && Recent(c, b1, prev) && prev <= now
    requires ActAlike(c, b1, b2, prev)
    ensures var o1, o2 := VisitAll(c, b1, inside, now, baseline), VisitAll(c, b2, inside, now, baseline);
            var he := prev - c.grace - c.overlap;
            && AlikeSoFar(o1, o2, now - c.maxGap, he)
            && forall p :: p in o1.book.presences ==> he <= p.lastSeenAt - c.overlap
  {
    var hx, he := now - c.maxGap, prev - c.grace - c.overlap;
    AgreeLater(b1, b2, prev - c.maxGap, he, hx, he);
    VisitAllAgrees(c, b1, b2, inside, now, baseline, hx, he);
    VisitAllRecent(c, b1, inside, now, baseline, prev - c.grace);
  }

  lemma {:induction false} MovementAgrees(c: Config, b1: Book, b2: Book, inside: seq<ZoneId>, now: Time,
                                          baseline: bool, prev: Time)
    requires ValidConfig(c) && Recent(c, b1, prev) && prev <= now
    requires ActAlike(c, b1, b2, prev)
    ensures var o1, o2 := Movement(c, b1, inside, now, baseline), Movement(c, b2, inside, now, baseline);
            AlikeSoFar(o1, o2, now - c.maxGap, prev - c.grace - c.overlap)
  {
    var hx, he := now - c.maxGap, prev - c.grace - c.overlap;
    var v1, v2 := VisitAll(c, b1, inside, now, baseline), VisitAll(c, b2, inside, now, baseline);
    var l1, l2 := Leave(c, v1.book, inside, now), Leave(c, v2.book, inside, now);
    VisitsAgree(c, b1, b2, inside, now, baseline, prev);
    LeaveAgrees(c, v1.book, v2.book, inside, now, hx, he);
    AlikeThen(v1, v2, l1, l2, hx, he);
  }

  ghost predicate IsPruned(c: Config, o: Outcome, m: Outcome, now: Time) {
    o.book == ExpireBook(c, m.book, now) && Visible(o.events) == m.events
  }

  lemma {:induction false} PruneStepIs(c: Config, b: Book, seen: Option<seq<ZoneId>>, now: Time, baseline: bool)
    ensures var m := Movement(c, b, ZonesSeen(seen), now, baseline);
            var o := TrackStep(c, Prune, b, seen, now, baseline);
            IsPruned(c, o, m, now)
  {
    var inside := ZonesSeen(seen);
    var m := Movement(c, b, inside, now, baseline);
    MovementVisible(c, b, inside, now, baseline);
    VisibleExpire(c, m.book, now);
    FilterConcat(m.events, Expire(c, m.book, now).events, Seen());
  }

  lemma {:induction false} KeepStepIs(c: Config, b: Book, seen: Option<seq<ZoneId>>, now: Time, baseline: bool)
    ensures TrackStep(c, Keep, b, seen, now, baseline)
              == Movement(c, b, ZonesSeen(seen), now, baseline)
  {
    var m := Movement(c, b, ZonesSeen(seen), now, baseline);
    assert m.events + [] == m.events;
  }

  lemma {:induction false} PrunedAgrees(c: Config, o1: Outcome, m1: Outcome, m2: Outcome, now: Time, he: Time)
    requires AlikeSoFar(m1, m2, now - c.maxGap, he) && he <= now - c.grace - c.overlap && IsPruned(c, o1, m1, now)
    ensures Visible(o1.events) == m2.events && ActAlike(c, o1.book, m2.book, now)
  {
    ExpireAgrees(c, m1.book, m2.book, now, he);
  }

  /** One frame, pruned and not: the same visible events, and books that go on acting alike. */
  lemma {:induction false} FrameAgrees(c: Config, b1: Book, b2: Book, seen: Option<seq<ZoneId>>, now: Time,
                                       baseline: bool, prev: Time)
    requires ValidConfig(c) && Recent(c, b1, prev) && prev <= now
    requires ActAlike(c, b1, b2, prev)
    ensures var o1, o2 := TrackStep(c, Prune, b1, seen, now, baseline), TrackStep(c, Keep, b2, seen, now, baseline);
            Visible(o1.events) == o2.events && ActAlike(c, o1.book, o2.book, now)
  {
    var inside := ZonesSeen(seen);
    var he := prev - c.grace - c.overlap;
    MovementAgrees(c, b1, b2, inside, now, baseline, prev);
    PruneStepIs(c, b1, seen, now, baseline);
    KeepStepIs(c, b2, seen, now, baseline);
    PrunedAgrees(c, TrackStep(c, Prune, b1, seen, now, baseline), Movement(c, b1, inside, now, baseline),
                 Movement(c, b2, inside, now, baseline), now, he);
  }
}
