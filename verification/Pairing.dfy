/** Who is paired with whom, read off a track's log: every entry and every departure takes the best partner then
    waiting, and takes one whenever there is one (ai/surgeguard_ai/zones/transitions.py). */
module Pairing {
  import opened Common
  import opened Choose
  import opened Logs
  import opened Movements
  import opened Pruning
  import opened Transitions
  import opened Projection
  import opened TransitionTheorems

  // -- What a log says --------------------------------------------------------------------------------------

  /** Departures logged and neither paired nor expired since. */
  function WaitingExits(log: seq<Event>): multiset<Exit> {
    if log == [] then multiset{}
    else
      var before := WaitingExits(log[..|log| - 1]);
      match log[|log| - 1]
      case Left(x) => before + multiset{x}
      case Moved(x, _) => before - multiset{x}
      case ExpiredExit(x) => before - multiset{x}
      case _ => before
  }

  /** Entries logged and neither paired nor expired since. */
  function WaitingEntries(log: seq<Event>): multiset<Entry> {
    if log == [] then multiset{}
    else
      var before := WaitingEntries(log[..|log| - 1]);
      match log[|log| - 1]
      case Entered(e) => before + multiset{e}
      case Moved(_, e) => before - multiset{e}
      case ExpiredEntry(e) => before - multiset{e}
      case _ => before
  }

  function Next(log: seq<Event>, i: nat): Option<Event> {
    if i + 1 < |log| then Some(log[i + 1]) else None
  }

  ghost predicate NotMoved(next: Option<Event>) {
    next.None? || !next.value.Moved?
  }

  /** The rule: into another zone, entered after the first stay began, within the overlap before and the largest gap
      after it ended. */
  predicate Allowed(c: Config, x: Exit, e: Entry) {
    && x.zone != e.zone && e.enteredAt > x.enteredAt
    && e.enteredAt >= x.leftAt - c.overlap && e.enteredAt <= x.leftAt + c.maxGap
  }

  ghost predicate LatestOf(c: Config, waiting: multiset<Exit>, x: Exit, e: Entry) {
    x in waiting && Allowed(c, x, e) && forall y :: y in waiting && Allowed(c, y, e) ==> y.leftAt <= x.leftAt
  }

  ghost predicate EarliestOf(c: Config, waiting: multiset<Entry>, x: Exit, e: Entry) {
    e in waiting && Allowed(c, x, e) && forall y :: y in waiting && Allowed(c, x, y) ==> e.enteredAt <= y.enteredAt
  }

  /** An entry is paired at once with the latest departure waiting that it may follow, if there is one. */
  ghost predicate TakesLatest(c: Config, waiting: multiset<Exit>, e: Entry, next: Option<Event>) {
    if exists x :: x in waiting && Allowed(c, x, e)
    then next.Some? && next.value.Moved? && next.value.entry == e && LatestOf(c, waiting, next.value.exit, e)
    else NotMoved(next)
  }

  /** A departure is paired at once with the earliest entry waiting that may have followed it, if there is one. */
  ghost predicate TakesEarliest(c: Config, waiting: multiset<Entry>, x: Exit, next: Option<Event>) {
    if exists e :: e in waiting && Allowed(c, x, e)
    then next.Some? && next.value.Moved? && next.value.exit == x && EarliestOf(c, waiting, x, next.value.entry)
    else NotMoved(next)
  }

  ghost predicate GreedyAt(c: Config, log: seq<Event>, i: nat)
    requires i < |log|
  {
    match log[i]
    case Entered(e) => TakesLatest(c, WaitingExits(log[..i]), e, Next(log, i))
    case Left(x) => TakesEarliest(c, WaitingEntries(log[..i]), x, Next(log, i))
    case Moved(x, e) => i > 0 && (log[i - 1] == Entered(e) || log[i - 1] == Left(x))
    case _ => true
  }

  ghost predicate Greedy(c: Config, log: seq<Event>) {
    forall i: nat :: i < |log| ==> GreedyAt(c, log, i)
  }

  /** No departure and entry that may be paired are both left waiting. */
  ghost predicate NoPairLeft(c: Config, exits: multiset<Exit>, entries: multiset<Entry>) {
    forall x, e :: x in exits && e in entries ==> !Allowed(c, x, e)
  }

  /** The book holds what waits according to the log. */
  ghost predicate Matched(c: Config, b: Book, log: seq<Event>) {
    && multiset(b.exits) == WaitingExits(log) && multiset(b.entries) == WaitingEntries(log)
    && Greedy(c, log) && NoPairLeft(c, WaitingExits(log), WaitingEntries(log))
  }

  // -- One block of events ----------------------------------------------------------------------------------

  lemma {:induction false} WaitingAppend(log: seq<Event>, ev: Event)
    ensures WaitingExits(log + [ev])
              == match ev
                 case Left(x) => WaitingExits(log) + multiset{x}
                 case Moved(x, _) => WaitingExits(log) - multiset{x}
                 case ExpiredExit(x) => WaitingExits(log) - multiset{x}
                 case _ => WaitingExits(log)
    ensures WaitingEntries(log + [ev])
              == match ev
                 case Entered(e) => WaitingEntries(log) + multiset{e}
                 case Moved(_, e) => WaitingEntries(log) - multiset{e}
                 case ExpiredEntry(e) => WaitingEntries(log) - multiset{e}
                 case _ => WaitingEntries(log)
  {
    assert (log + [ev])[..|log|] == log;
  }

  /** What was decided stays decided when something other than a transition follows. */
  lemma {:induction false} GreedyKept(c: Config, log: seq<Event>, block: seq<Event>, i: nat)
    requires Greedy(c, log) && i < |log| && block != [] && !block[0].Moved?
    ensures GreedyAt(c, log + block, i)
  {
    assert GreedyAt(c, log, i);
    assert (log + block)[..i] == log[..i];
  }

  lemma {:induction false} GreedyPlain(c: Config, log: seq<Event>, ev: Event)
    requires Greedy(c, log) && (ev.Appeared? || ev.ExpiredExit? || ev.ExpiredEntry?)
    ensures Greedy(c, log + [ev])
  {
    forall i: nat | i < |log + [ev]| ensures GreedyAt(c, log + [ev], i) {
      if i < |log| {
        GreedyKept(c, log, [ev], i);
      }
    }
  }

  /** An entry or a departure that finds no partner. */
  lemma {:induction false} GreedyAlone(c: Config, log: seq<Event>, ev: Event)
    requires Greedy(c, log) && (ev.Entered? || ev.Left?)
    requires ev.Entered? ==> TakesLatest(c, WaitingExits(log), ev.entry, None)
    requires ev.Left? ==> TakesEarliest(c, WaitingEntries(log), ev.exit, None)
    ensures Greedy(c, log + [ev])
  {
    forall i: nat | i < |log + [ev]| ensures GreedyAt(c, log + [ev], i) {
      if i < |log| {
        GreedyKept(c, log, [ev], i);
      } else {
        assert (log + [ev])[..i] == log;
      }
    }
  }

  /** One that does, and the transition recorded for it. */
  lemma {:induction false} GreedyPair(c: Config, log: seq<Event>, ev: Event, x: Exit, e: Entry)
    requires Greedy(c, log) && (ev == Entered(e) || ev == Left(x))
    requires ev.Entered? ==> TakesLatest(c, WaitingExits(log), e, Some(Moved(x, e)))
    requires ev.Left? ==> TakesEarliest(c, WaitingEntries(log), x, Some(Moved(x, e)))
    ensures Greedy(c, log + [ev, Moved(x, e)])
  {
    var all := log + [ev, Moved(x, e)];
    forall i: nat | i < |all| ensures GreedyAt(c, all, i) {
      if i < |log| {
        GreedyKept(c, log, [ev, Moved(x, e)], i);
      } else if i == |log| {
        assert all[..i] == log;
      }
    }
  }

  lemma {:induction false} MembersOf<T>(s: seq<T>)
    ensures forall x :: x in multiset(s) <==> x in s
  {
  }

  lemma {:induction false} WithoutOne<T>(s: seq<T>, i: nat)
    requires i < |s|
    ensures multiset(Without(s, i)) == multiset(s) - multiset{s[i]}
  {
    assert s == s[..i] + [s[i]] + s[i + 1..];
  }

  lemma {:induction false} EntryChoice(c: Config, exits: seq<Exit>, e: Entry)
    ensures var choice := Best(exits, Precedes(c, e), Latest());
            && (choice.None? ==> forall x :: x in multiset(exits) ==> !Allowed(c, x, e))
            && (choice.Some? ==> LatestOf(c, multiset(exits), exits[choice.value], e))
  {
    BestIsFirstLargest(exits, Precedes(c, e), Latest());
    MembersOf(exits);
  }

  lemma {:induction false} ExitChoice(c: Config, entries: seq<Entry>, x: Exit)
    ensures var choice := Best(entries, Follows(c, x), Earliest());
            && (choice.None? ==> forall e :: e in multiset(entries) ==> !Allowed(c, x, e))
            && (choice.Some? ==> EarliestOf(c, multiset(entries), x, entries[choice.value]))
  {
    BestIsFirstLargest(entries, Follows(c, x), Earliest());
    MembersOf(entries);
  }

  lemma Twice<T>(log: seq<T>, a: T, b: T)
    ensures log + [a, b] == (log + [a]) + [b]
  {
  }

  lemma AddedAndTaken<T>(m: multiset<T>, x: T)
    ensures m + multiset{x} - multiset{x} == m
  {
  }

  /** What waits after a movement and the transition it completes: all but the partner. */
  lemma {:induction false} WaitingEntryPair(log: seq<Event>, x: Exit, e: Entry)
    ensures WaitingExits(log + [Entered(e), Moved(x, e)]) == WaitingExits(log) - multiset{x}
    ensures WaitingEntries(log + [Entered(e), Moved(x, e)]) == WaitingEntries(log)
  {
    Twice(log, Entered(e), Moved(x, e));
    WaitingAppend(log, Entered(e));
    WaitingAppend(log + [Entered(e)], Moved(x, e));
    AddedAndTaken(WaitingEntries(log), e);
  }

  lemma {:induction false} WaitingExitPair(log: seq<Event>, x: Exit, e: Entry)
    ensures WaitingExits(log + [Left(x), Moved(x, e)]) == WaitingExits(log)
    ensures WaitingEntries(log + [Left(x), Moved(x, e)]) == WaitingEntries(log) - multiset{e}
  {
    Twice(log, Left(x), Moved(x, e));
    WaitingAppend(log, Left(x));
    WaitingAppend(log + [Left(x)], Moved(x, e));
    AddedAndTaken(WaitingExits(log), x);
  }

  lemma {:induction false} EntryWaits(c: Config, b: Book, e: Entry, log: seq<Event>)
    requires Matched(c, b, log) && forall x :: x in WaitingExits(log) ==> !Allowed(c, x, e)
    ensures Matched(c, b.(entries := b.entries + [e]), log + [Entered(e)])
  {
    WaitingAppend(log, Entered(e));
    GreedyAlone(c, log, Entered(e));
  }

  lemma {:induction false} EntryPairs(c: Config, b: Book, i: nat, e: Entry, log: seq<Event>)
    requires Matched(c, b, log) && i < |b.exits| && LatestOf(c, WaitingExits(log), b.exits[i], e)
    ensures Matched(c, b.(exits := Without(b.exits, i)), log + [Entered(e), Moved(b.exits[i], e)])
  {
    WaitingEntryPair(log, b.exits[i], e);
    WithoutOne(b.exits, i);
    GreedyPair(c, log, Entered(e), b.exits[i], e);
  }

  lemma {:induction false} ExitWaits(c: Config, b: Book, x: Exit, log: seq<Event>)
    requires Matched(c, b, log) && forall e :: e in WaitingEntries(log) ==> !Allowed(c, x, e)
    ensures Matched(c, b.(exits := b.exits + [x]), log + [Left(x)])
  {
    WaitingAppend(log, Left(x));
    GreedyAlone(c, log, Left(x));
  }

  lemma {:induction false} ExitPairs(c: Config, b: Book, i: nat, x: Exit, log: seq<Event>)
    requires Matched(c, b, log) && i < |b.entries| && EarliestOf(c, WaitingEntries(log), x, b.entries[i])
    ensures Matched(c, b.(entries := Without(b.entries, i)), log + [Left(x), Moved(x, b.entries[i])])
  {
    WaitingExitPair(log, x, b.entries[i]);
    WithoutOne(b.entries, i);
    GreedyPair(c, log, Left(x), x, b.entries[i]);
  }

  lemma {:induction false} PairEntryMatched(c: Config, b: Book, e: Entry, log: seq<Event>)
    requires Matched(c, b, log)
    ensures var o := PairEntry(c, b, e); Matched(c, o.book, log + o.events)
  {
    EntryChoice(c, b.exits, e);
    match Best(b.exits, Precedes(c, e), Latest())
    case Some(i) => EntryPairs(c, b, i, e, log);
    case None => EntryWaits(c, b, e, log);
  }

  lemma {:induction false} PairExitMatched(c: Config, b: Book, x: Exit, log: seq<Event>)
    requires Matched(c, b, log)
    ensures var o := PairExit(c, b, x); Matched(c, o.book, log + o.events)
  {
    ExitChoice(c, b.entries, x);
    match Best(b.entries, Follows(c, x), Earliest())
    case Some(i) => ExitPairs(c, b, i, x, log);
    case None => ExitWaits(c, b, x, log);
  }

  lemma {:induction false} MatchedPlain(c: Config, b: Book, log: seq<Event>, ev: Event)
    requires Matched(c, b, log) && ev.Appeared?
    ensures Matched(c, b, log + [ev])
  {
    WaitingAppend(log, ev);
    GreedyPlain(c, log, ev);
  }

  lemma {:induction false} VisitMatched(c: Config, b: Book, zone: ZoneId, now: Time, baseline: bool, log: seq<Event>)
    requires Matched(c, b, log)
    ensures var o := Visit(c, b, zone, now, baseline); Matched(c, o.book, log + o.events)
  {
    match IndexOf(b.presences, zone)
    case Some(i) => assert log + [] == log;
    case None =>
      var b' := b.(presences := b.presences + [Presence(zone, now, now)]);
      assert Matched(c, b', log);
      if baseline {
        MatchedPlain(c, b', log, Appeared(zone));
      } else {
        PairEntryMatched(c, b', Entry(zone, now), log);
      }
  }

  lemma {:induction false} VisitAllMatched(c: Config, b: Book, zones: seq<ZoneId>, now: Time, baseline: bool,
                                           log: seq<Event>)
    requires Matched(c, b, log)
    ensures var o := VisitAll(c, b, zones, now, baseline); Matched(c, o.book, log + o.events)
  {
    if zones == [] {
      assert log + [] == log;
    } else {
      var n := |zones| - 1;
      var o := VisitAll(c, b, zones[..n], now, baseline);
      VisitAllMatched(c, b, zones[..n], now, baseline, log);
      VisitMatched(c, o.book, zones[n], now, baseline, log + o.events);
      Joined(log, o.events, Visit(c, o.book, zones[n], now, baseline).events);
    }
  }

  lemma Joined<T>(a: seq<T>, b: seq<T>, d: seq<T>)
    ensures (a + b) + d == a + (b + d)
  {
  }

  lemma {:induction false} DepartAllMatched(c: Config, b: Book, gone: seq<Presence>, log: seq<Event>)
    requires Matched(c, b, log)
    ensures var o := DepartAll(c, b, gone); Matched(c, o.book, log + o.events)
  {
    if gone == [] {
      assert log + [] == log;
    } else {
      var n := |gone| - 1;
      var o := DepartAll(c, b, gone[..n]);
      DepartAllMatched(c, b, gone[..n], log);
      PairExitMatched(c, o.book, ExitOf(gone[n]), log + o.events);
      Joined(log, o.events, PairExit(c, o.book, ExitOf(gone[n])).events);
    }
  }

  // -- Expiry -----------------------------------------------------------------------------------------------

  /** From the one log to the other these departures and entries stopped waiting, and nothing was paired. */
  ghost predicate Gone(c: Config, log: seq<Event>, log': seq<Event>, xs: multiset<Exit>, es: multiset<Entry>) {
    && WaitingExits(log') == WaitingExits(log) - xs && WaitingEntries(log') == WaitingEntries(log) - es
    && Greedy(c, log')
  }

  lemma {:induction false} ExpireOneExit(c: Config, log: seq<Event>, log1: seq<Event>, xs: multiset<Exit>,
                                         es: multiset<Entry>, x: Exit)
    requires Gone(c, log, log1, xs, es)
    ensures Gone(c, log, log1 + [ExpiredExit(x)], xs + multiset{x}, es)
  {
    WaitingAppend(log1, ExpiredExit(x));
    GreedyPlain(c, log1, ExpiredExit(x));
  }

  lemma {:induction false} ExpireOneEntry(c: Config, log: seq<Event>, log1: seq<Event>, xs: multiset<Exit>,
                                          es: multiset<Entry>, e: Entry)
    requires Gone(c, log, log1, xs, es)
    ensures Gone(c, log, log1 + [ExpiredEntry(e)], xs, es + multiset{e})
  {
    WaitingAppend(log1, ExpiredEntry(e));
    GreedyPlain(c, log1, ExpiredEntry(e));
  }

  lemma {:induction false} LastExpired(dead: seq<Exit>)
    requires dead != []
    ensures var n := |dead| - 1;
            && ExpireExits(dead) == ExpireExits(dead[..n]) + [ExpiredExit(dead[n])]
            && multiset(dead) == multiset(dead[..n]) + multiset{dead[n]}
  {
    var n := |dead| - 1;
    assert dead == dead[..n] + [dead[n]];
  }

  lemma {:induction false} LastEntryExpired(dead: seq<Entry>)
    requires dead != []
    ensures var n := |dead| - 1;
            && ExpireEntries(dead) == ExpireEntries(dead[..n]) + [ExpiredEntry(dead[n])]
            && multiset(dead) == multiset(dead[..n]) + multiset{dead[n]}
  {
    var n := |dead| - 1;
    assert dead == dead[..n] + [dead[n]];
  }

  lemma {:induction false} ExitsExpire(c: Config, log: seq<Event>, log1: seq<Event>, xs: multiset<Exit>,
                                       es: multiset<Entry>, dead: seq<Exit>)
    requires Gone(c, log, log1, xs, es)
    ensures Gone(c, log, log1 + ExpireExits(dead), xs + multiset(dead), es)
  {
    if dead == [] {
      assert log1 + ExpireExits(dead) == log1;
    } else {
      var n := |dead| - 1;
      ExitsExpire(c, log, log1, xs, es, dead[..n]);
      LastExpired(dead);
      Joined(log1, ExpireExits(dead[..n]), [ExpiredExit(dead[n])]);
      ExpireOneExit(c, log, log1 + ExpireExits(dead[..n]), xs + multiset(dead[..n]), es, dead[n]);
    }
  }

  lemma {:induction false} EntriesExpire(c: Config, log: seq<Event>, log1: seq<Event>, xs: multiset<Exit>,
                                         es: multiset<Entry>, dead: seq<Entry>)
    requires Gone(c, log, log1, xs, es)
    ensures Gone(c, log, log1 + ExpireEntries(dead), xs, es + multiset(dead))
  {
    if dead == [] {
      assert log1 + ExpireEntries(dead) == log1;
    } else {
      var n := |dead| - 1;
      EntriesExpire(c, log, log1, xs, es, dead[..n]);
      LastEntryExpired(dead);
      Joined(log1, ExpireEntries(dead[..n]), [ExpiredEntry(dead[n])]);
      ExpireOneEntry(c, log, log1 + ExpireEntries(dead[..n]), xs, es + multiset(dead[..n]), dead[n]);
    }
  }

  /** A filter and its opposite share out the items. */
  lemma {:induction false} FilterShares<T>(s: seq<T>, keep: T -> bool, drop: T -> bool)
    requires forall x :: x in s ==> (drop(x) <==> !keep(x))
    ensures multiset(Filter(s, keep)) == multiset(s) - multiset(Filter(s, drop))
  {
    if s != [] {
      var n := |s| - 1;
      assert s == s[..n] + [s[n]];
      FilterShares(s[..n], keep, drop);
      FilterPart(s[..n], drop);
    }
  }

  lemma {:induction false} FilterPart<T>(s: seq<T>, keep: T -> bool)
    ensures multiset(Filter(s, keep)) <= multiset(s)
  {
    if s != [] {
      var n := |s| - 1;
      assert s == s[..n] + [s[n]];
      FilterPart(s[..n], keep);
    }
  }

  lemma NothingGone(c: Config, log: seq<Event>)
    requires Greedy(c, log)
    ensures Gone(c, log, log, multiset{}, multiset{})
  {
  }

  lemma {:induction false} ExpiryGone(c: Config, log: seq<Event>, dx: seq<Exit>, de: seq<Entry>, xs: multiset<Exit>,
                                      es: multiset<Entry>)
    requires Greedy(c, log) && xs == multiset{} + multiset(dx) && es == multiset{} + multiset(de)
    ensures Gone(c, log, log + (ExpireExits(dx) + ExpireEntries(de)), xs, es)
  {
    NothingGone(c, log);
    ExitsExpire(c, log, log, multiset{}, multiset{}, dx);
    EntriesExpire(c, log, log + ExpireExits(dx), xs, multiset{}, de);
    Joined(log, ExpireExits(dx), ExpireEntries(de));
  }

  lemma EmptyPlus<T>(m: multiset<T>)
    ensures multiset{} + m == m
  {
  }

  lemma {:induction false} GoneMatched(c: Config, b: Book, b': Book, log: seq<Event>, log': seq<Event>,
                                       xs: multiset<Exit>, es: multiset<Entry>)
    requires Matched(c, b, log) && Gone(c, log, log', xs, es)
    requires multiset(b'.exits) == multiset(b.exits) - xs && multiset(b'.entries) == multiset(b.entries) - es
    ensures Matched(c, b', log')
  {
  }

  lemma {:induction false} ExpireMatched(c: Config, b: Book, now: Time, log: seq<Event>)
    requires Matched(c, b, log)
    ensures var o := Expire(c, b, now); Matched(c, o.book, log + o.events)
  {
    var hx, he := ExitHorizon(c, now), EntryHorizon(c, now);
    var dx, de := Filter(b.exits, DeadExit(hx)), Filter(b.entries, DeadEntry(he));
    FilterShares(b.exits, LiveExit(hx), DeadExit(hx));
    FilterShares(b.entries, LiveEntry(he), DeadEntry(he));
    EmptyPlus(multiset(dx));
    EmptyPlus(multiset(de));
    ExpiryGone(c, log, dx, de, multiset(dx), multiset(de));
    GoneMatched(c, b, ExpireBook(c, b, now), log, log + (ExpireExits(dx) + ExpireEntries(de)), multiset(dx),
                multiset(de));
  }

  // -- Over every run ---------------------------------------------------------------------------------------

  lemma {:induction false} LeaveMatched(c: Config, b: Book, inside: seq<ZoneId>, now: Time, log: seq<Event>)
    requires Matched(c, b, log)
    ensures var o := Leave(c, b, inside, now); Matched(c, o.book, log + o.events)
  {
    DepartAllMatched(c, b.(presences := Filter(b.presences, Stays(c, inside, now))),
                     Filter(b.presences, Goes(c, inside, now)), log);
  }

  lemma {:induction false} MovementMatched(c: Config, b: Book, inside: seq<ZoneId>, now: Time, baseline: bool,
                                           log: seq<Event>)
    requires Matched(c, b, log)
    ensures var o := Movement(c, b, inside, now, baseline); Matched(c, o.book, log + o.events)
  {
    var v := VisitAll(c, b, inside, now, baseline);
    VisitAllMatched(c, b, inside, now, baseline, log);
    LeaveMatched(c, v.book, inside, now, log + v.events);
    Joined(log, v.events, Leave(c, v.book, inside, now).events);
  }

  lemma {:induction false} StepMatched(c: Config, policy: Policy, b: Book, seen: Option<seq<ZoneId>>, now: Time,
                                       baseline: bool, log: seq<Event>)
    requires Matched(c, b, log)
    ensures var o := TrackStep(c, policy, b, seen, now, baseline); Matched(c, o.book, log + o.events)
  {
    var m := Movement(c, b, ZonesSeen(seen), now, baseline);
    MovementMatched(c, b, ZonesSeen(seen), now, baseline, log);
    if policy.Prune? {
      ExpireMatched(c, m.book, now, log + m.events);
      Joined(log, m.events, Expire(c, m.book, now).events);
    } else {
      KeepStepIs(c, b, seen, now, baseline);
    }
  }

  ghost predicate SessionMatched(c: Config, s: Session, id: int) {
    WellFormed(s.world) && Matched(c, View(s.world, id), LogOf(s.world.log, id))
  }

  lemma {:induction false} StartMatched(c: Config, zones: set<ZoneId>, s: Session, now: Time, id: int)
    requires SessionMatched(c, s, id) || s == Init(zones)
    ensures SessionMatched(c, Rewound(zones, s, now), id)
  {
    assert WaitingExits([]) == multiset{} && WaitingEntries([]) == multiset{};
  }

  /** Over every run, pruned or not, a track's book holds exactly what its log leaves waiting; each entry took the
      latest departure and each departure the earliest entry then waiting that the rule allows, whenever there was one;
      and no pair that the rule allows is left waiting. */
  lemma {:induction false} PairingIsGreedy(c: Config, policy: Policy, zones: set<ZoneId>, frames: seq<Frame>, id: int)
    ensures SessionMatched(c, Run(c, policy, zones, frames), id)
  {
    StartMatched(c, zones, Init(zones), 0.0, id);
    if frames != [] {
      var n := |frames| - 1;
      var s, f := Run(c, policy, zones, frames[..n]), frames[n];
      PairingIsGreedy(c, policy, zones, frames[..n], id);
      StartMatched(c, zones, s, f.now, id);
      StepEffect(c, policy, zones, s, f, id);
      var s0 := Rewound(zones, s, f.now);
      StepMatched(c, policy, View(s0.world, id), SeenIn(Settle(c.minAge, f.sightings), id), f.now, s0.first.None?,
                  LogOf(s0.world.log, id));
    }
  }
}
