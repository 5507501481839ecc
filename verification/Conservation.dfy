/** Pairing is sound and conserves movements: for each track, counted = paired + pending + expired. */
module Conservation {
  import opened Common
  import opened Choose
  import opened Movements
  import opened Pruning

  function IsEntry(e: Entry): Entry -> bool { (y: Entry) => y == e }
  function IsExit(x: Exit): Exit -> bool { (y: Exit) => y == x }
  function InZone(z: ZoneId): Presence -> bool { (p: Presence) => p.zone == z }

  function EntryCounted(e: Entry): Event -> bool { (ev: Event) => ev == Entered(e) }
  function EntryPaired(e: Entry): Event -> bool { (ev: Event) => ev.Moved? && ev.entry == e }
  function EntryExpired(e: Entry): Event -> bool { (ev: Event) => ev == ExpiredEntry(e) }
  function ExitCounted(x: Exit): Event -> bool { (ev: Event) => ev == Left(x) }
  function ExitPaired(x: Exit): Event -> bool { (ev: Event) => ev.Moved? && ev.exit == x }
  function ExitExpired(x: Exit): Event -> bool { (ev: Event) => ev == ExpiredExit(x) }

  /** Presences that begin, whether counted or found at the start of observation, and presences that end. */
  function ZoneIn(z: ZoneId): Event -> bool {
    (ev: Event) => ev == Appeared(z) || (ev.Entered? && ev.entry.zone == z)
  }
  function ZoneOut(z: ZoneId): Event -> bool { (ev: Event) => ev.Left? && ev.exit.zone == z }

  /** What an outcome does to a book, item by item: nothing appears from nowhere and nothing is lost. */
  ghost predicate EntryFlow(b: Book, o: Outcome, e: Entry) {
    Count(b.entries, IsEntry(e)) + Count(o.events, EntryCounted(e)) ==
    Count(o.book.entries, IsEntry(e)) + Count(o.events, EntryPaired(e)) + Count(o.events, EntryExpired(e))
  }

  ghost predicate ExitFlow(b: Book, o: Outcome, x: Exit) {
    Count(b.exits, IsExit(x)) + Count(o.events, ExitCounted(x)) ==
    Count(o.book.exits, IsExit(x)) + Count(o.events, ExitPaired(x)) + Count(o.events, ExitExpired(x))
  }

  ghost predicate ZoneFlow(b: Book, o: Outcome, z: ZoneId) {
    Count(b.presences, InZone(z)) + Count(o.events, ZoneIn(z)) ==
    Count(o.book.presences, InZone(z)) + Count(o.events, ZoneOut(z))
  }

  /** Every recorded transition obeys the pairing rule. */
  ghost predicate AllSound(c: Config, events: seq<Event>) {
    forall ev :: ev in events && ev.Moved? ==> MayPair(c, ev.exit, ev.entry)
  }

  lemma {:induction false} EntryThen(b: Book, o: Outcome, o': Outcome, e: Entry)
    requires EntryFlow(b, o, e) && EntryFlow(o.book, o', e)
    ensures EntryFlow(b, Outcome(o'.book, o.events + o'.events), e)
  {
    CountConcat(o.events, o'.events, EntryCounted(e));
    CountConcat(o.events, o'.events, EntryPaired(e));
    CountConcat(o.events, o'.events, EntryExpired(e));
  }

  lemma {:induction false} ExitThen(b: Book, o: Outcome, o': Outcome, x: Exit)
    requires ExitFlow(b, o, x) && ExitFlow(o.book, o', x)
    ensures ExitFlow(b, Outcome(o'.book, o.events + o'.events), x)
  {
    CountConcat(o.events, o'.events, ExitCounted(x));
    CountConcat(o.events, o'.events, ExitPaired(x));
    CountConcat(o.events, o'.events, ExitExpired(x));
  }

  lemma {:induction false} ZoneThen(b: Book, o: Outcome, o': Outcome, z: ZoneId)
    requires ZoneFlow(b, o, z) && ZoneFlow(o.book, o', z)
    ensures ZoneFlow(b, Outcome(o'.book, o.events + o'.events), z)
  {
    CountConcat(o.events, o'.events, ZoneIn(z));
    CountConcat(o.events, o'.events, ZoneOut(z));
  }

  lemma {:induction false} Count1<T>(x: T, p: T -> bool)
    ensures Count([x], p) == if p(x) then 1 else 0
  {
    CountAppend([], x, p);
  }

  lemma {:induction false} Count2<T>(x: T, y: T, p: T -> bool)
    ensures Count([x, y], p) == (if p(x) then 1 else 0) + (if p(y) then 1 else 0)
  {
    assert [x, y] == [x] + [y];
    CountAppend([x], y, p);
    Count1(x, p);
  }

  // Pairing a counted entry.

  lemma {:induction false} JoinEntryKeepsEntries(b: Book, e: Entry, choice: Option<nat>, y: Entry)
    requires choice.Some? ==> choice.value < |b.exits|
    ensures EntryFlow(b, JoinEntry(b, e, choice), y)
  {
    match choice
    case Some(i) =>
      Count2(Entered(e), Moved(b.exits[i], e), EntryCounted(y));
      Count2(Entered(e), Moved(b.exits[i], e), EntryPaired(y));
      Count2(Entered(e), Moved(b.exits[i], e), EntryExpired(y));
    case None =>
      CountAppend(b.entries, e, IsEntry(y));
      Count1(Entered(e), EntryCounted(y));
      Count1(Entered(e), EntryPaired(y));
      Count1(Entered(e), EntryExpired(y));
  }

  lemma {:induction false} JoinEntryKeepsExits(b: Book, e: Entry, choice: Option<nat>, y: Exit)
    requires choice.Some? ==> choice.value < |b.exits|
    ensures ExitFlow(b, JoinEntry(b, e, choice), y)
  {
    match choice
    case Some(i) =>
      CountWithout(b.exits, i, IsExit(y));
      Count2(Entered(e), Moved(b.exits[i], e), ExitCounted(y));
      Count2(Entered(e), Moved(b.exits[i], e), ExitPaired(y));
      Count2(Entered(e), Moved(b.exits[i], e), ExitExpired(y));
    case None =>
      Count1(Entered(e), ExitCounted(y));
      Count1(Entered(e), ExitPaired(y));
      Count1(Entered(e), ExitExpired(y));
  }

  lemma {:induction false} JoinEntryZones(b: Book, e: Entry, choice: Option<nat>, z: ZoneId)
    requires choice.Some? ==> choice.value < |b.exits|
    ensures var evs := JoinEntry(b, e, choice).events;
            Count(evs, ZoneIn(z)) == (if z == e.zone then 1 else 0) && Count(evs, ZoneOut(z)) == 0
  {
    match choice
    case Some(i) =>
      Count2(Entered(e), Moved(b.exits[i], e), ZoneIn(z));
      Count2(Entered(e), Moved(b.exits[i], e), ZoneOut(z));
    case None =>
      Count1(Entered(e), ZoneIn(z));
      Count1(Entered(e), ZoneOut(z));
  }

  // Pairing a departure.

  lemma {:induction false} JoinExitKeepsEntries(b: Book, x: Exit, choice: Option<nat>, y: Entry)
    requires choice.Some? ==> choice.value < |b.entries|
    ensures EntryFlow(b, JoinExit(b, x, choice), y)
  {
    match choice
    case Some(i) =>
      CountWithout(b.entries, i, IsEntry(y));
      Count2(Left(x), Moved(x, b.entries[i]), EntryCounted(y));
      Count2(Left(x), Moved(x, b.entries[i]), EntryPaired(y));
      Count2(Left(x), Moved(x, b.entries[i]), EntryExpired(y));
    case None =>
      Count1(Left(x), EntryCounted(y));
      Count1(Left(x), EntryPaired(y));
      Count1(Left(x), EntryExpired(y));
  }

  lemma {:induction false} JoinExitKeepsExits(b: Book, x: Exit, choice: Option<nat>, y: Exit)
    requires choice.Some? ==> choice.value < |b.entries|
    ensures ExitFlow(b, JoinExit(b, x, choice), y)
  {
    match choice
    case Some(i) =>
      Count2(Left(x), Moved(x, b.entries[i]), ExitCounted(y));
      Count2(Left(x), Moved(x, b.entries[i]), ExitPaired(y));
      Count2(Left(x), Moved(x, b.entries[i]), ExitExpired(y));
    case None =>
      CountAppend(b.exits, x, IsExit(y));
      Count1(Left(x), ExitCounted(y));
      Count1(Left(x), ExitPaired(y));
      Count1(Left(x), ExitExpired(y));
  }

  lemma {:induction false} JoinExitZones(b: Book, x: Exit, choice: Option<nat>, z: ZoneId)
    requires choice.Some? ==> choice.value < |b.entries|
    ensures var evs := JoinExit(b, x, choice).events;
            Count(evs, ZoneIn(z)) == 0 && Count(evs, ZoneOut(z)) == (if z == x.zone then 1 else 0)
  {
    match choice
    case Some(i) =>
      Count2(Left(x), Moved(x, b.entries[i]), ZoneIn(z));
      Count2(Left(x), Moved(x, b.entries[i]), ZoneOut(z));
    case None =>
      Count1(Left(x), ZoneIn(z));
      Count1(Left(x), ZoneOut(z));
  }

  /** The items the laws are stated for: any entry, any departure, any zone. */
  datatype Item = Item(e: Entry, x: Exit, z: ZoneId)

  ghost predicate Lawful(c: Config, b: Book, o: Outcome, it: Item) {
    EntryFlow(b, o, it.e) && ExitFlow(b, o, it.x) && ZoneFlow(b, o, it.z) && AllSound(c, o.events)
  }

  lemma {:induction false} LawfulThen(c: Config, b: Book, o: Outcome, o': Outcome, it: Item)
    requires Lawful(c, b, o, it) && Lawful(c, o.book, o', it)
    ensures Lawful(c, b, Outcome(o'.book, o.events + o'.events), it)
  {
    EntryThen(b, o, o', it.e);
    ExitThen(b, o, o', it.x);
    ZoneThen(b, o, o', it.z);
  }

  /** Finding someone already inside moves no pending entry or departure. */
  lemma {:induction false} AppearMovesNothing(b: Book, o: Outcome, zone: ZoneId, e: Entry, x: Exit)
    requires o.book.entries == b.entries && o.book.exits == b.exits && o.events == [Appeared(zone)]
    ensures EntryFlow(b, o, e) && ExitFlow(b, o, x)
  {
    CountNone(o.events, EntryCounted(e));
    CountNone(o.events, EntryPaired(e));
    CountNone(o.events, EntryExpired(e));
    CountNone(o.events, ExitCounted(x));
    CountNone(o.events, ExitPaired(x));
    CountNone(o.events, ExitExpired(x));
  }

  lemma {:induction false} AppearLawful(c: Config, b: Book, p: Presence, it: Item)
    ensures Lawful(c, b, Outcome(b.(presences := b.presences + [p]), [Appeared(p.zone)]), it)
  {
    AppearMovesNothing(b, Outcome(b.(presences := b.presences + [p]), [Appeared(p.zone)]), p.zone, it.e, it.x);
    CountAppend(b.presences, p, InZone(it.z));
    Count1(Appeared(p.zone), ZoneIn(it.z));
    Count1(Appeared(p.zone), ZoneOut(it.z));
  }

  lemma {:induction false} EnterLawful(c: Config, b: Book, p: Presence, it: Item)
    ensures Lawful(c, b, PairEntry(c, b.(presences := b.presences + [p]), Entry(p.zone, p.enteredAt)), it)
  {
    var b' := b.(presences := b.presences + [p]);
    var e := Entry(p.zone, p.enteredAt);
    var choice := Best(b'.exits, Precedes(c, e), Latest());
    CountAppend(b.presences, p, InZone(it.z));
    JoinEntryKeepsEntries(b', e, choice, it.e);
    JoinEntryKeepsExits(b', e, choice, it.x);
    JoinEntryZones(b', e, choice, it.z);
  }

  lemma {:induction false} RefreshLawful(c: Config, b: Book, i: nat, p: Presence, it: Item)
    requires i < |b.presences| && p.zone == b.presences[i].zone
    ensures Lawful(c, b, Outcome(b.(presences := b.presences[i := p]), []), it)
  {
    var ps := b.presences[i := p];
    assert Without(ps, i) == Without(b.presences, i);
    CountWithout(ps, i, InZone(it.z));
    CountWithout(b.presences, i, InZone(it.z));
  }

  lemma {:induction false} VisitLawful(c: Config, b: Book, zone: ZoneId, now: Time, baseline: bool, it: Item)
    ensures Lawful(c, b, Visit(c, b, zone, now, baseline), it)
  {
    match IndexOf(b.presences, zone)
    case Some(i) => RefreshLawful(c, b, i, b.presences[i].(lastSeenAt := now), it);
    case None =>
      if baseline {
        AppearLawful(c, b, Presence(zone, now, now), it);
      } else {
        EnterLawful(c, b, Presence(zone, now, now), it);
      }
  }

  lemma {:induction false} VisitAllLawful(c: Config, b: Book, zones: seq<ZoneId>, now: Time, baseline: bool, it: Item)
    ensures Lawful(c, b, VisitAll(c, b, zones, now, baseline), it)
  {
    if zones != [] {
      var n := |zones| - 1;
      VisitAllLawful(c, b, zones[..n], now, baseline, it);
      var o := VisitAll(c, b, zones[..n], now, baseline);
      VisitLawful(c, o.book, zones[n], now, baseline, it);
      LawfulThen(c, b, o, Visit(c, o.book, zones[n], now, baseline), it);
    }
  }

  lemma {:induction false} JoinExitFlows(c: Config, b: Book, x: Exit, choice: Option<nat>, it: Item)
    requires choice.Some? ==> choice.value < |b.entries| && MayPair(c, x, b.entries[choice.value])
    ensures DepartureFlows(c, b, x, JoinExit(b, x, choice), it)
  {
    JoinExitKeepsEntries(b, x, choice, it.e);
    JoinExitKeepsExits(b, x, choice, it.x);
    JoinExitZones(b, x, choice, it.z);
  }

  ghost predicate DepartureFlows(c: Config, b: Book, x: Exit, o: Outcome, it: Item) {
    && EntryFlow(b, o, it.e) && ExitFlow(b, o, it.x) && AllSound(c, o.events)
    && Count(o.events, ZoneIn(it.z)) == 0
    && Count(o.events, ZoneOut(it.z)) == (if it.z == x.zone then 1 else 0)
  }

  lemma {:induction false} PairExitFlows(c: Config, b: Book, x: Exit, it: Item)
    ensures DepartureFlows(c, b, x, PairExit(c, b, x), it)
  {
    JoinExitFlows(c, b, x, Best(b.entries, Follows(c, x), Earliest()), it);
  }

  lemma {:induction false} DepartAllFlows(c: Config, b: Book, gone: seq<Presence>, it: Item)
    ensures var o := DepartAll(c, b, gone);
            && EntryFlow(b, o, it.e) && ExitFlow(b, o, it.x) && AllSound(c, o.events)
            && Count(o.events, ZoneIn(it.z)) == 0 && Count(o.events, ZoneOut(it.z)) == Count(gone, InZone(it.z))
  {
    if gone != [] {
      var n := |gone| - 1;
      DepartAllFlows(c, b, gone[..n], it);
      var o := DepartAll(c, b, gone[..n]);
      var o' := PairExit(c, o.book, ExitOf(gone[n]));
      PairExitFlows(c, o.book, ExitOf(gone[n]), it);
      EntryThen(b, o, o', it.e);
      ExitThen(b, o, o', it.x);
      CountConcat(o.events, o'.events, ZoneIn(it.z));
      CountConcat(o.events, o'.events, ZoneOut(it.z));
    }
  }

  lemma {:induction false} LeaveLawful(c: Config, b: Book, inside: seq<ZoneId>, now: Time, it: Item)
    ensures Lawful(c, b, Leave(c, b, inside, now), it)
  {
    var stays, goes := Filter(b.presences, Stays(c, inside, now)), Filter(b.presences, Goes(c, inside, now));
    CountSplit(b.presences, InZone(it.z), Stays(c, inside, now), Goes(c, inside, now));
    DepartAllFlows(c, b.(presences := stays), goes, it);
    DepartAllKeepsPresences(c, b.(presences := stays), goes);
  }

  lemma {:induction false} ExpiredExitsCounted(xs: seq<Exit>, x: Exit)
    ensures Count(ExpireExits(xs), ExitExpired(x)) == Count(xs, IsExit(x))
  {
    if xs != [] {
      var n := |xs| - 1;
      assert ExpireExits(xs) == ExpireExits(xs[..n]) + [ExpiredExit(xs[n])];
      ExpiredExitsCounted(xs[..n], x);
    }
  }

  lemma {:induction false} ExpiredEntriesCounted(es: seq<Entry>, e: Entry)
    ensures Count(ExpireEntries(es), EntryExpired(e)) == Count(es, IsEntry(e))
  {
    if es != [] {
      var n := |es| - 1;
      assert ExpireEntries(es) == ExpireEntries(es[..n]) + [ExpiredEntry(es[n])];
      ExpiredEntriesCounted(es[..n], e);
    }
  }

  /** Expiry counts nothing, pairs nothing and expires only what it is told to. */
  lemma {:induction false} ExpiryOnly(ev1: seq<Event>, ev2: seq<Event>, e: Entry, x: Exit)
    requires forall ev :: ev in ev1 ==> ev.ExpiredExit?
    requires forall ev :: ev in ev2 ==> ev.ExpiredEntry?
    ensures Count(ev1 + ev2, EntryExpired(e)) == Count(ev2, EntryExpired(e))
    ensures Count(ev1 + ev2, ExitExpired(x)) == Count(ev1, ExitExpired(x))
    ensures Count(ev1 + ev2, EntryCounted(e)) == 0 && Count(ev1 + ev2, EntryPaired(e)) == 0
    ensures Count(ev1 + ev2, ExitCounted(x)) == 0 && Count(ev1 + ev2, ExitPaired(x)) == 0
  {
    CountConcat(ev1, ev2, EntryExpired(e));
    CountConcat(ev1, ev2, ExitExpired(x));
    CountNone(ev1, EntryExpired(e));
    CountNone(ev2, ExitExpired(x));
    CountNone(ev1 + ev2, EntryCounted(e));
    CountNone(ev1 + ev2, EntryPaired(e));
    CountNone(ev1 + ev2, ExitCounted(x));
    CountNone(ev1 + ev2, ExitPaired(x));
  }

  lemma {:induction false} ExpireKeepsEntries(c: Config, b: Book, now: Time, e: Entry)
    ensures EntryFlow(b, Expire(c, b, now), e)
  {
    var he := EntryHorizon(c, now);
    var ev1 := ExpireExits(Filter(b.exits, DeadExit(ExitHorizon(c, now))));
    var ev2 := ExpireEntries(Filter(b.entries, DeadEntry(he)));
    CountSplit(b.entries, IsEntry(e), LiveEntry(he), DeadEntry(he));
    ExpiredEntriesCounted(Filter(b.entries, DeadEntry(he)), e);
    ExpiryOnly(ev1, ev2, e, Exit(0, 0.0, 0.0));
  }

  lemma {:induction false} ExpireKeepsExits(c: Config, b: Book, now: Time, x: Exit)
    ensures ExitFlow(b, Expire(c, b, now), x)
  {
    var hx := ExitHorizon(c, now);
    var ev1 := ExpireExits(Filter(b.exits, DeadExit(hx)));
    var ev2 := ExpireEntries(Filter(b.entries, DeadEntry(EntryHorizon(c, now))));
    CountSplit(b.exits, IsExit(x), LiveExit(hx), DeadExit(hx));
    ExpiredExitsCounted(Filter(b.exits, DeadExit(hx)), x);
    ExpiryOnly(ev1, ev2, Entry(0, 0.0), x);
  }

  lemma {:induction false} ExpireLawful(c: Config, b: Book, now: Time, it: Item)
    ensures Lawful(c, b, Expire(c, b, now), it)
  {
    ExpireKeepsEntries(c, b, now, it.e);
    ExpireKeepsExits(c, b, now, it.x);
    CountNone(Expire(c, b, now).events, ZoneIn(it.z));
    CountNone(Expire(c, b, now).events, ZoneOut(it.z));
  }

  /** One frame neither loses nor invents a movement of a track, and records only sound transitions. */
  lemma {:induction false} StepLawful(c: Config, policy: Policy, b: Book, seen: Option<seq<ZoneId>>, now: Time,
                                      baseline: bool, it: Item)
    ensures Lawful(c, b, TrackStep(c, policy, b, seen, now, baseline), it)
  {
    var inside := ZonesSeen(seen);
    var o1 := VisitAll(c, b, inside, now, baseline);
    var o2 := Leave(c, o1.book, inside, now);
    var o12 := Outcome(o2.book, o1.events + o2.events);
    VisitAllLawful(c, b, inside, now, baseline, it);
    LeaveLawful(c, o1.book, inside, now, it);
    LawfulThen(c, b, o1, o2, it);
    if policy.Prune? {
      ExpireLawful(c, o2.book, now, it);
      LawfulThen(c, b, o12, Expire(c, o2.book, now), it);
    } else {
      assert o12.events + [] == o12.events;
    }
  }
}
