/** The tracker as it runs: dictionaries and queues updated in place, one frame at a time. */
module ZoneTransitionTracker {
  import opened Common
  import opened Logs
  import opened Choose
  import opened Window
  import opened Movements
  import opened Pruning
  import opened Transitions
  import opened Projection
  import W = OrderWitness

  lemma {:induction false} EmitAllConcat(w: World, id: int, evs: seq<Event>, more: seq<Event>)
    ensures EmitAll(w, id, evs + more) == EmitAll(EmitAll(w, id, evs), id, more)
  {
    if more == [] {
      assert evs + more == evs;
    } else {
      var n := |more| - 1;
      assert (evs + more)[..|evs| + n] == evs + more[..n];
      EmitAllConcat(w, id, evs, more[..n]);
    }
  }

  lemma {:induction false} EmitAllThenPut(w: World, id: int, evs: seq<Event>, b: Book)
    requires id in w.tracks
    ensures PutBook(EmitAll(w, id, evs), id, b) == EmitAll(PutBook(w, id, b), id, evs)
  {
    if evs != [] {
      var n := |evs| - 1;
      EmitAllThenPut(w, id, evs[..n], b);
      EmitThenPut(EmitAll(w, id, evs[..n]), id, evs[n], b);
    }
  }

  lemma {:induction false} EmitThenPut(w: World, id: int, ev: Event, b: Book)
    requires id in w.tracks
    ensures Emit(w, id, ev).tracks == w.tracks
    ensures PutBook(Emit(w, id, ev), id, b) == Emit(PutBook(w, id, b), id, ev)
  {
  }

  /** One more zone visited. */
  lemma {:induction false} VisitStep(c: Config, w: World, id: int, b: Book, zones: seq<ZoneId>, i: nat, now: Time,
                                     baseline: bool)
    requires id in w.tracks && i < |zones|
    ensures var o := VisitAll(c, b, zones[..i], now, baseline);
            var w' := Commit(w, id, o);
            && id in w'.tracks && w'.tracks[id].book == o.book
            && Commit(w', id, Visit(c, o.book, zones[i], now, baseline)) ==
               Commit(w, id, VisitAll(c, b, zones[..i + 1], now, baseline))
  {
    var o := VisitAll(c, b, zones[..i], now, baseline);
    CommitThen(w, id, o, Visit(c, o.book, zones[i], now, baseline));
    assert zones[..i + 1][..i] == zones[..i];
  }

  ghost predicate AllZoned(w: World) {
    forall id :: id in w.tracks ==> Zoned(w.tracks[id].book)
  }

  lemma {:induction false} CommitKeepsValid(w: World, id: int, o: Outcome)
    requires WellFormed(w) && AllZoned(w) && id in w.tracks && Zoned(o.book)
    ensures WellFormed(Commit(w, id, o)) && AllZoned(Commit(w, id, o))
  {
  }

  /** Committing twice to one track is committing the joint outcome. */
  lemma {:induction false} CommitThen(w: World, id: int, o: Outcome, o': Outcome)
    requires id in w.tracks
    ensures Commit(Commit(w, id, o), id, o') == Commit(w, id, Outcome(o'.book, o.events + o'.events))
  {
    EmitAllThenPut(PutBook(w, id, o.book), id, o.events, o'.book);
    assert PutBook(PutBook(w, id, o.book), id, o'.book) == PutBook(w, id, o'.book);
    EmitAllConcat(PutBook(w, id, o'.book), id, o.events, o'.events);
  }

  lemma {:induction false} CommitNothing(w: World, id: int)
    requires id in w.tracks
    ensures Commit(w, id, Outcome(w.tracks[id].book, [])) == w
  {
    assert PutBook(w, id, w.tracks[id].book) == w;
  }

  /** Pairing departures pays no attention to the presences. */
  lemma {:induction false} DepartAnyway(c: Config, b: Book, ps: seq<Presence>, gone: seq<Presence>)
    ensures var o, o' := DepartAll(c, b, gone), DepartAll(c, b.(presences := ps), gone);
            o'.events == o.events && o'.book == o.book.(presences := ps)
  {
    if gone != [] {
      DepartAnyway(c, b, ps, gone[..|gone| - 1]);
    }
  }

  lemma {:induction false} DepartAppend(c: Config, b: Book, gone: seq<Presence>, p: Presence)
    ensures var o := DepartAll(c, b, gone);
            var o' := PairExit(c, o.book, ExitOf(p));
            DepartAll(c, b, gone + [p]) == Outcome(o'.book, o.events + o'.events)
  {
    assert (gone + [p])[..|gone|] == gone;
  }

  /** Dropping one presence and pairing its departure is one more departure. */
  lemma {:induction false} LeaveStep(c: Config, w: World, id: int, b: Book, from: seq<Presence>, to: seq<Presence>,
                                     gone: seq<Presence>, p: Presence)
    requires id in w.tracks
    ensures var o := DepartAll(c, b.(presences := from), gone);
            var b' := o.book.(presences := to);
            id in Commit(w, id, o).tracks &&
            Commit(PutBook(Commit(w, id, o), id, b'), id, Movements.PairExit(c, b', ExitOf(p))) ==
            Commit(w, id, DepartAll(c, b.(presences := to), gone + [p]))
  {
    var o := DepartAll(c, b.(presences := from), gone);
    var b' := o.book.(presences := to);
    DepartAnyway(c, b.(presences := from), to, gone);
    EmitAllThenPut(PutBook(w, id, o.book), id, o.events, b');
    assert PutBook(PutBook(w, id, o.book), id, b') == PutBook(w, id, b');
    CommitThen(w, id, Outcome(b', o.events), Movements.PairExit(c, b', ExitOf(p)));
    DepartAppend(c, b.(presences := to), gone, p);
  }

  lemma {:induction false} IndexOfMiddle(a: seq<Presence>, p: Presence, z: seq<Presence>)
    requires OnePerZone(a + [p] + z)
    ensures IndexOf(a + [p] + z, p.zone) == Some(|a|)
    ensures Without(a + [p] + z, |a|) == a + z
  {
    var ps := a + [p] + z;
    assert ps[|a|] == p && p in ps;
  }

  lemma {:induction false} StaysThenRest(snapshot: seq<Presence>, k: nat, keep: Presence -> bool)
    requires k <= |snapshot| && OnePerZone(snapshot)
    ensures OnePerZone(Filter(snapshot[..k], keep) + snapshot[k..])
  {
    ZonedFilter(snapshot[..k], keep);
    FilterMembers(snapshot[..k], keep);
    var kept := Filter(snapshot[..k], keep);
    forall i, j | 0 <= i < |kept| && k <= j < |snapshot| ensures kept[i].zone != snapshot[j].zone {
      assert kept[i] in snapshot[..k];
    }
  }

  /** Departures with the first `k` presences of the snapshot gone through. */
  function LeftSoFar(c: Config, b: Book, k: nat, inside: seq<ZoneId>, now: Time): Outcome
    requires k <= |b.presences|
  {
    DepartAll(c, b.(presences := Filter(b.presences[..k], Stays(c, inside, now)) + b.presences[k..]),
              Filter(b.presences[..k], Goes(c, inside, now)))
  }

  lemma {:induction false} LeftAtStart(c: Config, b: Book, inside: seq<ZoneId>, now: Time)
    ensures LeftSoFar(c, b, 0, inside, now) == Outcome(b, [])
    ensures LeftSoFar(c, b, |b.presences|, inside, now) == Leave(c, b, inside, now)
  {
    var ps, n := b.presences, |b.presences|;
    assert [] + ps[0..] == ps && ps[..n] == ps;
    assert Filter(ps, Stays(c, inside, now)) + ps[n..] == Filter(ps, Stays(c, inside, now));
  }

  lemma {:induction false} LeftStays(c: Config, b: Book, k: nat, inside: seq<ZoneId>, now: Time)
    requires k < |b.presences| && Lingers(c, inside, now, b.presences[k])
    ensures LeftSoFar(c, b, k + 1, inside, now) == LeftSoFar(c, b, k, inside, now)
  {
    var p, ps := b.presences[k], b.presences;
    assert ps[..k + 1] == ps[..k] + [p];
    FilterAppend(ps[..k], p, Stays(c, inside, now));
    FilterAppend(ps[..k], p, Goes(c, inside, now));
    assert Filter(ps[..k], Stays(c, inside, now)) + ps[k..] == Filter(ps[..k + 1], Stays(c, inside, now)) + ps[k + 1..];
    assert Filter(ps[..k], Goes(c, inside, now)) == Filter(ps[..k + 1], Goes(c, inside, now));
  }

  lemma {:induction false} LeftGoes(c: Config, w: World, id: int, b: Book, k: nat, inside: seq<ZoneId>, now: Time)
    requires id in w.tracks && k < |b.presences| && !Lingers(c, inside, now, b.presences[k]) && Zoned(b)
    ensures var o, p := LeftSoFar(c, b, k, inside, now), b.presences[k];
            var at := IndexOf(o.book.presences, p.zone);
            at.Some? && id in Commit(w, id, o).tracks &&
            var b' := o.book.(presences := Without(o.book.presences, at.value));
            Commit(PutBook(Commit(w, id, o), id, b'), id, Movements.PairExit(c, b', ExitOf(p))) ==
            Commit(w, id, LeftSoFar(c, b, k + 1, inside, now))
  {
    var p, ps := b.presences[k], b.presences;
    var kept, rest, gone := Filter(ps[..k], Stays(c, inside, now)), ps[k + 1..], Filter(ps[..k], Goes(c, inside, now));
    assert ps[..k + 1] == ps[..k] + [p];
    FilterAppend(ps[..k], p, Stays(c, inside, now));
    FilterAppend(ps[..k], p, Goes(c, inside, now));
    assert kept + ps[k..] == kept + [p] + rest;
    assert Filter(ps[..k + 1], Stays(c, inside, now)) == kept;
    DepartAllKeepsPresences(c, b.(presences := kept + [p] + rest), gone);
    StaysThenRest(ps, k, Stays(c, inside, now));
    IndexOfMiddle(kept, p, rest);
    LeaveStep(c, w, id, b, kept + [p] + rest, kept + rest, gone, p);
  }

  lemma {:induction false} LeaveZoned(c: Config, b: Book, inside: seq<ZoneId>, now: Time)
    requires Zoned(b)
    ensures Zoned(Leave(c, b, inside, now).book)
  {
    ZonedFilter(b.presences, Stays(c, inside, now));
    DepartAllKeepsPresences(c, b.(presences := Filter(b.presences, Stays(c, inside, now))),
                            Filter(b.presences, Goes(c, inside, now)));
  }

  /** The tracks old enough to be counted, a repeated id overwriting in place. */
  method SettledTracks(minAge: int, sightings: seq<Sighting>) returns (settled: seq<Settled>)
    ensures settled == Settle(minAge, sightings)
  {
    settled := [];
    var i := 0;
    while i < |sightings|
      invariant i <= |sightings|
      invariant settled == Settle(minAge, sightings[..i])
    {
      var s := sightings[i];
      assert sightings[..i + 1][..i] == sightings[..i];
      if s.age >= minAge {
        var at := PositionOf(settled, s.id);
        if at.Some? {
          settled := settled[at.value := Settled(s.id, s.inside)];
        } else {
          settled := settled + [Settled(s.id, s.inside)];
        }
      }
      i := i + 1;
    }
    assert sightings[..i] == sightings;
  }

  class Tracker {
    const cfg: Config
    const zones: set<ZoneId>
    var ids: seq<int>
    var tracks: map<int, TrackState>
    var entries: map<ZoneId, seq<Time>>
    var exits: map<ZoneId, seq<Time>>
    var transitions: seq<Transition>
    var first: Option<Time>
    var last: Option<Time>
    ghost var log: seq<Tagged<Event>>

    ghost function World(): World
      reads this
    {
      Transitions.World(ids, tracks, entries, exits, transitions, log)
    }

    ghost function State(): Session
      reads this
    {
      Session(World(), first, last)
    }

    ghost predicate Valid()
      reads this
    {
      WellFormed(World()) && AllZoned(World())
    }

    constructor (cfg: Config, zones: set<ZoneId>)
      requires ValidConfig(cfg)
      ensures this.cfg == cfg && this.zones == zones
      ensures Valid() && State() == Init(zones)
    {
      this.cfg, this.zones := cfg, zones;
      ids, tracks, transitions, log := [], map[], [], [];
      entries, exits := map z | z in zones :: [], map z | z in zones :: [];
      first, last := None, None;
    }

    method Reset()
      modifies this
      ensures Valid() && State() == Init(zones)
    {
      ids, tracks, transitions, log := [], map[], [], [];
      entries, exits := map z | z in zones :: [], map z | z in zones :: [];
      first, last := None, None;
    }

    /** The scan over the waiting departures makes the specified choice, and the entry is logged with it. */
    method PairEntry(id: int, zone: ZoneId, now: Time)
      requires id in tracks
      modifies this`tracks, this`entries, this`transitions, this`log
      ensures World() == Commit(old(World()), id, Movements.PairEntry(cfg, old(tracks[id].book), Entry(zone, now)))
    {
      ghost var w := World();
      var e := Entry(zone, now);
      var book := tracks[id].book;
      entries := AppendTo(entries, zone, now);
      log := log + [Tagged(id, Entered(e))];
      ghost var counted := World();
      var best: Option<nat> := None;
      var i := 0;
      while i < |book.exits|
        invariant World() == counted
        invariant i <= |book.exits|
        invariant best == Best(book.exits[..i], Precedes(cfg, e), Latest())
      {
        var departure := book.exits[i];
        if MayPair(cfg, departure, e) && (best.None? || departure.leftAt > book.exits[best.value].leftAt) {
          best := Some(i);
        }
        BestAppend(book.exits[..i], departure, Precedes(cfg, e), Latest());
        assert book.exits[..i + 1] == book.exits[..i] + [departure];
        i := i + 1;
      }
      assert book.exits[..i] == book.exits;
      if best.None? {
        tracks := tracks[id := tracks[id].(book := book.(entries := book.entries + [e]))];
        EmitOne(PutBook(w, id, tracks[id].book), id, Entered(e));
      } else {
        var x := book.exits[best.value];
        tracks := tracks[id := tracks[id].(book := book.(exits := Without(book.exits, best.value)))];
        Record(id, x, e);
        EmitTwo(PutBook(w, id, tracks[id].book), id, Entered(e), Moved(x, e));
      }
    }

    method Record(id: int, x: Exit, e: Entry)
      modifies this`transitions, this`log
      ensures World() == Emit(old(World()), id, Moved(x, e))
    {
      transitions := transitions
        + [Transition(Max(x.leftAt, e.enteredAt), x.zone, e.zone, Max(0.0, e.enteredAt - x.leftAt))];
      log := log + [Tagged(id, Moved(x, e))];
    }

    /** The scan over the waiting entries makes the specified choice, and the departure is logged with it. */
    method PairExit(id: int, x: Exit)
      requires id in tracks
      modifies this`tracks, this`exits, this`transitions, this`log
      ensures World() == Commit(old(World()), id, Movements.PairExit(cfg, old(tracks[id].book), x))
    {
      ghost var w := World();
      var book := tracks[id].book;
      exits := AppendTo(exits, x.zone, x.leftAt);
      log := log + [Tagged(id, Left(x))];
      ghost var counted := World();
      var best: Option<nat> := None;
      var i := 0;
      while i < |book.entries|
        invariant World() == counted
        invariant i <= |book.entries|
        invariant best == Best(book.entries[..i], Follows(cfg, x), Earliest())
      {
        var e := book.entries[i];
        if MayPair(cfg, x, e) && (best.None? || e.enteredAt < book.entries[best.value].enteredAt) {
          best := Some(i);
        }
        BestAppend(book.entries[..i], e, Follows(cfg, x), Earliest());
        assert book.entries[..i + 1] == book.entries[..i] + [e];
        i := i + 1;
      }
      assert book.entries[..i] == book.entries;
      if best.None? {
        tracks := tracks[id := tracks[id].(book := book.(exits := book.exits + [x]))];
        EmitOne(PutBook(w, id, tracks[id].book), id, Left(x));
      } else {
        var e := book.entries[best.value];
        tracks := tracks[id := tracks[id].(book := book.(entries := Without(book.entries, best.value)))];
        Record(id, x, e);
        EmitTwo(PutBook(w, id, tracks[id].book), id, Left(x), Moved(x, e));
      }
    }
  
    /** One zone the track is inside. */
    method Visit(id: int, zone: ZoneId, now: Time, baseline: bool)
      requires id in tracks
      modifies this`tracks, this`entries, this`transitions, this`log
      ensures World() == Commit(old(World()), id, Movements.Visit(cfg, old(tracks[id].book), zone, now, baseline))
    {
      ghost var w := World();
      var book := tracks[id].book;
      var at := IndexOf(book.presences, zone);
      if at.Some? {
        var ps := book.presences[at.value := book.presences[at.value].(lastSeenAt := now)];
        tracks := tracks[id := tracks[id].(book := book.(presences := ps))];
      } else {
        var book' := book.(presences := book.presences + [Presence(zone, now, now)]);
        tracks := tracks[id := tracks[id].(book := book')];
        if baseline {
          log := log + [Tagged(id, Appeared(zone))];
          EmitOne(PutBook(w, id, book'), id, Appeared(zone));
        } else {
          ghost var o := Movements.PairEntry(cfg, book', Entry(zone, now));
          assert PutBook(World(), id, o.book) == PutBook(w, id, o.book);
          PairEntry(id, zone, now);
        }
      }
    }

    /** A settled track: it is now known, and inside these zones. */
    method Arrive(s: Settled, now: Time, baseline: bool)
      requires Valid()
      modifies this`ids, this`tracks, this`entries, this`transitions, this`log
      ensures Valid() && World() == Transitions.Arrive(cfg, old(World()), s, now, baseline)
    {
      Touch(s.id, now);
      VisitMarks(cfg, tracks[s.id].book, s.inside, now, baseline);
      CommitKeepsValid(World(), s.id, VisitAll(cfg, tracks[s.id].book, s.inside, now, baseline));
      VisitEach(s, now, baseline);
    }

    method VisitEach(s: Settled, now: Time, baseline: bool)
      requires s.id in tracks
      modifies this`tracks, this`entries, this`transitions, this`log
      ensures World() == Commit(old(World()), s.id, VisitAll(cfg, old(tracks[s.id].book), s.inside, now, baseline))
    {
      ghost var w1 := World();
      ghost var b := tracks[s.id].book;
      CommitNothing(w1, s.id);
      var i := 0;
      while i < |s.inside|
        invariant i <= |s.inside|
        invariant s.id in w1.tracks && s.id in tracks
        invariant World() == Commit(w1, s.id, VisitAll(cfg, b, s.inside[..i], now, baseline))
      {
        VisitStep(cfg, w1, s.id, b, s.inside, i, now, baseline);
        Visit(s.id, s.inside[i], now, baseline);
        i := i + 1;
      }
      assert s.inside[..i] == s.inside;
    }

    /** The track is known, and was last seen now. */
    method Touch(id: int, now: Time)
      requires Valid()
      modifies this`ids, this`tracks
      ensures Valid() && id in tracks && World() == Transitions.Touch(old(World()), id, now)
    {
      TouchView(World(), id, now, id);
      if id !in tracks {
        ids := ids + [id];
        tracks := tracks[id := TrackState(now, BLANK)];
      } else {
        tracks := tracks[id := tracks[id].(lastSeenAt := now)];
      }
    }

    /** Turn this track's absences beyond the grace period into departures. */
    method EndAbsent(id: int, inside: seq<ZoneId>, now: Time)
      requires Valid() && id in tracks
      modifies this`tracks, this`exits, this`transitions, this`log
      ensures Valid() && World() == Commit(old(World()), id, Leave(cfg, old(tracks[id].book), inside, now))
    {
      ghost var w := World();
      ghost var b := tracks[id].book;
      var snapshot := tracks[id].book.presences;
      var k := 0;
      LeftAtStart(cfg, b, inside, now);
      CommitNothing(w, id);
      while k < |snapshot|
        invariant k <= |snapshot| && id in tracks
        invariant World() == Commit(w, id, LeftSoFar(cfg, b, k, inside, now))
      {
        var p := snapshot[k];
        if Lingers(cfg, inside, now, p) {
          LeftStays(cfg, b, k, inside, now);
        } else {
          LeftGoes(cfg, w, id, b, k, inside, now);
          DropPresence(id, p.zone);
          PairExit(id, ExitOf(p));
        }
        k := k + 1;
      }
      LeaveZoned(cfg, b, inside, now);
      CommitView(w, id, Leave(cfg, b, inside, now), id);
    }

    /** Forget the presence in a zone. */
    method DropPresence(id: int, zone: ZoneId)
      requires id in tracks && IndexOf(tracks[id].book.presences, zone).Some?
      modifies this`tracks
      ensures var b := old(tracks[id].book);
              World()
                == PutBook(old(World()), id, b.(presences := Without(b.presences, IndexOf(b.presences, zone).value)))
    {
      var b := tracks[id].book;
      var at := IndexOf(b.presences, zone);
      tracks := tracks[id := tracks[id].(book := b.(presences := Without(b.presences, at.value)))];
    }
  
    method EndAbsentPresences(now: Time, settled: seq<Settled>)
      requires Valid()
      modifies this`tracks, this`exits, this`transitions, this`log
      ensures Valid() && World() == LeaveAll(cfg, old(World()), old(ids), settled, now)
    {
      ghost var w := World();
      var i := 0;
      while i < |ids|
        invariant i <= |ids| && Valid()
        invariant World() == LeaveAll(cfg, w, ids[..i], settled, now)
      {
        var id := ids[i];
        assert id in ids;
        assert ids[..i + 1][..i] == ids[..i];
        EndAbsent(id, InsideOf(settled, id), now);
        i := i + 1;
      }
      assert ids[..i] == ids;
    }

    /** Discard this track's movements that can no longer pair, and the track itself once nothing is left of it. */
    method PruneTrack(id: int, now: Time)
      requires Valid()
      modifies this`ids, this`tracks, this`log
      ensures Valid() && World() == PruneOne(cfg, old(World()), id, now)
    {
      if id in tracks {
        ghost var w := World();
        var book := tracks[id].book;
        ghost var o := Expire(cfg, book, now);
        var kept := Book(book.presences,
                         Filter(book.exits, LiveExit(ExitHorizon(cfg, now))),
                         Filter(book.entries, LiveEntry(EntryHorizon(cfg, now))));
        tracks := tracks[id := tracks[id].(book := kept)];
        log := EmitAll(World(), id, o.events).log;
        W.ExpiryKeepsWindows(PutBook(w, id, o.book), id, o.events);
        assert World() == Commit(w, id, o);
        CommitView(w, id, o, id);
        if Idle(kept) && now - tracks[id].lastSeenAt > cfg.grace {
          RemoveView(World(), id, id);
          tracks := tracks - {id};
          ids := Filter(ids, NotId(id));
        }
      }
    }

    method PruneTracks(now: Time)
      requires Valid()
      modifies this`ids, this`tracks, this`log
      ensures Valid() && World() == PruneAll(cfg, old(World()), old(ids), now)
    {
      ghost var w := World();
      var all := ids;
      var i := 0;
      while i < |all|
        invariant i <= |all| && Valid()
        invariant World() == PruneAll(cfg, w, all[..i], now)
      {
        assert all[..i + 1][..i] == all[..i];
        PruneTrack(all[i], now);
        i := i + 1;
      }
      assert all[..i] == all;
    }

    /** Age the rolling windows. */
    method PruneQueues(now: Time)
      modifies this`entries, this`exits, this`transitions
      ensures World() == PruneWindows(cfg, old(World()), now)
    {
      entries := PopAllStale(entries, Older(now - cfg.window));
      exits := PopAllStale(exits, Older(now - cfg.window));
      transitions := PopStale(transitions, OlderMove(now - cfg.window));
    }

    /** Arrivals. */
    method ArriveEveryone(settled: seq<Settled>, now: Time, baseline: bool)
      requires Valid()
      modifies this`ids, this`tracks, this`entries, this`transitions, this`log
      ensures Valid() && World() == ArriveAll(cfg, old(World()), settled, now, baseline)
    {
      ghost var w := World();
      var i := 0;
      while i < |settled|
        invariant i <= |settled| && Valid()
        invariant World() == ArriveAll(cfg, w, settled[..i], now, baseline)
      {
        assert settled[..i + 1][..i] == settled[..i];
        Arrive(settled[i], now, baseline);
        i := i + 1;
      }
      assert settled[..i] == settled;
    }

    /** Arrivals, departures and pruning, in that order. */
    method Fold(settled: seq<Settled>, now: Time, baseline: bool)
      requires Valid()
      modifies this`ids, this`tracks, this`entries, this`exits, this`transitions, this`log
      ensures Valid()
      ensures World() == PruneWindows(cfg, Act(cfg, Policy.Prune, old(World()), settled, now, baseline), now)
    {
      ArriveEveryone(settled, now, baseline);
      EndAbsentPresences(now, settled);
      PruneTracks(now);
      PruneQueues(now);
    }

    /** One step of the machine, and the report on the state it leads to. */
    method Observe(f: Frame) returns (report: Report)
      requires Valid()
      modifies this
      ensures Valid() && State() == Step(cfg, Policy.Prune, zones, old(State()), f)
      ensures report == ReportOf(cfg, State(), f.sightings)
    {
      if last.Some? && f.now < last.value {
        Reset();
      }
      var baseline := first.None?;
      if baseline {
        first := Some(f.now);
      }
      last := Some(f.now);
      var settled := SettledTracks(cfg.minAge, f.sightings);
      Fold(settled, f.now, baseline);
      report := MakeReport(f.sightings);
    }

    method MakeReport(sightings: seq<Sighting>) returns (report: Report)
      requires first.Some? && last.Some?
      ensures report == ReportOf(cfg, State(), sightings)
    {
      var grouped := GroupTransits(transitions);
      var observed := Max(0.0, last.value - first.value);
      var zoneReports := map z | z in entries && z in exits :: SnapshotOf(sightings, z);
      var routes := map r | r in grouped :: SummaryOf(grouped[r]);
      report := Report(zoneReports, routes, observed);
    }

    function SnapshotOf(sightings: seq<Sighting>, z: ZoneId): (r: ZoneReport)
      requires first.Some? && last.Some? && z in entries && z in exits
      reads this
      ensures r == ZoneReportOf(cfg, State(), sightings, z)
    {
      ZoneReport(z, Occupancy(sightings, z), |entries[z]|, |exits[z]|, PerMinute(|entries[z]|), PerMinute(|exits[z]|))
    }

    function SummaryOf(transits: seq<real>): (r: RouteReport)
      requires first.Some? && last.Some? && transits != []
      reads this
      ensures r == RouteReportOf(cfg, State(), transits)
    {
      RouteReport(|transits|, PerMinute(|transits|), Medians.Median(transits))
    }

    function PerMinute(count: nat): (r: real)
      requires first.Some? && last.Some?
      reads this
      ensures r == RatePerMin(cfg, State(), count)
    {
      var elapsed := Min(Max(0.0, last.value - first.value), cfg.window);
      if elapsed >= 1.0 then count as real / (elapsed / 60.0) else 0.0
    }
  }

  /** The transit times of each route taken, filled in one transition at a time. */
  method GroupTransits(ts: seq<Transition>) returns (grouped: map<Route, seq<real>>)
    ensures grouped.Keys == RoutesOf(ts)
    ensures forall r :: r in grouped ==> grouped[r] == TransitsOn(ts, r) && grouped[r] != []
  {
    grouped := map[];
    for i := 0 to |ts|
      invariant forall r :: r in grouped <==> TransitsOn(ts[..i], r) != []
      invariant forall r :: r in grouped ==> grouped[r] == TransitsOn(ts[..i], r)
    {
      var r := RouteOf(ts[i]);
      assert ts[..i + 1][..i] == ts[..i];
      grouped := grouped[r := (if r in grouped then grouped[r] else []) + [ts[i].transit]];
    }
    assert ts[..|ts|] == ts;
    forall r ensures r in grouped <==> r in RoutesOf(ts) {
      TakenRoute(ts, r);
    }
  }
}
