/** The stays of one track in one zone, told by the frames alone: when each began, when the track was last seen in it,
    and when it ended (ai/surgeguard_ai/zones/transitions.py). */
module ZoneStays {
  import opened Common
  import opened Choose
  import opened Logs
  import opened Movements
  import opened Pruning
  import opened Transitions
  import opened Projection
  import opened TransitionTheorems
  import opened FirstSettling

  datatype Stay = Stay(began: Time, seen: Time)

  // -- What the frames say ----------------------------------------------------------------------------------

  /** The zones a track old enough is inside, by the last detection that carries its id. */
  function ZonesOf(minAge: int, sightings: seq<Sighting>, y: int): seq<ZoneId> {
    if sightings == [] then []
    else
      var s := sightings[|sightings| - 1];
      if s.id == y && s.age >= minAge then s.inside else ZonesOf(minAge, sightings[..|sightings| - 1], y)
  }

  /** Going on or beginning when the track is inside; over once it has been out of sight for the grace period. */
  function NextStay(c: Config, stay: Option<Stay>, inside: bool, now: Time): Option<Stay> {
    if inside then Some(if stay.Some? then stay.value.(seen := now) else Stay(now, now))
    else if stay.Some? && now - stay.value.seen >= c.grace then None
    else stay
  }

  /** A stay that begins is counted unless it was found when observation began; one that ends is dated back to when the
      track was last seen in the zone. */
  function Happened(c: Config, z: ZoneId, stay: Option<Stay>, inside: bool, now: Time, baseline: bool): seq<Event> {
    if inside && stay.None? then (if baseline then [Appeared(z)] else [Entered(Entry(z, now))])
    else if !inside && stay.Some? && now - stay.value.seen >= c.grace
      then [Left(Exit(z, stay.value.began, stay.value.seen))]
    else []
  }

  /** Nothing is remembered at the first frame, nor at one that runs behind the last one. */
  predicate Starts(frames: seq<Frame>, now: Time) {
    frames == [] || Rewinds(frames, now)
  }

  /** The time at which the present observation began. */
  function StartOf(frames: seq<Frame>): Option<Time> {
    if frames == [] then None
    else
      var n := |frames| - 1;
      if Starts(frames[..n], frames[n].now) then Some(frames[n].now) else StartOf(frames[..n])
  }

  function StayAfter(c: Config, frames: seq<Frame>, y: int, z: ZoneId): Option<Stay>
    decreases |frames|, 0
  {
    if frames == [] then None
    else
      var n := |frames| - 1;
      NextStay(c, StayBefore(c, frames[..n], frames[n].now, y, z), z in ZonesOf(c.minAge, frames[n].sightings, y),
               frames[n].now)
  }

  function StayBefore(c: Config, frames: seq<Frame>, now: Time, y: int, z: ZoneId): Option<Stay>
    decreases |frames|, 1
  {
    if Starts(frames, now) then None else StayAfter(c, frames, y, z)
  }

  /** The beginnings and ends of the stays since observation began. */
  function StayLog(c: Config, frames: seq<Frame>, y: int, z: ZoneId): seq<Event> {
    if frames == [] then []
    else
      var n := |frames| - 1;
      var f, starts := frames[n], Starts(frames[..n], frames[n].now);
      (if starts then [] else StayLog(c, frames[..n], y, z))
      + Happened(c, z, StayBefore(c, frames[..n], f.now, y, z), z in ZonesOf(c.minAge, f.sightings, y), f.now, starts)
  }

  // -- What a book says -------------------------------------------------------------------------------------

  /** The beginnings and ends of stays in a zone. */
  function OfZone(z: ZoneId): Event -> bool {
    (ev: Event) => ev == Appeared(z) || (ev.Entered? && ev.entry.zone == z) || (ev.Left? && ev.exit.zone == z)
  }

  ghost predicate HasStay(ps: seq<Presence>, z: ZoneId, stay: Option<Stay>) {
    match stay
    case None => forall p :: p in ps ==> p.zone != z
    case Some(st) =>
      Presence(z, st.began, st.seen) in ps && forall p :: p in ps && p.zone == z ==> p == Presence(z, st.began, st.seen)
  }

  /** What happened in a zone, and the stay it leads to. */
  ghost predicate Tells(o: Outcome, z: ZoneId, stay: Option<Stay>, happened: seq<Event>) {
    Zoned(o.book) && HasStay(o.book.presences, z, stay) && Filter(o.events, OfZone(z)) == happened
  }

  lemma {:induction false} TellsThen(o: Outcome, o': Outcome, z: ZoneId, stay: Option<Stay>, h: seq<Event>,
                                     h': seq<Event>)
    requires Filter(o.events, OfZone(z)) == h && Tells(o', z, stay, h')
    ensures Tells(Outcome(o'.book, o.events + o'.events), z, stay, h + h')
  {
    FilterConcat(o.events, o'.events, OfZone(z));
  }

  lemma {:induction false} FilterOne<T>(x: T, keep: T -> bool)
    ensures Filter([x], keep) == if keep(x) then [x] else []
  {
    FilterAppend([], x, keep);
  }

  lemma {:induction false} FilterTwo<T>(x: T, y: T, keep: T -> bool)
    requires !keep(y)
    ensures Filter([x, y], keep) == if keep(x) then [x] else []
  {
    assert [x, y] == [x] + [y];
    FilterAppend([x], y, keep);
    FilterOne(x, keep);
  }

  lemma {:induction false} PairEntryTells(c: Config, b: Book, e: Entry, z: ZoneId)
    ensures PairEntry(c, b, e).book.presences == b.presences
    ensures Filter(PairEntry(c, b, e).events, OfZone(z)) == if e.zone == z then [Entered(e)] else []
  {
    JoinEntryTells(b, e, Best(b.exits, Precedes(c, e), Latest()), z);
  }

  lemma {:induction false} JoinEntryTells(b: Book, e: Entry, choice: Option<nat>, z: ZoneId)
    requires choice.Some? ==> choice.value < |b.exits|
    ensures JoinEntry(b, e, choice).book.presences == b.presences
    ensures Filter(JoinEntry(b, e, choice).events, OfZone(z)) == if e.zone == z then [Entered(e)] else []
  {
    match choice
    case Some(i) => FilterTwo(Entered(e), Moved(b.exits[i], e), OfZone(z));
    case None => FilterOne(Entered(e), OfZone(z));
  }

  lemma {:induction false} PairExitTells(c: Config, b: Book, x: Exit, z: ZoneId)
    ensures PairExit(c, b, x).book.presences == b.presences
    ensures Filter(PairExit(c, b, x).events, OfZone(z)) == if x.zone == z then [Left(x)] else []
  {
    JoinExitTells(b, x, Best(b.entries, Follows(c, x), Earliest()), z);
  }

  lemma {:induction false} JoinExitTells(b: Book, x: Exit, choice: Option<nat>, z: ZoneId)
    requires choice.Some? ==> choice.value < |b.entries|
    ensures JoinExit(b, x, choice).book.presences == b.presences
    ensures Filter(JoinExit(b, x, choice).events, OfZone(z)) == if x.zone == z then [Left(x)] else []
  {
    match choice
    case Some(i) => FilterTwo(Left(x), Moved(x, b.entries[i]), OfZone(z));
    case None => FilterOne(Left(x), OfZone(z));
  }

  function SeenNow(stay: Option<Stay>, now: Time): Stay {
    if stay.Some? then stay.value.(seen := now) else Stay(now, now)
  }

  function Begun(z: ZoneId, stay: Option<Stay>, now: Time, baseline: bool): seq<Event> {
    if stay.Some? then [] else if baseline then [Appeared(z)] else [Entered(Entry(z, now))]
  }

  lemma {:induction false} RefreshStay(ps: seq<Presence>, i: nat, now: Time, z: ZoneId, stay: Option<Stay>)
    requires OnePerZone(ps) && i < |ps| && HasStay(ps, z, stay)
    ensures var r := ps[i := ps[i].(lastSeenAt := now)];
            && OnePerZone(r)
            && HasStay(r, z, if ps[i].zone == z then Some(SeenNow(stay, now)) else stay)
    ensures ps[i].zone == z ==> stay.Some?
  {
    var r := ps[i := ps[i].(lastSeenAt := now)];
    assert ps[i] in ps;
    if stay.Some? && ps[i].zone != z {
      var k :| 0 <= k < |ps| && ps[k] == Presence(z, stay.value.began, stay.value.seen);
      assert r[k] == ps[k];
    }
    if ps[i].zone == z {
      assert r[i] == Presence(z, stay.value.began, now);
      forall k | 0 <= k < |r| && r[k].zone == z ensures k == i {
        assert ps[k].zone == z;
      }
    }
  }

  lemma {:induction false} AddStay(ps: seq<Presence>, p: Presence, z: ZoneId, stay: Option<Stay>)
    requires OnePerZone(ps) && HasStay(ps, z, stay) && forall q :: q in ps ==> q.zone != p.zone
    ensures OnePerZone(ps + [p])
    ensures HasStay(ps + [p], z, if p.zone == z then Some(Stay(p.enteredAt, p.lastSeenAt)) else stay)
    ensures p.zone == z ==> stay.None?
  {
    forall i | 0 <= i < |ps| ensures ps[i].zone != p.zone {
      assert ps[i] in ps;
    }
    assert (ps + [p])[|ps|] == p;
  }

  /** Seen in `zone`: its stay goes on or begins, and no other one changes. */
  lemma {:induction false} VisitTells(c: Config, b: Book, zone: ZoneId, now: Time, baseline: bool, z: ZoneId,
                                      stay: Option<Stay>)
    requires Zoned(b) && HasStay(b.presences, z, stay)
    ensures Tells(Visit(c, b, zone, now, baseline), z, if zone == z then Some(SeenNow(stay, now)) else stay,
                  if zone == z then Begun(z, stay, now, baseline) else [])
  {
    match IndexOf(b.presences, zone)
    case Some(i) => RefreshStay(b.presences, i, now, z, stay);
    case None =>
      var p := Presence(zone, now, now);
      AddStay(b.presences, p, z, stay);
      if baseline {
        FilterOne(Appeared(zone), OfZone(z));
      } else {
        PairEntryTells(c, b.(presences := b.presences + [p]), Entry(zone, now), z);
      }
  }

  lemma {:induction false} VisitAllTells(c: Config, b: Book, zones: seq<ZoneId>, now: Time, baseline: bool, z: ZoneId,
                                         stay: Option<Stay>)
    requires Zoned(b) && HasStay(b.presences, z, stay)
    ensures Tells(VisitAll(c, b, zones, now, baseline), z, if z in zones then Some(SeenNow(stay, now)) else stay,
                  if z in zones then Begun(z, stay, now, baseline) else [])
  {
    if zones != [] {
      var n := |zones| - 1;
      var o, stay1 := VisitAll(c, b, zones[..n], now, baseline),
                      if z in zones[..n] then Some(SeenNow(stay, now)) else stay;
      assert zones == zones[..n] + [zones[n]];
      VisitAllTells(c, b, zones[..n], now, baseline, z, stay);
      VisitTells(c, o.book, zones[n], now, baseline, z, stay1);
      var h := if z in zones[..n] then Begun(z, stay, now, baseline) else [];
      var h' := if zones[n] == z then Begun(z, stay1, now, baseline) else [];
      TellsThen(o, Visit(c, o.book, zones[n], now, baseline), z,
                if zones[n] == z then Some(SeenNow(stay1, now)) else stay1, h, h');
    }
  }

  lemma {:induction false} DepartAllTells(c: Config, b: Book, gone: seq<Presence>, z: ZoneId, stay: Option<Stay>)
    requires OnePerZone(gone) && HasStay(gone, z, stay)
    ensures DepartAll(c, b, gone).book.presences == b.presences
    ensures Filter(DepartAll(c, b, gone).events, OfZone(z))
              == if stay.Some? then [Left(Exit(z, stay.value.began, stay.value.seen))] else []
  {
    if gone != [] {
      var n := |gone| - 1;
      assert gone == gone[..n] + [gone[n]];
      var stay0 := if gone[n].zone == z then None else stay;
      LastLeaves(gone, z, stay);
      DepartAllTells(c, b, gone[..n], z, stay0);
      var o := DepartAll(c, b, gone[..n]);
      PairExitTells(c, o.book, ExitOf(gone[n]), z);
      FilterConcat(o.events, PairExit(c, o.book, ExitOf(gone[n])).events, OfZone(z));
    }
  }

  lemma {:induction false} LastLeaves(ps: seq<Presence>, z: ZoneId, stay: Option<Stay>)
    requires ps != [] && OnePerZone(ps) && HasStay(ps, z, stay)
    ensures var n := |ps| - 1;
            && OnePerZone(ps[..n]) && HasStay(ps[..n], z, if ps[n].zone == z then None else stay)
            && (ps[n].zone == z ==> stay.Some? && ps[n] == Presence(z, stay.value.began, stay.value.seen))
  {
    var n := |ps| - 1;
    assert ps[n] in ps && ps == ps[..n] + [ps[n]];
  }

  lemma {:induction false} FilterStay(ps: seq<Presence>, keep: Presence -> bool, z: ZoneId, stay: Option<Stay>)
    requires OnePerZone(ps) && HasStay(ps, z, stay)
    ensures OnePerZone(Filter(ps, keep))
    ensures HasStay(Filter(ps, keep), z,
                    if stay.Some? && keep(Presence(z, stay.value.began, stay.value.seen)) then stay else None)
  {
    ZonedFilter(ps, keep);
    FilterMembers(ps, keep);
  }

  /** Only a stay out of sight for the grace period ends. */
  lemma {:induction false} LeaveTells(c: Config, b: Book, inside: seq<ZoneId>, now: Time, z: ZoneId, stay: Option<Stay>)
    requires Zoned(b) && HasStay(b.presences, z, stay)
    ensures var ends := z !in inside && stay.Some? && now - stay.value.seen >= c.grace;
            Tells(Leave(c, b, inside, now), z, if ends then None else stay,
                  if ends then [Left(Exit(z, stay.value.began, stay.value.seen))] else [])
  {
    var stays, goes := Filter(b.presences, Stays(c, inside, now)), Filter(b.presences, Goes(c, inside, now));
    FilterStay(b.presences, Stays(c, inside, now), z, stay);
    FilterStay(b.presences, Goes(c, inside, now), z, stay);
    var ends := z !in inside && stay.Some? && now - stay.value.seen >= c.grace;
    DepartAllTells(c, b.(presences := stays), goes, z, if ends then stay else None);
  }

  lemma {:induction false} ExpireTells(c: Config, b: Book, now: Time, z: ZoneId)
    ensures Expire(c, b, now).book.presences == b.presences
    ensures Filter(Expire(c, b, now).events, OfZone(z)) == []
  {
    FilterNone(Expire(c, b, now).events, OfZone(z));
  }

  /** Arrivals and departures of one frame, seen from one zone. */
  lemma {:induction false} MovementTells(c: Config, b: Book, inside: seq<ZoneId>, now: Time, baseline: bool, z: ZoneId,
                                         stay: Option<Stay>)
    requires Zoned(b) && HasStay(b.presences, z, stay)
    ensures Tells(Movement(c, b, inside, now, baseline), z, NextStay(c, stay, z in inside, now),
                  Happened(c, z, stay, z in inside, now, baseline))
  {
    var v := VisitAll(c, b, inside, now, baseline);
    var stay1 := if z in inside then Some(SeenNow(stay, now)) else stay;
    VisitAllTells(c, b, inside, now, baseline, z, stay);
    LeaveTells(c, v.book, inside, now, z, stay1);
    FilterConcat(v.events, Leave(c, v.book, inside, now).events, OfZone(z));
  }

  lemma {:induction false} StepTells(c: Config, policy: Policy, b: Book, seen: Option<seq<ZoneId>>, now: Time,
                                     baseline: bool, z: ZoneId, stay: Option<Stay>)
    requires Zoned(b) && HasStay(b.presences, z, stay)
    ensures Tells(TrackStep(c, policy, b, seen, now, baseline), z, NextStay(c, stay, z in ZonesSeen(seen), now),
                  Happened(c, z, stay, z in ZonesSeen(seen), now, baseline))
  {
    var inside := ZonesSeen(seen);
    var m := Movement(c, b, inside, now, baseline);
    MovementTells(c, b, inside, now, baseline, z, stay);
    if policy.Prune? {
      ExpireTells(c, m.book, now, z);
      FilterConcat(m.events, Expire(c, m.book, now).events, OfZone(z));
    } else {
      assert m.events + [] == m.events;
    }
  }

  // -- Over every run ---------------------------------------------------------------------------------------

  lemma {:induction false} PositionAppend(settled: seq<Settled>, s: Settled, y: int)
    ensures PositionOf(settled + [s], y) == if s.id == y then Some(|settled|) else PositionOf(settled, y)
  {
    assert (settled + [s])[..|settled|] == settled;
  }

  lemma {:induction false} PositionUpdate(settled: seq<Settled>, i: nat, s: Settled, y: int)
    requires i < |settled| && settled[i].id == s.id
    ensures PositionOf(settled[i := s], y) == PositionOf(settled, y)
  {
    var n := |settled| - 1;
    if i < n {
      PositionUpdate(settled[..n], i, s, y);
      assert settled[i := s][..n] == settled[..n][i := s];
    } else {
      assert settled[i := s][..n] == settled[..n];
    }
  }

  /** The dictionary of settled tracks holds, for each track, the zones of its last detection. */
  lemma {:induction false} SettledZones(minAge: int, sightings: seq<Sighting>, y: int)
    ensures ZonesSeen(SeenIn(Settle(minAge, sightings), y)) == ZonesOf(minAge, sightings, y)
  {
    if sightings != [] {
      var n := |sightings| - 1;
      var s, rest := sightings[n], Settle(minAge, sightings[..n]);
      SettledZones(minAge, sightings[..n], y);
      if s.age >= minAge {
        var at := PositionOf(rest, s.id);
        if at.Some? {
          PositionUpdate(rest, at.value, Settled(s.id, s.inside), y);
        } else {
          PositionAppend(rest, Settled(s.id, s.inside), y);
        }
      }
    }
  }

  /** The track's stay in a zone, and the log of its stays there, are what the frames say. */
  ghost predicate Told(c: Config, s: Session, frames: seq<Frame>, y: int, z: ZoneId) {
    && WellFormed(s.world) && s.first == StartOf(frames)
    && Tells(Outcome(View(s.world, y), LogOf(s.world.log, y)), z, StayAfter(c, frames, y, z), StayLog(c, frames, y, z))
  }

  lemma {:induction false} RewoundTells(c: Config, policy: Policy, zones: set<ZoneId>, frames: seq<Frame>, now: Time,
                                        y: int, z: ZoneId)
    requires Told(c, Run(c, policy, zones, frames), frames, y, z)
    ensures var s0 := Rewound(zones, Run(c, policy, zones, frames), now);
            && WellFormed(s0.world)
            && s0.first == (if Starts(frames, now) then None else StartOf(frames))
            && Tells(Outcome(View(s0.world, y), LogOf(s0.world.log, y)), z, StayBefore(c, frames, now, y, z),
                     if Starts(frames, now) then [] else StayLog(c, frames, y, z))
  {
    LastFrame(c, policy, zones, frames);
  }

  /** Over every run, pruned or not: in each zone the track is present if and only if the frames say that it is staying
      there, since when and seen when they say, and the stays counted in the log are those of the frames. */
  lemma {:induction false} StaysAreTold(c: Config, policy: Policy, zones: set<ZoneId>, frames: seq<Frame>, y: int,
                                        z: ZoneId)
    ensures Told(c, Run(c, policy, zones, frames), frames, y, z)
  {
    if frames != [] {
      var n := |frames| - 1;
      var s, f := Run(c, policy, zones, frames[..n]), frames[n];
      StaysAreTold(c, policy, zones, frames[..n], y, z);
      RewoundTells(c, policy, zones, frames[..n], f.now, y, z);
      StepEffect(c, policy, zones, s, f, y);
      SettledZones(c.minAge, f.sightings, y);
      var s0, seen := Rewound(zones, s, f.now), SeenIn(Settle(c.minAge, f.sightings), y);
      var starts := Starts(frames[..n], f.now);
      NoStartYet(frames[..n]);
      StepTells(c, policy, View(s0.world, y), seen, f.now, starts, z, StayBefore(c, frames[..n], f.now, y, z));
      TellsThen(Outcome(View(s0.world, y), LogOf(s0.world.log, y)),
                TrackStep(c, policy, View(s0.world, y), seen, f.now, starts), z, StayAfter(c, frames, y, z),
                if starts then [] else StayLog(c, frames[..n], y, z),
                Happened(c, z, StayBefore(c, frames[..n], f.now, y, z), z in ZonesOf(c.minAge, f.sightings, y), f.now,
                         starts));
    }
  }

  lemma {:induction false} NoStartYet(frames: seq<Frame>)
    ensures StartOf(frames).None? <==> frames == []
  {
    if frames != [] {
      NoStartYet(frames[..|frames| - 1]);
    }
  }

  // -- Read off the log alone -------------------------------------------------------------------------------

  /** When the stay still open after these events began; one found at the start began at `first`. */
  function OpenSince(log: seq<Event>, z: ZoneId, first: Time): Option<Time> {
    if log == [] then None
    else
      var ev := log[|log| - 1];
      if ev == Appeared(z) then Some(first)
      else if ev.Entered? && ev.entry.zone == z then Some(ev.entry.enteredAt)
      else if ev.Left? && ev.exit.zone == z then None
      else OpenSince(log[..|log| - 1], z, first)
  }

  /** A beginning follows no open stay, and an end carries the time of the beginning it ends, which is not after it. */
  ghost predicate Fits(log: seq<Event>, ev: Event, z: ZoneId, first: Time) {
    var open := OpenSince(log, z, first);
    && ((ev == Appeared(z) || (ev.Entered? && ev.entry.zone == z)) ==> open.None?)
    && (ev.Left? && ev.exit.zone == z ==> open == Some(ev.exit.enteredAt) && ev.exit.enteredAt <= ev.exit.leftAt)
  }

  ghost predicate Dated(log: seq<Event>, z: ZoneId, first: Time) {
    forall i :: 0 <= i < |log| ==> Fits(log[..i], log[i], z, first)
  }

  lemma {:induction false} OpenAppend(log: seq<Event>, ev: Event, z: ZoneId, first: Time)
    ensures OpenSince(log + [ev], z, first)
              == if ev == Appeared(z) then Some(first)
                 else if ev.Entered? && ev.entry.zone == z then Some(ev.entry.enteredAt)
                 else if ev.Left? && ev.exit.zone == z then None
                 else OpenSince(log, z, first)
    ensures Dated(log, z, first) && Fits(log, ev, z, first) ==> Dated(log + [ev], z, first)
  {
    assert (log + [ev])[..|log|] == log;
    if Dated(log, z, first) && Fits(log, ev, z, first) {
      forall i | 0 <= i < |log + [ev]| ensures Fits((log + [ev])[..i], (log + [ev])[i], z, first) {
        assert i < |log| ==> (log + [ev])[..i] == log[..i];
      }
    }
  }

  /** Only what happens in the zone matters. */
  lemma {:induction false} OpenFiltered(log: seq<Event>, z: ZoneId, first: Time)
    ensures OpenSince(Filter(log, OfZone(z)), z, first) == OpenSince(log, z, first)
    ensures Dated(Filter(log, OfZone(z)), z, first) ==> Dated(log, z, first)
  {
    if log != [] {
      var n := |log| - 1;
      OpenFiltered(log[..n], z, first);
      OpenAppend(log[..n], log[n], z, first);
      assert log == log[..n] + [log[n]];
      var kept := Filter(log[..n], OfZone(z));
      if OfZone(z)(log[n]) {
        OpenAppend(kept, log[n], z, first);
        if Dated(Filter(log, OfZone(z)), z, first) {
          DatedBefore(kept, log[n], z, first);
        }
      } else {
        assert Filter(log, OfZone(z)) == kept;
      }
    }
  }

  lemma {:induction false} DatedBefore(log: seq<Event>, ev: Event, z: ZoneId, first: Time)
    requires Dated(log + [ev], z, first)
    ensures Dated(log, z, first) && Fits(log, ev, z, first)
  {
    forall i | 0 <= i < |log| ensures Fits(log[..i], log[i], z, first) {
      assert (log + [ev])[..i] == log[..i];
    }
    assert (log + [ev])[..|log|] == log;
  }

  /** The frames' own account: every stay it logs is dated by its beginning. */
  ghost predicate WellDated(log: seq<Event>, z: ZoneId, first: Time, stay: Option<Stay>, now: Time) {
    && Dated(log, z, first)
    && OpenSince(log, z, first) == (if stay.Some? then Some(stay.value.began) else None)
    && (stay.Some? ==> stay.value.began <= stay.value.seen <= now)
  }

  lemma {:induction false} NextWellDated(c: Config, log: seq<Event>, z: ZoneId, first: Time, stay: Option<Stay>,
                                         inside: bool, now: Time, baseline: bool)
    requires WellDated(log, z, first, stay, now) && (baseline ==> first == now)
    ensures WellDated(log + Happened(c, z, stay, inside, now, baseline), z, first, NextStay(c, stay, inside, now), now)
  {
    var h := Happened(c, z, stay, inside, now, baseline);
    if h == [] {
      assert log + h == log;
    } else {
      OpenAppend(log, h[0], z, first);
      assert h == [h[0]];
    }
  }

  lemma {:induction false} StayLogDated(c: Config, frames: seq<Frame>, y: int, z: ZoneId)
    requires frames != []
    ensures StartOf(frames).Some?
    ensures WellDated(StayLog(c, frames, y, z), z, StartOf(frames).value, StayAfter(c, frames, y, z),
                      frames[|frames| - 1].now)
  {
    var n := |frames| - 1;
    var f, starts := frames[n], Starts(frames[..n], frames[n].now);
    NoStartYet(frames);
    if !starts {
      StayLogDated(c, frames[..n], y, z);
    }
    NextWellDated(c, if starts then [] else StayLog(c, frames[..n], y, z), z, StartOf(frames).value,
                  StayBefore(c, frames[..n], f.now, y, z), z in ZonesOf(c.minAge, f.sightings, y), f.now, starts);
  }

  /** What the log of a track says of its presences: each began with the last event that begins a stay in its zone, at
      the time of that event; every departure carries the time of the beginning that it ends. */
  lemma {:induction false} PresencesDated(c: Config, policy: Policy, zones: set<ZoneId>, frames: seq<Frame>, y: int,
                                          z: ZoneId)
    requires frames != []
    ensures var s := Run(c, policy, zones, frames);
            && s.first.Some? && s.first == StartOf(frames)
            && Dated(LogOf(s.world.log, y), z, s.first.value)
            && (forall p :: p in View(s.world, y).presences && p.zone == z ==>
                              OpenSince(LogOf(s.world.log, y), z, s.first.value) == Some(p.enteredAt))
            && (OpenSince(LogOf(s.world.log, y), z, s.first.value).Some? ==>
                  exists p :: p in View(s.world, y).presences && p.zone == z)
  {
    StaysAreTold(c, policy, zones, frames, y, z);
    StayLogDated(c, frames, y, z);
    OpenFiltered(LogOf(Run(c, policy, zones, frames).world.log, y), z, StartOf(frames).value);
  }
}
