/** Exactly when pruning leaves the record in order: the tracks that leave a zone in a frame must be known in the same
    order as if none had ever been forgotten. */
module RecordOrder {
  import opened Common
  import opened Logs
  import opened Movements
  import opened Pruning
  import opened Transitions
  import opened Projection
  import opened TransitionTheorems
  import opened FirstSettling

  function Shown(): Tagged<Event> -> bool { (t: Tagged<Event>) => IsVisible(t.event) }

  function Tag(id: int, evs: seq<Event>): seq<Tagged<Event>> {
    seq(|evs|, i requires 0 <= i < |evs| => Tagged(id, evs[i]))
  }

  /** One block of events for each track, in this order. */
  function Blocks(ids: seq<int>, of: int -> seq<Event>): seq<Tagged<Event>> {
    if ids == [] then [] else Blocks(ids[..|ids| - 1], of) + Tag(ids[|ids| - 1], of(ids[|ids| - 1]))
  }

  lemma {:induction false} BlocksSame(ids: seq<int>, f: int -> seq<Event>, g: int -> seq<Event>)
    requires forall id :: id in ids ==> f(id) == g(id)
    ensures Blocks(ids, f) == Blocks(ids, g)
  {
    if ids != [] {
      var n := |ids| - 1;
      assert ids[n] in ids;
      forall id | id in ids[..n] ensures f(id) == g(id) {
        assert id in ids;
      }
      BlocksSame(ids[..n], f, g);
      assert Tag(ids[n], f(ids[n])) == Tag(ids[n], g(ids[n]));
    }
  }

  function Acting(of: int -> seq<Event>): int -> bool { (id: int) => of(id) != [] }

  lemma {:induction false} BlocksOfActing(ids: seq<int>, of: int -> seq<Event>)
    ensures Blocks(ids, of) == Blocks(Filter(ids, Acting(of)), of)
  {
    if ids != [] {
      var n := |ids| - 1;
      BlocksOfActing(ids[..n], of);
      if Acting(of)(ids[n]) {
        var kept := Filter(ids[..n], Acting(of));
        assert (kept + [ids[n]])[..|kept|] == kept;
      } else {
        assert Tag(ids[n], of(ids[n])) == [];
        assert Filter(ids, Acting(of)) == Filter(ids[..n], Acting(of));
      }
    }
  }

  lemma {:induction false} BlocksLast(ids: seq<int>, of: int -> seq<Event>)
    requires ids != [] && of(ids[|ids| - 1]) != []
    ensures Blocks(ids, of) != [] && Blocks(ids, of)[|Blocks(ids, of)| - 1].id == ids[|ids| - 1]
  {
  }

  /** When every track has a block, the blocks tell the order. */
  lemma {:induction false} BlocksInjective(a: seq<int>, b: seq<int>, of: int -> seq<Event>)
    requires (forall id :: id in a ==> of(id) != []) && (forall id :: id in b ==> of(id) != [])
    requires Blocks(a, of) == Blocks(b, of)
    ensures a == b
  {
    if a == [] || b == [] {
      if a != [] {
        BlocksLast(a, of);
      }
      if b != [] {
        BlocksLast(b, of);
      }
    } else {
      var n, m := |a| - 1, |b| - 1;
      BlocksLast(a, of);
      BlocksLast(b, of);
      assert a[n] == b[m];
      SameFront(Blocks(a[..n], of), Blocks(b[..m], of), Tag(a[n], of(a[n])));
      assert forall id :: id in a[..n] ==> id in a;
      assert forall id :: id in b[..m] ==> id in b;
      BlocksInjective(a[..n], b[..m], of);
      assert a == a[..n] + [a[n]] && b == b[..m] + [b[m]];
    }
  }

  lemma SameFront<T>(s: seq<T>, t: seq<T>, x: seq<T>)
    requires s + x == t + x
    ensures s == t
  {
    assert |s| == |t|;
    assert s == (s + x)[..|s|] && t == (t + x)[..|t|];
  }

  lemma {:induction false} TagVisible(id: int, evs: seq<Event>)
    requires Visible(evs) == evs
    ensures Filter(Tag(id, evs), Shown()) == Tag(id, evs)
  {
    FilterMembers(evs, Seen());
    forall t | t in Tag(id, evs) ensures Shown()(t) {
      assert t.event in evs && Seen()(t.event);
    }
    FilterAll(Tag(id, evs), Shown());
  }

  lemma {:induction false} BlocksVisible(ids: seq<int>, of: int -> seq<Event>)
    requires forall id :: id in ids ==> Visible(of(id)) == of(id)
    ensures Filter(Blocks(ids, of), Shown()) == Blocks(ids, of)
  {
    if ids != [] {
      var n := |ids| - 1;
      assert ids[n] in ids && forall id :: id in ids[..n] ==> id in ids;
      BlocksVisible(ids[..n], of);
      TagVisible(ids[n], of(ids[n]));
      FilterConcat(Blocks(ids[..n], of), Tag(ids[n], of(ids[n])), Shown());
    }
  }

  // -- What one frame writes --------------------------------------------------------------------------------

  lemma {:induction false} EmitAllTags(w: World, id: int, evs: seq<Event>)
    ensures EmitAll(w, id, evs).log == w.log + Tag(id, evs)
  {
    if evs != [] {
      var n := |evs| - 1;
      EmitAllTags(w, id, evs[..n]);
      assert Tag(id, evs) == Tag(id, evs[..n]) + [Tagged(id, evs[n])];
    }
  }

  function DepartsOf(c: Config, w: World, settled: seq<Settled>, now: Time): int -> seq<Event> {
    (y: int) => Departs(c, w, settled, now, y).events
  }

  function VisitsOf(c: Config, w: World, settled: seq<Settled>, now: Time, baseline: bool): int -> seq<Event> {
    (y: int) => Visits(c, w, settled, now, baseline, y).events
  }

  lemma {:induction false} LeaveOneWrites(c: Config, w: World, id: int, settled: seq<Settled>, now: Time)
    ensures LeaveOne(c, w, id, settled, now).log == w.log + Tag(id, Departs(c, w, settled, now, id).events)
  {
    if id in w.tracks {
      var o := Leave(c, w.tracks[id].book, InsideOf(settled, id), now);
      EmitAllTags(PutBook(w, id, o.book), id, o.events);
    } else {
      BlankLeaves(c, InsideOf(settled, id), now);
    }
  }

  /** Others' departures are nothing to a track. */
  lemma {:induction false} DepartsLater(c: Config, w: World, ids: seq<int>, settled: seq<Settled>, now: Time, id: int)
    requires WellFormed(w) && Distinct(ids) && id !in ids
    ensures Departs(c, LeaveAll(c, w, ids, settled, now), settled, now, id) == Departs(c, w, settled, now, id)
  {
    LeaveAllView(c, w, ids, settled, now, id);
  }

  lemma {:induction false} BlocksAppend(log: seq<Tagged<Event>>, ids: seq<int>, of: int -> seq<Event>, evs: seq<Event>)
    requires ids != [] && evs == of(ids[|ids| - 1])
    ensures (log + Blocks(ids[..|ids| - 1], of)) + Tag(ids[|ids| - 1], evs) == log + Blocks(ids, of)
  {
  }

  lemma {:induction false} LeaveAllWrites(c: Config, w: World, ids: seq<int>, settled: seq<Settled>, now: Time)
    requires WellFormed(w) && Distinct(ids)
    ensures LeaveAll(c, w, ids, settled, now).log == w.log + Blocks(ids, DepartsOf(c, w, settled, now))
  {
    if ids != [] {
      var n := |ids| - 1;
      LeaveAllWrites(c, w, ids[..n], settled, now);
      LastIsNew(ids, ids[n]);
      DepartsLater(c, w, ids[..n], settled, now, ids[n]);
      LeaveOneWrites(c, LeaveAll(c, w, ids[..n], settled, now), ids[n], settled, now);
      BlocksAppend(w.log, ids, DepartsOf(c, w, settled, now), Departs(c, w, settled, now, ids[n]).events);
    }
  }

  function IdsOf(settled: seq<Settled>): seq<int> {
    if settled == [] then [] else IdsOf(settled[..|settled| - 1]) + [settled[|settled| - 1].id]
  }

  lemma {:induction false} IdsOfMembers(settled: seq<Settled>, id: int)
    ensures id in IdsOf(settled) <==> exists i :: 0 <= i < |settled| && settled[i].id == id
  {
    if settled != [] {
      IdsOfMembers(settled[..|settled| - 1], id);
    }
  }

  lemma {:induction false} ArriveWrites(c: Config, w: World, s: Settled, now: Time, baseline: bool)
    ensures Arrive(c, w, s, now, baseline).log ==
            w.log + Tag(s.id, VisitAll(c, View(w, s.id), s.inside, now, baseline).events)
  {
    var w1 := Touch(w, s.id, now);
    var o := VisitAll(c, w1.tracks[s.id].book, s.inside, now, baseline);
    EmitAllTags(PutBook(w1, s.id, o.book), s.id, o.events);
  }

  /** A track not settled before the last one. */
  lemma {:induction false} NotSeenBefore(settled: seq<Settled>)
    requires settled != [] && DistinctIds(settled)
    ensures var n := |settled| - 1;
            && InsideOf(settled, settled[n].id) == settled[n].inside && InsideOf(settled[..n], settled[n].id) == []
            && forall id :: id in IdsOf(settled[..n]) ==> InsideOf(settled, id) == InsideOf(settled[..n], id)
  {
    var n := |settled| - 1;
    SeenLast(settled, settled[n].id);
    forall id | id in IdsOf(settled[..n]) ensures InsideOf(settled, id) == InsideOf(settled[..n], id) {
      IdsOfMembers(settled[..n], id);
      SeenLast(settled, id);
    }
  }

  lemma NobodyVisits(c: Config, b: Book, now: Time, baseline: bool)
    ensures VisitAll(c, b, [], now, baseline) == Outcome(b, [])
  {
  }

  /** Others' arrivals are nothing to a track. */
  lemma {:induction false} VisitsLater(c: Config, w: World, settled: seq<Settled>, now: Time, baseline: bool)
    requires WellFormed(w) && DistinctIds(settled) && settled != []
    ensures var n := |settled| - 1;
            var s, w1 := settled[n], ArriveAll(c, w, settled[..n], now, baseline);
            VisitAll(c, View(w1, s.id), s.inside, now, baseline) == Visits(c, w, settled, now, baseline, s.id)
  {
    var n := |settled| - 1;
    NotSeenBefore(settled);
    ArriveAllView(c, w, settled[..n], now, baseline, settled[n].id);
    NobodyVisits(c, View(w, settled[n].id), now, baseline);
  }

  lemma {:induction false} VisitsBefore(c: Config, w: World, settled: seq<Settled>, now: Time, baseline: bool)
    requires DistinctIds(settled) && settled != []
    ensures var init := settled[..|settled| - 1];
            Blocks(IdsOf(init), VisitsOf(c, w, init, now, baseline)) ==
            Blocks(IdsOf(init), VisitsOf(c, w, settled, now, baseline))
  {
    var init := settled[..|settled| - 1];
    NotSeenBefore(settled);
    BlocksSame(IdsOf(init), VisitsOf(c, w, init, now, baseline), VisitsOf(c, w, settled, now, baseline));
  }

  lemma {:induction false} ArriveAllWrites(c: Config, w: World, settled: seq<Settled>, now: Time, baseline: bool)
    requires WellFormed(w) && DistinctIds(settled)
    ensures ArriveAll(c, w, settled, now, baseline).log ==
            w.log + Blocks(IdsOf(settled), VisitsOf(c, w, settled, now, baseline))
  {
    if settled != [] {
      var n := |settled| - 1;
      var s, init, ids := settled[n], settled[..n], IdsOf(settled);
      ArriveAllWrites(c, w, init, now, baseline);
      VisitsBefore(c, w, settled, now, baseline);
      VisitsLater(c, w, settled, now, baseline);
      ArriveWrites(c, ArriveAll(c, w, init, now, baseline), s, now, baseline);
      assert ids[..|ids| - 1] == IdsOf(init);
      BlocksAppend(w.log, ids, VisitsOf(c, w, settled, now, baseline),
                   Visits(c, w, settled, now, baseline, s.id).events);
    }
  }

  // -- Pruned and not ---------------------------------------------------------------------------------------

  lemma {:induction false} EmitLogs(w: World, id: int, evs: seq<Event>)
    requires evs != []
    ensures EmitAll(w, id, evs).log ==
            EmitAll(w, id, evs[..|evs| - 1]).log + [Tagged(id, evs[|evs| - 1])]
  {
  }

  lemma {:induction false} HiddenEvents(w: World, id: int, evs: seq<Event>)
    requires forall ev :: ev in evs ==> ev.ExpiredExit? || ev.ExpiredEntry?
    ensures Filter(EmitAll(w, id, evs).log, Shown()) == Filter(w.log, Shown())
  {
    if evs != [] {
      var n := |evs| - 1;
      HiddenEvents(w, id, evs[..n]);
      EmitLogs(w, id, evs);
      FilterAppend(EmitAll(w, id, evs[..n]).log, Tagged(id, evs[n]), Shown());
      assert evs[n] in evs && !Shown()(Tagged(id, evs[n]));
    }
  }

  lemma {:induction false} BooksNear(c: Config, b1: Book, b2: Book, prev: Time, now: Time)
    requires ValidConfig(c) && Recent(c, b1, prev) && ActAlike(c, b1, b2, prev) && prev <= now
    ensures Agree(b1, b2, now - c.maxGap, prev - c.grace - c.overlap)
    ensures forall q :: q in b1.presences ==> prev - c.grace <= q.lastSeenAt
  {
    AgreeLater(b1, b2, prev - c.maxGap, prev - c.grace - c.overlap, now - c.maxGap, prev - c.grace - c.overlap);
  }

  lemma {:induction false} TwinBooks(c: Config, p: Session, k: Session, now: Time, y: int)
    requires Twins(c, p, k, y)
    ensures Recent(c, View(p.world, y), Since(p, now)) && ActAlike(c, View(p.world, y), View(k.world, y), Since(p, now))
  {
  }

  lemma {:induction false} PruneOneShows(c: Config, w: World, id: int, now: Time)
    ensures Filter(PruneOne(c, w, id, now).log, Shown()) == Filter(w.log, Shown())
  {
    if id in w.tracks {
      var o := Expire(c, w.tracks[id].book, now);
      HiddenEvents(PutBook(w, id, o.book), id, o.events);
    }
  }

  lemma {:induction false} PruneAllShows(c: Config, w: World, ids: seq<int>, now: Time)
    ensures Filter(PruneAll(c, w, ids, now).log, Shown()) == Filter(w.log, Shown())
  {
    if ids != [] {
      PruneAllShows(c, w, ids[..|ids| - 1], now);
      PruneOneShows(c, PruneAll(c, w, ids[..|ids| - 1], now), ids[|ids| - 1], now);
    }
  }

  /** What one frame adds to the record. */
  function FrameWrites(c: Config, w: World, settled: seq<Settled>, now: Time, baseline: bool): seq<Tagged<Event>> {
    var w1 := ArriveAll(c, w, settled, now, baseline);
    Blocks(IdsOf(settled), VisitsOf(c, w, settled, now, baseline)) + Blocks(w1.ids, DepartsOf(c, w1, settled, now))
  }

  lemma {:induction false} FrameVisible(c: Config, w: World, settled: seq<Settled>, now: Time, baseline: bool)
    ensures Filter(FrameWrites(c, w, settled, now, baseline), Shown()) == FrameWrites(c, w, settled, now, baseline)
  {
    var w1 := ArriveAll(c, w, settled, now, baseline);
    forall y ensures Visible(VisitsOf(c, w, settled, now, baseline)(y)) == VisitsOf(c, w, settled, now, baseline)(y) {
      VisibleVisit(c, View(w, y), InsideOf(settled, y), now, baseline);
    }
    forall y ensures Visible(DepartsOf(c, w1, settled, now)(y)) == DepartsOf(c, w1, settled, now)(y) {
      VisibleLeave(c, View(w1, y), InsideOf(settled, y), now);
    }
    BlocksVisible(IdsOf(settled), VisitsOf(c, w, settled, now, baseline));
    BlocksVisible(w1.ids, DepartsOf(c, w1, settled, now));
    FilterConcat(Blocks(IdsOf(settled), VisitsOf(c, w, settled, now, baseline)),
                 Blocks(w1.ids, DepartsOf(c, w1, settled, now)), Shown());
  }

  lemma {:induction false} VisibleLeave(c: Config, b: Book, inside: seq<ZoneId>, now: Time)
    ensures Visible(Leave(c, b, inside, now).events) == Leave(c, b, inside, now).events
  {
    VisibleDepart(c, b.(presences := Filter(b.presences, Stays(c, inside, now))),
                  Filter(b.presences, Goes(c, inside, now)));
  }

  lemma {:induction false} MovesWrite(c: Config, w: World, settled: seq<Settled>, now: Time, baseline: bool)
    requires WellFormed(w) && DistinctIds(settled)
    ensures var w1 := ArriveAll(c, w, settled, now, baseline);
            LeaveAll(c, w1, w1.ids, settled, now).log == w.log + FrameWrites(c, w, settled, now, baseline)
  {
    var w1 := ArriveAll(c, w, settled, now, baseline);
    ArriveAllWrites(c, w, settled, now, baseline);
    ArriveAllView(c, w, settled, now, baseline, 0);
    LeaveAllWrites(c, w1, w1.ids, settled, now);
    Reassociate(w.log, Blocks(IdsOf(settled), VisitsOf(c, w, settled, now, baseline)),
                Blocks(w1.ids, DepartsOf(c, w1, settled, now)));
  }

  lemma Reassociate<T>(x: seq<T>, y: seq<T>, z: seq<T>)
    ensures (x + y) + z == x + (y + z)
  {
  }

  lemma {:induction false} ActShows(c: Config, policy: Policy, w: World, settled: seq<Settled>, now: Time,
                                    baseline: bool)
    requires WellFormed(w) && DistinctIds(settled)
    ensures Filter(Act(c, policy, w, settled, now, baseline).log, Shown()) ==
            Filter(w.log, Shown()) + FrameWrites(c, w, settled, now, baseline)
  {
    var w1 := ArriveAll(c, w, settled, now, baseline);
    var w2 := LeaveAll(c, w1, w1.ids, settled, now);
    MovesWrite(c, w, settled, now, baseline);
    PruneAllShows(c, w2, w2.ids, now);
    FrameVisible(c, w, settled, now, baseline);
    FilterConcat(w.log, FrameWrites(c, w, settled, now, baseline), Shown());
  }

  /** The visible part of a track's step, whether it expires anything or not. */
  lemma {:induction false} StepShows(c: Config, policy: Policy, b: Book, inside: seq<ZoneId>, now: Time, baseline: bool)
    ensures var v := VisitAll(c, b, inside, now, baseline);
            Visible(TrackStep(c, policy, b, Some(inside), now, baseline).events) ==
            v.events + Leave(c, v.book, inside, now).events
  {
    var v := VisitAll(c, b, inside, now, baseline);
    var l := Leave(c, v.book, inside, now);
    var e := if policy.Prune? then Expire(c, l.book, now).events else [];
    VisibleVisit(c, b, inside, now, baseline);
    VisibleLeave(c, v.book, inside, now);
    VisibleExpire(c, l.book, now);
    FilterConcat(v.events, l.events, Seen());
    FilterConcat(v.events + l.events, e, Seen());
  }

  lemma {:induction false} StillVisible(s: seq<Event>, t: seq<Event>)
    requires Visible(s) == t
    ensures Visible(t) == t
  {
    FilterTwice(s, Seen(), Seen());
  }

  /** A pruned book and a whole one write the same, on entering and on leaving. */
  lemma {:induction false} TrackWritesAlike(c: Config, b1: Book, b2: Book, inside: seq<ZoneId>, now: Time,
                                            baseline: bool, prev: Time)
    requires ValidConfig(c) && Recent(c, b1, prev) && prev <= now && ActAlike(c, b1, b2, prev)
    ensures var v1, v2 := VisitAll(c, b1, inside, now, baseline), VisitAll(c, b2, inside, now, baseline);
            v1.events == v2.events && Leave(c, v1.book, inside, now).events == Leave(c, v2.book, inside, now).events
  {
    var v1, v2 := VisitAll(c, b1, inside, now, baseline), VisitAll(c, b2, inside, now, baseline);
    BooksNear(c, b1, b2, prev, now);
    VisitAllAgrees(c, b1, b2, inside, now, baseline, now - c.maxGap, prev - c.grace - c.overlap);
    FrameAgrees(c, b1, b2, Some(inside), now, baseline, prev);
    StepShows(c, Prune, b1, inside, now, baseline);
    StepShows(c, Keep, b2, inside, now, baseline);
    StillVisible(TrackStep(c, Prune, b1, Some(inside), now, baseline).events,
                 TrackStep(c, Keep, b2, Some(inside), now, baseline).events);
    SameRest(v1.events, Leave(c, v1.book, inside, now).events, Leave(c, v2.book, inside, now).events);
  }

  lemma SameRest<T>(x: seq<T>, s: seq<T>, t: seq<T>)
    requires x + s == x + t
    ensures s == t
  {
    assert s == (x + s)[|x|..] && t == (x + t)[|x|..];
  }

  ghost predicate AllTwins(c: Config, p: Session, k: Session) {
    forall y :: Twins(c, p, k, y)
  }

  /** What is to be written of each track in a frame is the same, pruned or not. */
  lemma {:induction false} TwinsWriteAlike(c: Config, p: Session, k: Session, settled: seq<Settled>, now: Time, y: int)
    requires ValidConfig(c) && Twins(c, p, k, y) && Since(p, now) <= now && DistinctIds(settled)
    ensures var b := p.first.None?;
            var p1, k1 := ArriveAll(c, p.world, settled, now, b), ArriveAll(c, k.world, settled, now, b);
            && VisitsOf(c, p.world, settled, now, b)(y) == VisitsOf(c, k.world, settled, now, b)(y)
            && DepartsOf(c, p1, settled, now)(y) == DepartsOf(c, k1, settled, now)(y)
  {
    var b := p.first.None?;
    TwinBooks(c, p, k, now, y);
    TrackWritesAlike(c, View(p.world, y), View(k.world, y), InsideOf(settled, y), now, b, Since(p, now));
    ArriveAllView(c, p.world, settled, now, b, y);
    ArriveAllView(c, k.world, settled, now, b, y);
  }

  /** The tracks that leave a zone in this frame stand in the tracker's dictionary in the order `known`. */
  ghost predicate LeaversInOrder(c: Config, p: Session, known: seq<int>, settled: seq<Settled>, now: Time) {
    var p1 := ArriveAll(c, p.world, settled, now, p.first.None?);
    var leaving := Acting(DepartsOf(c, p1, settled, now));
    Filter(p1.ids, leaving) == Filter(Enrol(known, settled), leaving)
  }

  lemma {:induction false} BlocksAgreeIff(a: seq<int>, b: seq<int>, f: int -> seq<Event>, g: int -> seq<Event>)
    requires forall id :: f(id) == g(id)
    ensures Blocks(a, f) == Blocks(b, g) <==> Filter(a, Acting(g)) == Filter(b, Acting(g))
  {
    BlocksSame(a, f, g);
    BlocksOfActing(a, g);
    BlocksOfActing(b, g);
    FilterMembers(a, Acting(g));
    FilterMembers(b, Acting(g));
    if Blocks(a, g) == Blocks(b, g) {
      BlocksInjective(Filter(a, Acting(g)), Filter(b, Acting(g)), g);
    }
  }

  lemma {:induction false} FrameWritesIff(c: Config, p: Session, k: Session, settled: seq<Settled>, now: Time)
    requires ValidConfig(c) && AllTwins(c, p, k) && Since(p, now) <= now && DistinctIds(settled)
    ensures FrameWrites(c, p.world, settled, now, p.first.None?) == FrameWrites(c, k.world, settled, now, p.first.None?)
            <==> LeaversInOrder(c, p, k.world.ids, settled, now)
  {
    assert Twins(c, p, k, 0);
    var b := p.first.None?;
    var p1, k1 := ArriveAll(c, p.world, settled, now, b), ArriveAll(c, k.world, settled, now, b);
    var f, g := DepartsOf(c, p1, settled, now), DepartsOf(c, k1, settled, now);
    forall y
      ensures f(y) == g(y)
      ensures VisitsOf(c, p.world, settled, now, b)(y) == VisitsOf(c, k.world, settled, now, b)(y)
    {
      assert Twins(c, p, k, y);
      TwinsWriteAlike(c, p, k, settled, now, y);
    }
    BlocksSame(IdsOf(settled), VisitsOf(c, p.world, settled, now, b), VisitsOf(c, k.world, settled, now, b));
    ArrivalsEnrol(c, k.world, settled, now, b);
    BlocksAgreeIff(k1.ids, p1.ids, g, f);
    SameRestIff(Blocks(IdsOf(settled), VisitsOf(c, k.world, settled, now, b)), Blocks(p1.ids, f), Blocks(k1.ids, g));
  }

  lemma SameRestIff<T>(x: seq<T>, s: seq<T>, t: seq<T>)
    ensures x + s == x + t <==> s == t
  {
    if x + s == x + t {
      SameRest(x, s, t);
    }
  }

  // -- Runs -------------------------------------------------------------------------------------------------

  /** What both trackers have recorded since the last reset, in order. */
  ghost predicate SameRecord(p: World, k: World) {
    Filter(p.log, Shown()) == Filter(k.log, Shown())
  }

  /** In a frame that follows `frames`, the tracks that leave stand in order of first settling. */
  ghost predicate OrderKept(c: Config, zones: set<ZoneId>, frames: seq<Frame>, f: Frame) {
    LeaversInOrder(c, Rewound(zones, Run(c, Prune, zones, frames), f.now), KnownBefore(c, frames, f.now),
                   Settle(c.minAge, f.sightings), f.now)
  }

  lemma {:induction false} RewoundAllTwins(c: Config, zones: set<ZoneId>, p: Session, k: Session, now: Time)
    requires AllTwins(c, p, k)
    ensures AllTwins(c, Rewound(zones, p, now), Rewound(zones, k, now)) && Since(Rewound(zones, p, now), now) <= now
  {
    forall y ensures Twins(c, Rewound(zones, p, now), Rewound(zones, k, now), y) {
      assert Twins(c, p, k, y);
      RewoundTwins(c, zones, p, k, now, y);
    }
    assert Twins(c, p, k, 0);
    RewoundTwins(c, zones, p, k, now, 0);
  }

  lemma RewoundSameRecord(zones: set<ZoneId>, p: Session, k: Session, now: Time)
    requires SameRecord(p.world, k.world) && p.last == k.last
    ensures SameRecord(Rewound(zones, p, now).world, Rewound(zones, k, now).world)
  {
  }

  lemma {:induction false} ActRecordIff(c: Config, p: Session, k: Session, settled: seq<Settled>, now: Time)
    requires ValidConfig(c) && AllTwins(c, p, k) && Since(p, now) <= now && DistinctIds(settled)
    requires SameRecord(p.world, k.world)
    ensures SameRecord(Act(c, Prune, p.world, settled, now, p.first.None?),
                       Act(c, Keep, k.world, settled, now, p.first.None?))
            <==> LeaversInOrder(c, p, k.world.ids, settled, now)
  {
    assert Twins(c, p, k, 0);
    var b := p.first.None?;
    ActShows(c, Prune, p.world, settled, now, b);
    ActShows(c, Keep, k.world, settled, now, b);
    FrameWritesIff(c, p, k, settled, now);
    SameRestIff(Filter(p.world.log, Shown()), FrameWrites(c, p.world, settled, now, b),
                FrameWrites(c, k.world, settled, now, b));
  }

  lemma {:induction false} StepRecordIff(c: Config, zones: set<ZoneId>, p: Session, k: Session, f: Frame)
    requires ValidConfig(c) && AllTwins(c, p, k) && SameRecord(p.world, k.world)
    ensures SameRecord(Step(c, Prune, zones, p, f).world, Step(c, Keep, zones, k, f).world) <==>
            LeaversInOrder(c, Rewound(zones, p, f.now), Rewound(zones, k, f.now).world.ids,
                           Settle(c.minAge, f.sightings), f.now)
  {
    assert Twins(c, p, k, 0);
    RewoundAllTwins(c, zones, p, k, f.now);
    RewoundSameRecord(zones, p, k, f.now);
    SettleDistinct(c.minAge, f.sightings);
    assert Twins(c, Rewound(zones, p, f.now), Rewound(zones, k, f.now), 0);
    ActRecordIff(c, Rewound(zones, p, f.now), Rewound(zones, k, f.now), Settle(c.minAge, f.sightings), f.now);
  }

  /** After every frame, both trackers have recorded the same. */
  ghost predicate RecordsAgree(c: Config, zones: set<ZoneId>, frames: seq<Frame>) {
    && SameRecord(Run(c, Prune, zones, frames).world, Run(c, Keep, zones, frames).world)
    && (frames == [] || RecordsAgree(c, zones, frames[..|frames| - 1]))
  }

  /** In every frame, the tracks that leave stand in the tracker's dictionary in order of first settling. */
  ghost predicate OrdersKept(c: Config, zones: set<ZoneId>, frames: seq<Frame>) {
    frames == [] ||
    (var n := |frames| - 1; OrdersKept(c, zones, frames[..n]) && OrderKept(c, zones, frames[..n], frames[n]))
  }

  lemma {:induction false} RunAllTwins(c: Config, zones: set<ZoneId>, frames: seq<Frame>)
    requires ValidConfig(c)
    ensures AllTwins(c, Run(c, Prune, zones, frames), Run(c, Keep, zones, frames))
  {
    forall y ensures Twins(c, Run(c, Prune, zones, frames), Run(c, Keep, zones, frames), y) {
      RunTwins(c, zones, frames, y);
    }
  }

  lemma {:induction false} FrameRecordIff(c: Config, zones: set<ZoneId>, frames: seq<Frame>, f: Frame)
    requires ValidConfig(c)
    requires SameRecord(Run(c, Prune, zones, frames).world, Run(c, Keep, zones, frames).world)
    ensures SameRecord(Step(c, Prune, zones, Run(c, Prune, zones, frames), f).world,
                       Step(c, Keep, zones, Run(c, Keep, zones, frames), f).world)
            <==> OrderKept(c, zones, frames, f)
  {
    RunAllTwins(c, zones, frames);
    StepRecordIff(c, zones, Run(c, Prune, zones, frames), Run(c, Keep, zones, frames), f);
    KeeperIdsAreFirstSettled(c, zones, frames);
    RewoundIds(c, zones, frames, f.now);
  }

  /** Exactly when pruning leaves the record alone. Throughout a run the tracker that prunes has recorded the same
      entries, departures and transitions, in the same order, as one that keeps everything - if and only if in every
      frame the tracks that are due to leave a zone stand in its dictionary in the order in which they were first
      settled. */
  lemma {:induction false} RecordKeptIff(c: Config, zones: set<ZoneId>, frames: seq<Frame>)
    requires ValidConfig(c)
    ensures RecordsAgree(c, zones, frames) <==> OrdersKept(c, zones, frames)
  {
    if frames != [] {
      var n := |frames| - 1;
      RecordKeptIff(c, zones, frames[..n]);
      AgreesNow(c, zones, frames[..n]);
      if SameRecord(Run(c, Prune, zones, frames[..n]).world, Run(c, Keep, zones, frames[..n]).world) {
        FrameRecordIff(c, zones, frames[..n], frames[n]);
      }
    }
  }

  lemma {:induction false} AgreesNow(c: Config, zones: set<ZoneId>, frames: seq<Frame>)
    ensures RecordsAgree(c, zones, frames) ==>
              SameRecord(Run(c, Prune, zones, frames).world, Run(c, Keep, zones, frames).world)
  {
  }
}
