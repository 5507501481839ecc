/** Tracks do not influence each other: what the tracker does, seen from one track, is that track's own step. */
module Projection {
  import opened Common
  import opened Logs
  import opened Movements
  import opened Transitions

  /** The book of a track; a track the tracker does not know has nothing in it. */
  function View(w: World, id: int): Book {
    if id in w.tracks then w.tracks[id].book else BLANK
  }

  ghost predicate WellFormed(w: World) {
    && Distinct(w.ids)
    && (forall id :: id in w.ids <==> id in w.tracks)
  }

  ghost predicate DistinctIds(settled: seq<Settled>) {
    forall i, j :: 0 <= i < j < |settled| ==> settled[i].id != settled[j].id
  }

  lemma {:induction false} SettleDistinct(minAge: int, sightings: seq<Sighting>)
    ensures DistinctIds(Settle(minAge, sightings))
  {
    if sightings != [] {
      SettleDistinct(minAge, sightings[..|sightings| - 1]);
    }
  }

  // -- Effects of the world's primitives on one track ----------------------------------------------------

  lemma {:induction false} EmitAllLog(w: World, id: int, evs: seq<Event>, y: int)
    ensures LogOf(EmitAll(w, id, evs).log, y) == LogOf(w.log, y) + (if id == y then evs else [])
  {
    if evs != [] {
      var n := |evs| - 1;
      EmitAllLog(w, id, evs[..n], y);
      LogAppend(EmitAll(w, id, evs[..n]).log, Tagged(id, evs[n]), y);
      assert evs == evs[..n] + [evs[n]];
    }
  }

  /** Seen from track `y`, going from `w` to `w'` had outcome `o`. */
  ghost predicate Effect(w: World, w': World, y: int, o: Outcome) {
    WellFormed(w') && View(w', y) == o.book && LogOf(w'.log, y) == LogOf(w.log, y) + o.events
  }

  function Nothing(w: World, y: int): Outcome {
    Outcome(View(w, y), [])
  }

  lemma EffectThen(w: World, w1: World, w2: World, y: int, o1: Outcome, o2: Outcome)
    requires Effect(w, w1, y, o1) && Effect(w1, w2, y, o2)
    ensures Effect(w, w2, y, Outcome(o2.book, o1.events + o2.events))
  {
  }

  lemma {:induction false} CommitView(w: World, id: int, o: Outcome, y: int)
    requires id in w.tracks && WellFormed(w)
    ensures Effect(w, Commit(w, id, o), y, if y == id then o else Nothing(w, y))
    ensures Commit(w, id, o).ids == w.ids
  {
    EmitAllLog(PutBook(w, id, o.book), id, o.events, y);
  }

  lemma TouchView(w: World, id: int, now: Time, y: int)
    requires WellFormed(w)
    ensures Effect(w, Touch(w, id, now), y, Nothing(w, y))
  {
  }

  lemma {:induction false} ArriveView(c: Config, w: World, s: Settled, now: Time, baseline: bool, y: int)
    requires WellFormed(w)
    ensures Effect(w, Arrive(c, w, s, now, baseline), y,
                   if y == s.id then VisitAll(c, View(w, y), s.inside, now, baseline) else Nothing(w, y))
  {
    var w1 := Touch(w, s.id, now);
    TouchView(w, s.id, now, y);
    CommitView(w1, s.id, VisitAll(c, w1.tracks[s.id].book, s.inside, now, baseline), y);
  }

  lemma {:induction false} SeenLast(settled: seq<Settled>, y: int)
    requires settled != [] && DistinctIds(settled)
    ensures var n := |settled| - 1;
            if settled[n].id == y
            then SeenIn(settled, y) == Some(settled[n].inside) && SeenIn(settled[..n], y) == None
            else SeenIn(settled, y) == SeenIn(settled[..n], y)
  {
    var n := |settled| - 1;
    if settled[n].id == y {
      assert forall s :: s in settled[..n] ==> s.id != y;
    }
  }

  /** Arrivals, seen from one track. */
  function Visits(c: Config, w: World, settled: seq<Settled>, now: Time, baseline: bool, y: int): Outcome {
    VisitAll(c, View(w, y), InsideOf(settled, y), now, baseline)
  }

  lemma {:induction false} ArriveAllView(c: Config, w: World, settled: seq<Settled>, now: Time, baseline: bool, y: int)
    requires WellFormed(w) && DistinctIds(settled)
    ensures Effect(w, ArriveAll(c, w, settled, now, baseline), y, Visits(c, w, settled, now, baseline, y))
  {
    if settled != [] {
      var n := |settled| - 1;
      var w1 := ArriveAll(c, w, settled[..n], now, baseline);
      ArriveAllView(c, w, settled[..n], now, baseline, y);
      ArriveView(c, w1, settled[n], now, baseline, y);
      SeenLast(settled, y);
    }
  }

  lemma BlankLeaves(c: Config, inside: seq<ZoneId>, now: Time)
    ensures Leave(c, BLANK, inside, now) == Outcome(BLANK, [])
  {
  }

  function Departs(c: Config, w: World, settled: seq<Settled>, now: Time, y: int): Outcome {
    Leave(c, View(w, y), InsideOf(settled, y), now)
  }

  lemma {:induction false} LeaveOneView(c: Config, w: World, id: int, settled: seq<Settled>, now: Time, y: int)
    requires WellFormed(w)
    ensures Effect(w, LeaveOne(c, w, id, settled, now), y,
                   if y == id then Departs(c, w, settled, now, y) else Nothing(w, y))
    ensures LeaveOne(c, w, id, settled, now).ids == w.ids
  {
    if id in w.tracks {
      CommitView(w, id, Leave(c, w.tracks[id].book, InsideOf(settled, id), now), y);
    } else {
      BlankLeaves(c, InsideOf(settled, id), now);
    }
  }

  lemma {:induction false} LastIsNew(ids: seq<int>, y: int)
    requires Distinct(ids) && ids != []
    ensures var n := |ids| - 1;
            Distinct(ids[..n]) && ids[n] !in ids[..n] && (y in ids <==> y in ids[..n] || y == ids[n])
  {
    var n := |ids| - 1;
    assert ids == ids[..n] + [ids[n]];
  }

  lemma {:induction false} LeaveAllView(c: Config, w: World, ids: seq<int>, settled: seq<Settled>, now: Time, y: int)
    requires WellFormed(w) && Distinct(ids)
    ensures Effect(w, LeaveAll(c, w, ids, settled, now), y,
                   if y in ids then Departs(c, w, settled, now, y) else Nothing(w, y))
    ensures LeaveAll(c, w, ids, settled, now).ids == w.ids
  {
    if ids != [] {
      var n := |ids| - 1;
      var w1 := LeaveAll(c, w, ids[..n], settled, now);
      LeaveAllView(c, w, ids[..n], settled, now, y);
      LeaveOneView(c, w1, ids[n], settled, now, y);
      LastIsNew(ids, y);
    }
  }

  lemma BlankExpires(c: Config, now: Time)
    ensures Expire(c, BLANK, now) == Outcome(BLANK, [])
  {
  }

  function Expires(c: Config, w: World, now: Time, y: int): Outcome {
    Expire(c, View(w, y), now)
  }

  lemma {:induction false} RemoveView(w: World, id: int, y: int)
    requires WellFormed(w) && id in w.tracks && Idle(w.tracks[id].book)
    ensures Effect(w, Remove(w, id), y, Nothing(w, y))
  {
    DistinctFilter(w.ids, NotId(id));
    FilterMembers(w.ids, NotId(id));
  }

  lemma {:induction false} PruneOneView(c: Config, w: World, id: int, now: Time, y: int)
    requires WellFormed(w)
    ensures Effect(w, PruneOne(c, w, id, now), y, if y == id then Expires(c, w, now, y) else Nothing(w, y))
  {
    if id in w.tracks {
      var o := Expire(c, w.tracks[id].book, now);
      var w1 := Commit(w, id, o);
      CommitView(w, id, o, y);
      if Idle(w1.tracks[id].book) {
        RemoveView(w1, id, y);
      }
    } else {
      BlankExpires(c, now);
    }
  }

  lemma {:induction false} PruneAllView(c: Config, w: World, ids: seq<int>, now: Time, y: int)
    requires WellFormed(w) && Distinct(ids)
    ensures Effect(w, PruneAll(c, w, ids, now), y, if y in ids then Expires(c, w, now, y) else Nothing(w, y))
  {
    if ids != [] {
      var n := |ids| - 1;
      var w1 := PruneAll(c, w, ids[..n], now);
      PruneAllView(c, w, ids[..n], now, y);
      PruneOneView(c, w1, ids[n], now, y);
      assert ids == ids[..n] + [ids[n]];
    }
  }

  lemma {:induction false} LeaveKnown(c: Config, w: World, settled: seq<Settled>, now: Time, y: int)
    requires WellFormed(w)
    ensures Effect(w, LeaveAll(c, w, w.ids, settled, now), y, Departs(c, w, settled, now, y))
  {
    LeaveAllView(c, w, w.ids, settled, now, y);
    BlankLeaves(c, InsideOf(settled, y), now);
  }

  lemma {:induction false} PruneKnown(c: Config, w: World, now: Time, y: int)
    requires WellFormed(w)
    ensures Effect(w, PruneAll(c, w, w.ids, now), y, Expires(c, w, now, y))
  {
    PruneAllView(c, w, w.ids, now, y);
    BlankExpires(c, now);
  }

  /** One frame of the whole tracker is, for every track, one step of that track alone. */
  lemma {:induction false} ActView(c: Config, policy: Policy, w: World, settled: seq<Settled>, now: Time,
                                   baseline: bool, y: int)
    requires WellFormed(w) && DistinctIds(settled)
    ensures Effect(w, Act(c, policy, w, settled, now, baseline), y,
                   TrackStep(c, policy, View(w, y), SeenIn(settled, y), now, baseline))
  {
    var w1 := ArriveAll(c, w, settled, now, baseline);
    var w2 := LeaveAll(c, w1, w1.ids, settled, now);
    var o1, o2 := Visits(c, w, settled, now, baseline, y), Departs(c, w1, settled, now, y);
    ArriveAllView(c, w, settled, now, baseline, y);
    LeaveKnown(c, w1, settled, now, y);
    EffectThen(w, w1, w2, y, o1, o2);
    if policy.Prune? {
      PruneKnown(c, w2, now, y);
      EffectThen(w, w2, PruneAll(c, w2, w2.ids, now), y, Outcome(o2.book, o1.events + o2.events),
                 Expires(c, w2, now, y));
    } else {
      assert o1.events + o2.events + [] == o1.events + o2.events;
    }
  }
}
