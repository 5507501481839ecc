/** Per zone, over all tracks: presences found at the start + entries ever - departures ever = presences now. */
module ZoneTotals {
  import opened Common
  import opened Logs
  import opened Movements
  import opened Conservation
  import opened Transitions
  import opened Projection

  function In(z: ZoneId): Tagged<Event> -> bool { (t: Tagged<Event>) => ZoneIn(z)(t.event) }
  function Out(z: ZoneId): Tagged<Event> -> bool { (t: Tagged<Event>) => ZoneOut(z)(t.event) }

  function Present(w: World, id: int, z: ZoneId): nat {
    Count(View(w, id).presences, InZone(z))
  }

  function Total(w: World, ids: seq<int>, z: ZoneId): nat {
    if ids == [] then 0 else Total(w, ids[..|ids| - 1], z) + Present(w, ids[|ids| - 1], z)
  }

  ghost predicate ZoneBalanced(w: World, z: ZoneId) {
    WellFormed(w) && Count(w.log, In(z)) == Total(w, w.ids, z) + Count(w.log, Out(z))
  }

  lemma {:induction false} TotalSame(w: World, w': World, ids: seq<int>, z: ZoneId)
    requires forall id :: id in ids ==> Present(w', id, z) == Present(w, id, z)
    ensures Total(w', ids, z) == Total(w, ids, z)
  {
    if ids != [] {
      TotalSame(w, w', ids[..|ids| - 1], z);
    }
  }

  lemma {:induction false} TotalChanges(w: World, w': World, ids: seq<int>, id: int, z: ZoneId)
    requires Distinct(ids) && id in ids
    requires forall y :: y in ids && y != id ==> Present(w', y, z) == Present(w, y, z)
    ensures Total(w', ids, z) + Present(w, id, z) == Total(w, ids, z) + Present(w', id, z)
  {
    var n := |ids| - 1;
    if ids[n] == id {
      TotalSame(w, w', ids[..n], z);
    } else {
      assert id in ids[..n];
      TotalChanges(w, w', ids[..n], id, z);
    }
  }

  lemma {:induction false} EmitAllCounts(w: World, id: int, evs: seq<Event>, z: ZoneId)
    ensures var log := EmitAll(w, id, evs).log;
            && Count(log, In(z)) == Count(w.log, In(z)) + Count(evs, ZoneIn(z))
            && Count(log, Out(z)) == Count(w.log, Out(z)) + Count(evs, ZoneOut(z))
  {
    if evs != [] {
      var n := |evs| - 1;
      EmitAllCounts(w, id, evs[..n], z);
      CountAppend(EmitAll(w, id, evs[..n]).log, Tagged(id, evs[n]), In(z));
      CountAppend(EmitAll(w, id, evs[..n]).log, Tagged(id, evs[n]), Out(z));
    }
  }

  lemma {:induction false} CommitBalanced(c: Config, w: World, id: int, o: Outcome, z: ZoneId)
    requires ZoneBalanced(w, z) && id in w.tracks && ZoneFlow(w.tracks[id].book, o, z)
    ensures ZoneBalanced(Commit(w, id, o), z)
  {
    var w' := Commit(w, id, o);
    CommitView(w, id, o, id);
    EmitAllCounts(PutBook(w, id, o.book), id, o.events, z);
    TotalChanges(w, w', w.ids, id, z);
  }

  lemma {:induction false} TouchBalanced(w: World, id: int, now: Time, z: ZoneId)
    requires ZoneBalanced(w, z)
    ensures ZoneBalanced(Touch(w, id, now), z)
  {
    var w' := Touch(w, id, now);
    TouchView(w, id, now, id);
    forall y ensures Present(w', y, z) == Present(w, y, z) {
      TouchView(w, id, now, y);
    }
    TotalSame(w, w', w.ids, z);
    if id !in w.tracks {
      TotalAppend(w', w.ids, id, z);
    }
  }

  lemma {:induction false} TotalAppend(w: World, ids: seq<int>, id: int, z: ZoneId)
    ensures Total(w, ids + [id], z) == Total(w, ids, z) + Present(w, id, z)
  {
    assert (ids + [id])[..|ids|] == ids;
  }

  lemma {:induction false} ArriveAllBalanced(c: Config, w: World, settled: seq<Settled>, now: Time, baseline: bool,
                                             it: Item)
    requires ZoneBalanced(w, it.z)
    ensures ZoneBalanced(ArriveAll(c, w, settled, now, baseline), it.z)
  {
    if settled != [] {
      var n := |settled| - 1;
      ArriveAllBalanced(c, w, settled[..n], now, baseline, it);
      var s, w1 := settled[n], ArriveAll(c, w, settled[..n], now, baseline);
      var w2 := Touch(w1, s.id, now);
      TouchBalanced(w1, s.id, now, it.z);
      VisitAllLawful(c, w2.tracks[s.id].book, s.inside, now, baseline, it);
      CommitBalanced(c, w2, s.id, VisitAll(c, w2.tracks[s.id].book, s.inside, now, baseline), it.z);
    }
  }

  lemma {:induction false} LeaveAllBalanced(c: Config, w: World, ids: seq<int>, settled: seq<Settled>, now: Time,
                                            it: Item)
    requires ZoneBalanced(w, it.z)
    ensures ZoneBalanced(LeaveAll(c, w, ids, settled, now), it.z)
  {
    if ids != [] {
      var n := |ids| - 1;
      LeaveAllBalanced(c, w, ids[..n], settled, now, it);
      var id, w1 := ids[n], LeaveAll(c, w, ids[..n], settled, now);
      if id in w1.tracks {
        LeaveLawful(c, w1.tracks[id].book, InsideOf(settled, id), now, it);
        CommitBalanced(c, w1, id, Leave(c, w1.tracks[id].book, InsideOf(settled, id), now), it.z);
      }
    }
  }

  lemma {:induction false} TotalWithout(w: World, ids: seq<int>, id: int, z: ZoneId)
    requires Present(w, id, z) == 0
    ensures Total(w, Filter(ids, NotId(id)), z) == Total(w, ids, z)
  {
    if ids != [] {
      var n := |ids| - 1;
      TotalWithout(w, ids[..n], id, z);
      var r0 := Filter(ids[..n], NotId(id));
      if ids[n] != id {
        assert (r0 + [ids[n]])[..|r0|] == r0;
      } else {
        assert Filter(ids, NotId(id)) == r0;
      }
    }
  }

  lemma {:induction false} RemoveBalanced(w: World, id: int, z: ZoneId)
    requires ZoneBalanced(w, z) && id in w.tracks && Idle(w.tracks[id].book)
    ensures ZoneBalanced(Remove(w, id), z)
  {
    RemoveView(w, id, id);
    TotalWithout(w, w.ids, id, z);
    FilterMembers(w.ids, NotId(id));
    TotalSame(w, Remove(w, id), Filter(w.ids, NotId(id)), z);
  }

  lemma {:induction false} PruneAllBalanced(c: Config, w: World, ids: seq<int>, now: Time, it: Item)
    requires ZoneBalanced(w, it.z)
    ensures ZoneBalanced(PruneAll(c, w, ids, now), it.z)
  {
    if ids != [] {
      var n := |ids| - 1;
      PruneAllBalanced(c, w, ids[..n], now, it);
      var id, w1 := ids[n], PruneAll(c, w, ids[..n], now);
      if id in w1.tracks {
        var o := Expire(c, w1.tracks[id].book, now);
        ExpireLawful(c, w1.tracks[id].book, now, it);
        CommitBalanced(c, w1, id, o, it.z);
        if Idle(Commit(w1, id, o).tracks[id].book) {
          RemoveBalanced(Commit(w1, id, o), id, it.z);
        }
      }
    }
  }

  lemma {:induction false} ActBalanced(c: Config, policy: Policy, w: World, settled: seq<Settled>, now: Time,
                                       baseline: bool, it: Item)
    requires ZoneBalanced(w, it.z)
    ensures ZoneBalanced(Act(c, policy, w, settled, now, baseline), it.z)
  {
    var w1 := ArriveAll(c, w, settled, now, baseline);
    var w2 := LeaveAll(c, w1, w1.ids, settled, now);
    ArriveAllBalanced(c, w, settled, now, baseline, it);
    LeaveAllBalanced(c, w1, w1.ids, settled, now, it);
    if policy.Prune? {
      PruneAllBalanced(c, w2, w2.ids, now, it);
    }
  }

  /** Over every run, the presences a zone has now are those it began with, plus those counted in, less those counted
      out. */
  lemma {:induction false} ZonePopulationConserved(c: Config, policy: Policy, zones: set<ZoneId>, frames: seq<Frame>,
                                                   z: ZoneId)
    ensures var w := Run(c, policy, zones, frames).world;
            WellFormed(w) && Count(w.log, In(z)) - Count(w.log, Out(z)) == Total(w, w.ids, z)
  {
    if frames != [] {
      var n := |frames| - 1;
      ZonePopulationConserved(c, policy, zones, frames[..n], z);
      var s0 := Rewound(zones, Run(c, policy, zones, frames[..n]), frames[n].now);
      var settled := Settle(c.minAge, frames[n].sightings);
      var it := Item(Entry(0, 0.0), Exit(0, 0.0, 0.0), z);
      ActBalanced(c, policy, s0.world, settled, frames[n].now, s0.first.None?, it);
      var w := Act(c, policy, s0.world, settled, frames[n].now, s0.first.None?);
      TotalSame(w, PruneWindows(c, w, frames[n].now), w.ids, z);
    }
  }
}
