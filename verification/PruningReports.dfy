/** What pruning leaves of the report, once it leaves the record alone. */
module PruningReports {
  import opened Common
  import opened Logs
  import opened Movements
  import opened Transitions
  import opened Projection
  import opened TransitionTheorems
  import opened TransitionWindows
  import opened FirstSettling
  import opened RecordOrder

  // -- The windows hold nothing but the record --------------------------------------------------------------

  lemma {:induction false} ShownTimes(log: seq<Tagged<Event>>, z: ZoneId)
    ensures EntryTimes(Filter(log, Shown()), z) == EntryTimes(log, z)
    ensures ExitTimes(Filter(log, Shown()), z) == ExitTimes(log, z)
  {
    if log != [] {
      var n := |log| - 1;
      ShownTimes(log[..n], z);
      if Shown()(log[n]) {
        var kept := Filter(log[..n], Shown());
        assert (kept + [log[n]])[..|kept|] == kept;
      } else {
        assert Filter(log, Shown()) == Filter(log[..n], Shown());
      }
    }
  }

  lemma {:induction false} ShownMoves(log: seq<Tagged<Event>>)
    ensures Moves(Filter(log, Shown())) == Moves(log)
  {
    if log != [] {
      var n := |log| - 1;
      ShownMoves(log[..n]);
      if Shown()(log[n]) {
        var kept := Filter(log[..n], Shown());
        assert (kept + [log[n]])[..|kept|] == kept;
      } else {
        assert Filter(log, Shown()) == Filter(log[..n], Shown());
      }
    }
  }

  lemma {:induction false} SameReport(c: Config, s: Session, t: Session, sightings: seq<Sighting>)
    requires s.first == t.first && s.last == t.last
    requires s.world.entries == t.world.entries && s.world.exits == t.world.exits
    requires s.world.transitions == t.world.transitions
    ensures ReportOf(c, s, sightings) == ReportOf(c, t, sightings)
  {
    forall count: nat ensures RatePerMin(c, s, count) == RatePerMin(c, t, count) {
    }
  }

  /** What the record says of a zone and of the transitions. */
  lemma {:induction false} SameHistories(p: World, k: World, z: ZoneId)
    requires SameRecord(p, k)
    ensures EntryTimes(p.log, z) == EntryTimes(k.log, z) && ExitTimes(p.log, z) == ExitTimes(k.log, z)
    ensures Moves(p.log) == Moves(k.log)
  {
    ShownTimes(p.log, z);
    ShownTimes(k.log, z);
    ShownMoves(p.log);
    ShownMoves(k.log);
  }

  lemma {:induction false} SameWindowed(p: World, k: World, cutoff: Time, z: ZoneId)
    requires SameRecord(p, k) && Windowed(p, cutoff, z) && Windowed(k, cutoff, z)
    ensures z in p.entries && z in k.entries ==> p.entries[z] == k.entries[z]
    ensures z in p.exits && z in k.exits ==> p.exits[z] == k.exits[z]
    ensures p.transitions == k.transitions
  {
    SameHistories(p, k, z);
  }

  lemma {:induction false} SameWindows(c: Config, zones: set<ZoneId>, p: Session, k: Session, z: ZoneId)
    requires SameRecord(p.world, k.world) && p.last == k.last && InOrder(c, zones, p, z) && InOrder(c, zones, k, z)
    ensures z in zones ==> p.world.entries[z] == k.world.entries[z] && p.world.exits[z] == k.world.exits[z]
    ensures p.world.transitions == k.world.transitions
  {
    if p.last.Some? {
      SameWindowed(p.world, k.world, p.last.value - c.window, z);
    }
  }

  lemma SameMap<V>(zones: set<ZoneId>, m: map<ZoneId, V>, m': map<ZoneId, V>)
    requires forall z :: z in m <==> z in zones
    requires forall z :: z in m' <==> z in zones
    requires forall z :: z in zones ==> m[z] == m'[z]
    ensures m == m'
  {
    forall z | z in m ensures z in m' && m[z] == m'[z] {
      assert z in zones;
    }
    forall z | z in m' ensures z in m {
      assert z in zones;
    }
    assert m.Keys == m'.Keys;
  }

  /** The reports agree whenever the records do: each window is a suffix of the record. */
  lemma {:induction false} ReportFollowsRecord(c: Config, zones: set<ZoneId>, frames: seq<Frame>,
                                               sightings: seq<Sighting>)
    requires ValidConfig(c)
    requires SameRecord(Run(c, Prune, zones, frames).world, Run(c, Keep, zones, frames).world)
    ensures ReportOf(c, Run(c, Prune, zones, frames), sightings) == ReportOf(c, Run(c, Keep, zones, frames), sightings)
  {
    var p, k := Run(c, Prune, zones, frames), Run(c, Keep, zones, frames);
    RunTwins(c, zones, frames, 0);
    forall z: ZoneId ensures (z in p.world.entries <==> z in zones) && (z in k.world.entries <==> z in zones)
      ensures (z in p.world.exits <==> z in zones) && (z in k.world.exits <==> z in zones)
      ensures z in zones ==> p.world.entries[z] == k.world.entries[z] && p.world.exits[z] == k.world.exits[z]
    {
      WindowsAreSuffixes(c, Prune, zones, frames, z);
      WindowsAreSuffixes(c, Keep, zones, frames, z);
      SameWindows(c, zones, p, k, z);
    }
    WindowsAreSuffixes(c, Prune, zones, frames, 0);
    WindowsAreSuffixes(c, Keep, zones, frames, 0);
    SameWindows(c, zones, p, k, 0);
    SameMap(zones, p.world.entries, k.world.entries);
    SameMap(zones, p.world.exits, k.world.exits);
    SameReport(c, p, k, sightings);
  }

  // -- A sufficient condition -------------------------------------------------------------------------------

  /** In no frame is a track settled that the tracker has forgotten since the last rewind. */
  ghost predicate NoComeback(c: Config, zones: set<ZoneId>, frames: seq<Frame>) {
    frames == [] ||
    (var n := |frames| - 1;
     var p := Rewound(zones, Run(c, Prune, zones, frames[..n]), frames[n].now).world;
     && NoComeback(c, zones, frames[..n])
     && NoneForgotten(p.ids, KnownBefore(c, frames[..n], frames[n].now), Settle(c.minAge, frames[n].sightings)))
  }

  ghost predicate NoneForgotten(ids: seq<int>, known: seq<int>, settled: seq<Settled>) {
    forall i :: 0 <= i < |settled| && settled[i].id in known ==> settled[i].id in ids
  }

  function Among(ids: seq<int>): int -> bool { (id: int) => id in ids }

  /** The tracks still in the dictionary stand there in the order `known`. */
  ghost predicate Listed(ids: seq<int>, known: seq<int>) {
    ids == Filter(known, Among(ids))
  }

  lemma {:induction false} FilterBoth(s: seq<int>, a: int -> bool, b: int -> bool, both: int -> bool)
    requires forall x :: x in s ==> (both(x) <==> a(x) && b(x))
    ensures Filter(Filter(s, a), b) == Filter(s, both)
  {
    if s != [] {
      var n := |s| - 1;
      var last := s[n];
      assert last in s && (both(last) <==> a(last) && b(last));
      forall x | x in s[..n] ensures both(x) <==> a(x) && b(x) {
        assert x in s;
      }
      FilterBoth(s[..n], a, b, both);
      if a(s[n]) {
        FilterAppend(Filter(s[..n], a), s[n], b);
      } else {
        assert Filter(s, a) == Filter(s[..n], a);
        assert Filter(s, both) == Filter(s[..n], both);
      }
    }
  }

  lemma {:induction false} EnrolOne(ids: seq<int>, known: seq<int>, id: int)
    requires Listed(ids, known) && (id in known ==> id in ids)
    ensures Listed(if id in ids then ids else ids + [id], if id in known then known else known + [id])
  {
    FilterMembers(known, Among(ids));
    if id !in known {
      var ids' := ids + [id];
      FilterBoth(known, Among(ids), Among(ids'), Among(ids'));
      FilterAll(ids, Among(ids'));
      FilterAppend(known, id, Among(ids'));
    }
  }

  lemma {:induction false} EnrolMembers(order: seq<int>, settled: seq<Settled>, id: int)
    ensures id in Enrol(order, settled) <==> id in order || exists i :: 0 <= i < |settled| && settled[i].id == id
  {
    if settled != [] {
      EnrolMembers(order, settled[..|settled| - 1], id);
    }
  }

  /** As long as nobody forgotten comes, new arrivals are added at the end of both orders. */
  lemma {:induction false} EnrolListed(ids: seq<int>, known: seq<int>, settled: seq<Settled>)
    requires Listed(ids, known) && NoneForgotten(ids, known, settled) && DistinctIds(settled)
    ensures Listed(Enrol(ids, settled), Enrol(known, settled))
  {
    if settled != [] {
      var n := |settled| - 1;
      var init, id := settled[..n], settled[n].id;
      EnrolListed(ids, known, init);
      EnrolMembers(ids, init, id);
      EnrolMembers(known, init, id);
      EnrolOne(Enrol(ids, init), Enrol(known, init), id);
    }
  }

  lemma {:induction false} DropListed(ids: seq<int>, known: seq<int>, id: int)
    requires Listed(ids, known)
    ensures Listed(Filter(ids, NotId(id)), known)
  {
    FilterMembers(ids, NotId(id));
    FilterBoth(known, Among(ids), NotId(id), Among(Filter(ids, NotId(id))));
  }

  lemma {:induction false} PruneListed(c: Config, w: World, ids: seq<int>, now: Time, known: seq<int>)
    requires Listed(w.ids, known)
    ensures Listed(PruneAll(c, w, ids, now).ids, known)
  {
    if ids != [] {
      var n := |ids| - 1;
      PruneListed(c, w, ids[..n], now, known);
      DropListed(PruneAll(c, w, ids[..n], now).ids, known, ids[n]);
    }
  }

  /** While no forgotten track comes back, the dictionary is in order of first settling. */
  lemma {:induction false} DictionaryListed(c: Config, zones: set<ZoneId>, frames: seq<Frame>)
    requires NoComeback(c, zones, frames)
    ensures Listed(Run(c, Prune, zones, frames).world.ids, FirstSettled(c, frames))
    decreases |frames|, 0
  {
    if frames != [] {
      var n := |frames| - 1;
      var f := frames[n];
      var p0 := StartListed(c, zones, frames[..n], f);
      var settled := Settle(c.minAge, f.sightings);
      SettleDistinct(c.minAge, f.sightings);
      EnrolListed(p0.world.ids, KnownBefore(c, frames[..n], f.now), settled);
      MovesEnrol(c, p0.world, settled, f.now, p0.first.None?);
      var w1 := ArriveAll(c, p0.world, settled, f.now, p0.first.None?);
      var w2 := LeaveAll(c, w1, w1.ids, settled, f.now);
      PruneListed(c, w2, w2.ids, f.now, FirstSettled(c, frames));
    }
  }

  lemma {:induction false} StartListed(c: Config, zones: set<ZoneId>, frames: seq<Frame>, f: Frame)
      returns (p0: Session)
    requires NoComeback(c, zones, frames)
    ensures p0 == Rewound(zones, Run(c, Prune, zones, frames), f.now)
    ensures WellFormed(p0.world) && Listed(p0.world.ids, KnownBefore(c, frames, f.now))
    decreases |frames|, 1
  {
    p0 := Rewound(zones, Run(c, Prune, zones, frames), f.now);
    DictionaryListed(c, zones, frames);
    LastFrame(c, Prune, zones, frames);
    RewoundWellFormed(zones, Run(c, Prune, zones, frames), f.now);
  }

  lemma {:induction false} LeaversKnown(c: Config, w: World, settled: seq<Settled>, now: Time, id: int)
    requires WellFormed(w) && Acting(DepartsOf(c, w, settled, now))(id)
    ensures id in w.ids
  {
    BlankLeaves(c, InsideOf(settled, id), now);
  }

  lemma {:induction false} ListedIsOrdered(c: Config, p: Session, known: seq<int>, settled: seq<Settled>, now: Time)
    requires WellFormed(p.world) && DistinctIds(settled)
    requires Listed(p.world.ids, known) && NoneForgotten(p.world.ids, known, settled)
    ensures LeaversInOrder(c, p, known, settled, now)
  {
    var p1 := ArriveAll(c, p.world, settled, now, p.first.None?);
    var leaving := Acting(DepartsOf(c, p1, settled, now));
    MovesEnrol(c, p.world, settled, now, p.first.None?);
    ArrivalsEnrol(c, p.world, settled, now, p.first.None?);
    EnrolListed(p.world.ids, known, settled);
    forall id | leaving(id) ensures Among(p1.ids)(id) {
      LeaversKnown(c, p1, settled, now, id);
    }
    FilterTwice(Enrol(known, settled), leaving, Among(p1.ids));
  }

  lemma {:induction false} NoComebackKeepsOrder(c: Config, zones: set<ZoneId>, frames: seq<Frame>)
    requires NoComeback(c, zones, frames)
    ensures OrdersKept(c, zones, frames)
  {
    if frames != [] {
      var n := |frames| - 1;
      NoComebackKeepsOrder(c, zones, frames[..n]);
      var p0 := StartListed(c, zones, frames[..n], frames[n]);
      SettleDistinct(c.minAge, frames[n].sightings);
      ListedIsOrdered(c, p0, KnownBefore(c, frames[..n], frames[n].now), Settle(c.minAge, frames[n].sightings),
                      frames[n].now);
    }
  }

  /** While no forgotten track comes back, the tracker that prunes reports exactly what one that keeps everything
      would report, and has recorded the same in the same order. */
  lemma {:induction false} ReportsUnchanged(c: Config, zones: set<ZoneId>, frames: seq<Frame>, sightings: seq<Sighting>)
    requires ValidConfig(c) && NoComeback(c, zones, frames)
    ensures RecordsAgree(c, zones, frames)
    ensures ReportOf(c, Run(c, Prune, zones, frames), sightings) == ReportOf(c, Run(c, Keep, zones, frames), sightings)
  {
    NoComebackKeepsOrder(c, zones, frames);
    RecordKeptIff(c, zones, frames);
    ReportFollowsRecord(c, zones, frames, sightings);
  }
}
