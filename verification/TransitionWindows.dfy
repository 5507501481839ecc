/** The tracker's rolling windows are suffixes of everything counted since the last reset. */
module TransitionWindows {
  import opened Logs
  import opened Window
  import opened Movements
  import opened Transitions

  /** The transitions recorded since the last reset, in the order recorded. */
  function Moves(log: seq<Tagged<Event>>): seq<Transition> {
    if log == [] then []
    else
      var ev := log[|log| - 1].event;
      Moves(log[..|log| - 1]) + (if ev.Moved? then [TransitionOf(ev.exit, ev.entry)] else [])
  }

  /** When zone `z` was entered, and when it was left, since the last reset. */
  function EntryTimes(log: seq<Tagged<Event>>, z: ZoneId): seq<Time> {
    if log == [] then []
    else
      var ev := log[|log| - 1].event;
      EntryTimes(log[..|log| - 1], z) + (if ev.Entered? && ev.entry.zone == z then [ev.entry.enteredAt] else [])
  }

  function ExitTimes(log: seq<Tagged<Event>>, z: ZoneId): seq<Time> {
    if log == [] then []
    else
      var ev := log[|log| - 1].event;
      ExitTimes(log[..|log| - 1], z) + (if ev.Left? && ev.exit.zone == z then [ev.exit.leftAt] else [])
  }

  /** The window `q` of history `h` has become the window `q'` of history `h'` by appending only. */
  ghost predicate GrowsBy<T>(q: seq<T>, q': seq<T>, h: seq<T>, h': seq<T>) {
    h <= h' && q' == q + h'[|h|..]
  }

  lemma {:induction false} GrowsThen<T>(q: seq<T>, q1: seq<T>, q2: seq<T>, h: seq<T>, h1: seq<T>, h2: seq<T>)
    requires GrowsBy(q, q1, h, h1) && GrowsBy(q1, q2, h1, h2)
    ensures GrowsBy(q, q2, h, h2)
  {
    assert h2[|h|..] == h1[|h|..] + h2[|h1|..];
  }

  ghost predicate Grows(w: World, w': World, z: ZoneId) {
    && (z in w.entries <==> z in w'.entries) && (z in w.exits <==> z in w'.exits)
    && (z in w.entries ==> GrowsBy(w.entries[z], w'.entries[z], EntryTimes(w.log, z), EntryTimes(w'.log, z)))
    && (z in w.exits ==> GrowsBy(w.exits[z], w'.exits[z], ExitTimes(w.log, z), ExitTimes(w'.log, z)))
    && GrowsBy(w.transitions, w'.transitions, Moves(w.log), Moves(w'.log))
  }

  lemma {:induction false} GrowsTransitive(w: World, w1: World, w2: World, z: ZoneId)
    requires Grows(w, w1, z) && Grows(w1, w2, z)
    ensures Grows(w, w2, z)
  {
    if z in w.entries {
      GrowsThen(w.entries[z], w1.entries[z], w2.entries[z], EntryTimes(w.log, z), EntryTimes(w1.log, z),
                EntryTimes(w2.log, z));
    }
    if z in w.exits {
      GrowsThen(w.exits[z], w1.exits[z], w2.exits[z], ExitTimes(w.log, z), ExitTimes(w1.log, z), ExitTimes(w2.log, z));
    }
    GrowsThen(w.transitions, w1.transitions, w2.transitions, Moves(w.log), Moves(w1.log), Moves(w2.log));
  }

  lemma {:induction false} EmitGrows(w: World, id: int, ev: Event, z: ZoneId)
    ensures Grows(w, Emit(w, id, ev), z)
  {
    var w' := Emit(w, id, ev);
    assert w'.log[..|w.log|] == w.log;
  }

  lemma {:induction false} EmitAllGrows(w: World, id: int, evs: seq<Event>, z: ZoneId)
    ensures Grows(w, EmitAll(w, id, evs), z)
  {
    if evs != [] {
      var n := |evs| - 1;
      EmitAllGrows(w, id, evs[..n], z);
      EmitGrows(EmitAll(w, id, evs[..n]), id, evs[n], z);
      GrowsTransitive(w, EmitAll(w, id, evs[..n]), EmitAll(w, id, evs), z);
    }
  }

  lemma {:induction false} CommitGrows(w: World, id: int, o: Outcome, z: ZoneId)
    requires id in w.tracks
    ensures Grows(w, Commit(w, id, o), z)
  {
    EmitAllGrows(PutBook(w, id, o.book), id, o.events, z);
  }

  lemma {:induction false} ArriveAllGrows(c: Config, w: World, settled: seq<Settled>, now: Time, baseline: bool,
                                          z: ZoneId)
    ensures Grows(w, ArriveAll(c, w, settled, now, baseline), z)
  {
    if settled != [] {
      var n := |settled| - 1;
      ArriveAllGrows(c, w, settled[..n], now, baseline, z);
      var s, w1 := settled[n], ArriveAll(c, w, settled[..n], now, baseline);
      var w2 := Touch(w1, s.id, now);
      CommitGrows(w2, s.id, VisitAll(c, w2.tracks[s.id].book, s.inside, now, baseline), z);
      GrowsTransitive(w, w1, ArriveAll(c, w, settled, now, baseline), z);
    }
  }

  lemma {:induction false} LeaveAllGrows(c: Config, w: World, ids: seq<int>, settled: seq<Settled>, now: Time,
                                         z: ZoneId)
    ensures Grows(w, LeaveAll(c, w, ids, settled, now), z)
  {
    if ids != [] {
      var n := |ids| - 1;
      LeaveAllGrows(c, w, ids[..n], settled, now, z);
      var id, w1 := ids[n], LeaveAll(c, w, ids[..n], settled, now);
      if id in w1.tracks {
        CommitGrows(w1, id, Leave(c, w1.tracks[id].book, InsideOf(settled, id), now), z);
        GrowsTransitive(w, w1, LeaveAll(c, w, ids, settled, now), z);
      }
    }
  }

  lemma {:induction false} PruneAllGrows(c: Config, w: World, ids: seq<int>, now: Time, z: ZoneId)
    ensures Grows(w, PruneAll(c, w, ids, now), z)
  {
    if ids != [] {
      var n := |ids| - 1;
      PruneAllGrows(c, w, ids[..n], now, z);
      var id, w1 := ids[n], PruneAll(c, w, ids[..n], now);
      if id in w1.tracks {
        CommitGrows(w1, id, Expire(c, w1.tracks[id].book, now), z);
        GrowsTransitive(w, w1, PruneAll(c, w, ids, now), z);
      }
    }
  }

  lemma {:induction false} ActGrows(c: Config, policy: Policy, w: World, settled: seq<Settled>, now: Time,
                                    baseline: bool, z: ZoneId)
    ensures Grows(w, Act(c, policy, w, settled, now, baseline), z)
  {
    var w1 := ArriveAll(c, w, settled, now, baseline);
    var w2 := LeaveAll(c, w1, w1.ids, settled, now);
    ArriveAllGrows(c, w, settled, now, baseline, z);
    LeaveAllGrows(c, w1, w1.ids, settled, now, z);
    GrowsTransitive(w, w1, w2, z);
    if policy.Prune? {
      PruneAllGrows(c, w2, w2.ids, now, z);
      GrowsTransitive(w, w2, PruneAll(c, w2, w2.ids, now), z);
    }
  }

  /** The windows hold exactly what the pop loops leave of the whole history. */
  ghost predicate Windowed(w: World, cutoff: Time, z: ZoneId) {
    && (z in w.entries ==> w.entries[z] == DropWhile(EntryTimes(w.log, z), Older(cutoff)))
    && (z in w.exits ==> w.exits[z] == DropWhile(ExitTimes(w.log, z), Older(cutoff)))
    && w.transitions == DropWhile(Moves(w.log), OlderMove(cutoff))
  }

  lemma {:induction false} WindowMoves<T>(q: seq<T>, q': seq<T>, h: seq<T>, h': seq<T>, early: T -> bool,
                                          late: T -> bool)
    requires q == DropWhile(h, early) && GrowsBy(q, q', h, h')
    requires forall x :: x in h && early(x) ==> late(x)
    ensures DropWhile(q', late) == DropWhile(h', late)
  {
    DropWhileResumes(h, h'[|h|..], early, late);
    assert h + h'[|h|..] == h';
  }

  lemma {:induction false} PruneWindowed(c: Config, w: World, w': World, early: Time, now: Time, z: ZoneId)
    requires Windowed(w, early, z) && Grows(w, w', z) && early <= now - c.window
    ensures Windowed(PruneWindows(c, w', now), now - c.window, z)
  {
    var late := now - c.window;
    if z in w.entries {
      WindowMoves(w.entries[z], w'.entries[z], EntryTimes(w.log, z), EntryTimes(w'.log, z), Older(early), Older(late));
    }
    if z in w.exits {
      WindowMoves(w.exits[z], w'.exits[z], ExitTimes(w.log, z), ExitTimes(w'.log, z), Older(early), Older(late));
    }
    WindowMoves(w.transitions, w'.transitions, Moves(w.log), Moves(w'.log), OlderMove(early), OlderMove(late));
  }

  /** A session whose windows are in order, one for each zone of the camera; before the first frame they are empty. */
  ghost predicate InOrder(c: Config, zones: set<ZoneId>, s: Session, z: ZoneId) {
    && (z in s.world.entries <==> z in zones) && (z in s.world.exits <==> z in zones)
    && (s.last.Some? ==> Windowed(s.world, s.last.value - c.window, z))
    && (s.last.None? ==> Unused(s.world, z))
  }

  ghost predicate Unused(w: World, z: ZoneId) {
    && w.log == [] && w.transitions == []
    && (z in w.entries ==> w.entries[z] == []) && (z in w.exits ==> w.exits[z] == [])
  }

  /** Before the first frame there is nothing to drop, at whatever cutoff. */
  lemma {:induction false} EmptyWindowed(w: World, cutoff: Time, z: ZoneId)
    requires Unused(w, z)
    ensures Windowed(w, cutoff, z)
  {
  }

  /** The cutoff of the last frame, or of this one when it is the first. */
  function CutoffBefore(c: Config, s: Session, now: Time): Time {
    (if s.last.Some? then s.last.value else now) - c.window
  }

  lemma {:induction false} RewoundWindowed(c: Config, zones: set<ZoneId>, s: Session, now: Time, z: ZoneId)
    requires InOrder(c, zones, s, z)
    ensures var s0 := Rewound(zones, s, now);
            && (z in s0.world.entries <==> z in zones) && (z in s0.world.exits <==> z in zones)
            && CutoffBefore(c, s0, now) <= now - c.window && Windowed(s0.world, CutoffBefore(c, s0, now), z)
  {
    var s0 := Rewound(zones, s, now);
    if s0.last.None? {
      EmptyWindowed(s0.world, CutoffBefore(c, s0, now), z);
    }
  }

  lemma {:induction false} ActInOrder(c: Config, policy: Policy, w: World, settled: seq<Settled>, now: Time,
                                      baseline: bool, early: Time, z: ZoneId)
    requires Windowed(w, early, z) && early <= now - c.window
    ensures var w' := PruneWindows(c, Act(c, policy, w, settled, now, baseline), now);
            && (z in w.entries <==> z in w'.entries) && (z in w.exits <==> z in w'.exits)
            && Windowed(w', now - c.window, z)
  {
    ActGrows(c, policy, w, settled, now, baseline, z);
    PruneWindowed(c, w, Act(c, policy, w, settled, now, baseline), early, now, z);
  }

  lemma {:induction false} StepInOrder(c: Config, policy: Policy, zones: set<ZoneId>, s: Session, f: Frame, z: ZoneId)
    requires InOrder(c, zones, s, z)
    ensures InOrder(c, zones, Step(c, policy, zones, s, f), z)
  {
    var s0 := Rewound(zones, s, f.now);
    RewoundWindowed(c, zones, s, f.now, z);
    ActInOrder(c, policy, s0.world, Settle(c.minAge, f.sightings), f.now, s0.first.None?, CutoffBefore(c, s0, f.now),
               z);
  }

  /** Over every run, each window is the suffix of the whole history from its first entry not older than the window -
      even though departures and transitions are recorded back-dated and so out of order. */
  lemma {:induction false} WindowsAreSuffixes(c: Config, policy: Policy, zones: set<ZoneId>, frames: seq<Frame>,
                                              z: ZoneId)
    ensures InOrder(c, zones, Run(c, policy, zones, frames), z)
  {
    if frames != [] {
      var n := |frames| - 1;
      WindowsAreSuffixes(c, policy, zones, frames[..n], z);
      StepInOrder(c, policy, zones, Run(c, policy, zones, frames[..n]), frames[n], z);
    }
  }
}
