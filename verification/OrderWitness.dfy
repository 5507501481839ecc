/** What pruning can change: the order in which two tracks' transitions of one frame are recorded. A track that
    was dropped while idle and comes back is served after the tracks that stayed. */
module OrderWitness {
  import opened Common
  import opened Choose
  import opened Window
  import opened Movements
  import opened Transitions

  const CFG := Config(180.0, 0.0, 1.0, 0.0, 0)
  const ZONES: set<ZoneId> := {0, 1, 2}

  const F0 := Frame(0.0, [Sighting(1, 5, [])])
  const F1 := Frame(1.0, [Sighting(2, 5, [])])
  const F2 := Frame(2.0, [Sighting(1, 5, [0]), Sighting(2, 5, [0])])
  const F3 := Frame(3.0, [Sighting(1, 5, [1]), Sighting(2, 5, [2])])

  lemma {:induction false} SettleOne(s: Sighting)
    requires s.age >= 0
    ensures Settle(0, [s]) == [Settled(s.id, s.inside)]
  {
    assert Settle(0, []) == [];
  }

  lemma {:induction false} SettleTwo(s: Sighting, t: Sighting)
    requires s.age >= 0 && t.age >= 0 && s.id != t.id
    ensures Settle(0, [s, t]) == [Settled(s.id, s.inside), Settled(t.id, t.inside)]
  {
    assert [s, t][..1] == [s];
    SettleOne(s);
  }

  /** A step of a session that is not rewound. */
  lemma Forward(policy: Policy, s: Session, f: Frame, settled: seq<Settled>)
    requires s.last.Some? ==> s.last.value <= f.now
    requires settled == Settle(0, f.sightings)
    ensures Step(CFG, policy, ZONES, s, f).world
              == PruneWindows(CFG, Act(CFG, policy, s.world, settled, f.now, s.first.None?), f.now)
  {
  }

  /** A track seen in no zone, with nothing pending, only gets known. */
  lemma {:induction false} QuietArrival(w: World, id: int, now: Time, baseline: bool)
    requires id in w.tracks ==> w.tracks[id].book == BLANK
    ensures ArriveAll(CFG, w, [Settled(id, [])], now, baseline) == Touch(w, id, now)
  {
    var s := Settled(id, []);
    assert [s][..0] == [];
    var w' := Touch(w, id, now);
    assert ArriveAll(CFG, w, [], now, baseline) == w;
    assert Arrive(CFG, w, s, now, baseline) == Commit(w', id, Outcome(BLANK, []));
    assert PutBook(w', id, BLANK) == w';
  }

  /** Nobody leaves when every presence is still inside its zone. */
  lemma {:induction false} NobodyLeaves(w: World, ids: seq<int>, settled: seq<Settled>, now: Time)
    requires forall id :: id in ids && id in w.tracks ==>
               forall p :: p in w.tracks[id].book.presences ==> p.zone in InsideOf(settled, id)
    ensures LeaveAll(CFG, w, ids, settled, now) == w
  {
    if ids != [] {
      var n := |ids| - 1;
      NobodyLeaves(w, ids[..n], settled, now);
      if ids[n] in w.tracks {
        var b, inside := w.tracks[ids[n]].book, InsideOf(settled, ids[n]);
        FilterAll(b.presences, Stays(CFG, inside, now));
        FilterNone(b.presences, Goes(CFG, inside, now));
        assert Leave(CFG, b, inside, now) == Outcome(b, []);
        assert PutBook(w, ids[n], b) == w;
      }
    }
  }

  /** Pruning touches no window. */
  lemma {:induction false} ExpiryKeepsWindows(w: World, id: int, evs: seq<Event>)
    requires forall ev :: ev in evs ==> ev.ExpiredExit? || ev.ExpiredEntry?
    ensures var w' := EmitAll(w, id, evs);
            w'.entries == w.entries && w'.exits == w.exits && w'.transitions == w.transitions
  {
    if evs != [] {
      var n := |evs| - 1;
      ExpiryKeepsWindows(w, id, evs[..n]);
      assert evs[n] in evs;
    }
  }

  lemma {:induction false} PruneKeepsWindows(c: Config, w: World, ids: seq<int>, now: Time)
    ensures var w' := PruneAll(c, w, ids, now);
            w'.entries == w.entries && w'.exits == w.exits && w'.transitions == w.transitions
  {
    if ids != [] {
      var n := |ids| - 1;
      PruneKeepsWindows(c, w, ids[..n], now);
      var w1 := PruneAll(c, w, ids[..n], now);
      if ids[n] in w1.tracks {
        var o := Expire(c, w1.tracks[ids[n]].book, now);
        ExpiryKeepsWindows(PutBook(w1, ids[n], o.book), ids[n], o.events);
      }
    }
  }

  /** A blank track is kept while it has just been seen, and dropped once it has not. */
  lemma {:induction false} PruneBlank(w: World, id: int, now: Time)
    requires id in w.tracks && w.tracks[id].book == BLANK
    ensures PruneOne(CFG, w, id, now) == if now > w.tracks[id].lastSeenAt then Remove(w, id) else w
  {
    assert Expire(CFG, BLANK, now) == Outcome(BLANK, []);
    assert PutBook(w, id, BLANK) == w;
  }

  const EMPTY: map<ZoneId, seq<Time>> := map[0 := [], 1 := [], 2 := []]

  function Quiet(ids: seq<int>, tracks: map<int, TrackState>): World {
    World(ids, tracks, EMPTY, EMPTY, [], [])
  }

  lemma {:induction false} QuietWindows(ids: seq<int>, tracks: map<int, TrackState>, now: Time)
    ensures PruneWindows(CFG, Quiet(ids, tracks), now) == Quiet(ids, tracks)
  {
    assert PruneTimes(EMPTY, now - 180.0) == EMPTY;
  }

  const T0 := TrackState(0.0, BLANK)
  const T1 := TrackState(1.0, BLANK)

  lemma OneFrame()
    ensures forall policy :: Run(CFG, policy, ZONES, [F0]) == Session(Quiet([1], map[1 := T0]), Some(0.0), Some(0.0))
  {
    var w := Quiet([], map[]);
    var w1 := Quiet([1], map[1 := T0]);
    assert EmptyWorld(ZONES) == w;
    SettleOne(Sighting(1, 5, []));
    QuietArrival(w, 1, 0.0, true);
    assert Touch(w, 1, 0.0) == w1;
    NobodyLeaves(w1, [1], [Settled(1, [])], 0.0);
    PruneBlank(w1, 1, 0.0);
    assert PruneAll(CFG, w1, [1], 0.0) == w1;
    QuietWindows([1], map[1 := T0], 0.0);
    forall policy ensures Run(CFG, policy, ZONES, [F0]) == Session(w1, Some(0.0), Some(0.0)) {
      assert Run(CFG, policy, ZONES, []) == Init(ZONES);
      assert Act(CFG, policy, w, [Settled(1, [])], 0.0, true) == w1;
    }
  }

  const W1 := Quiet([1, 2], map[1 := T0, 2 := T1])
  const W2 := Quiet([2], map[2 := T1])

  lemma SecondFrameMoves()
    ensures ArriveAll(CFG, Quiet([1], map[1 := T0]), [Settled(2, [])], 1.0, false) == W1
    ensures LeaveAll(CFG, W1, [1, 2], [Settled(2, [])], 1.0) == W1
  {
    QuietArrival(Quiet([1], map[1 := T0]), 2, 1.0, false);
    assert Touch(Quiet([1], map[1 := T0]), 2, 1.0) == W1;
    NobodyLeaves(W1, [1, 2], [Settled(2, [])], 1.0);
  }

  lemma ForgetTrack1()
    ensures PruneOne(CFG, W1, 1, 1.0) == W2
  {
    PruneBlank(W1, 1, 1.0);
    FilterAppend([1], 2, NotId(1));
    FilterAppend([], 1, NotId(1));
    assert [1] + [2] == [1, 2] && [] + [1] == [1];
    assert W1.tracks - {1} == W2.tracks;
  }

  lemma SecondFramePrunes()
    ensures PruneAll(CFG, W1, [1, 2], 1.0) == W2
  {
    ForgetTrack1();
    PruneBlank(W2, 2, 1.0);
    assert [1, 2][..1] == [1] && [1][..0] == [];
    assert PruneAll(CFG, W1, [], 1.0) == W1;
  }

  lemma SecondFrame(policy: Policy, w: World)
    requires w == if policy.Prune? then W2 else W1
    ensures Step(CFG, policy, ZONES, Session(Quiet([1], map[1 := T0]), Some(0.0), Some(0.0)), F1) ==
            Session(w, Some(0.0), Some(1.0))
  {
    SettleOne(Sighting(2, 5, []));
    SecondFrameMoves();
    SecondFramePrunes();
    QuietWindows([2], map[2 := T1], 1.0);
    QuietWindows([1, 2], map[1 := T0, 2 := T1], 1.0);
    assert Act(CFG, policy, Quiet([1], map[1 := T0]), [Settled(2, [])], 1.0, false) == w;
  }

  lemma RunTwo(policy: Policy)
    ensures Run(CFG, policy, ZONES, [F0, F1]) == Step(CFG, policy, ZONES, Run(CFG, policy, ZONES, [F0]), F1)
  {
    assert [F0, F1][..1] == [F0];
  }

  /** After the first two frames the pruned tracker has forgotten track 1; the other one has not. */
  lemma TwoFrames()
    ensures Run(CFG, Prune, ZONES, [F0, F1]) == Session(W2, Some(0.0), Some(1.0))
    ensures Run(CFG, Keep, ZONES, [F0, F1]) == Session(W1, Some(0.0), Some(1.0))
  {
    OneFrame();
    RunTwo(Prune);
    RunTwo(Keep);
    SecondFrame(Prune, W2);
    SecondFrame(Keep, W1);
  }

  // The third frame: both tracks enter zone 0.

  const B0 := Book([Presence(0, 2.0, 2.0)], [], [Entry(0, 2.0)])

  lemma EnterZone0()
    ensures VisitAll(CFG, BLANK, [0], 2.0, false) == Outcome(B0, [Entered(Entry(0, 2.0))])
  {
    assert [0][..0] == [];
    assert VisitAll(CFG, BLANK, [], 2.0, false) == Outcome(BLANK, []);
    assert Visit(CFG, BLANK, 0, 2.0, false) == Outcome(B0, [Entered(Entry(0, 2.0))]);
  }

  /** A world where both tracks are known; `ids` is the order in which they will be served. */
  ghost predicate Both(w: World, ids: seq<int>, b1: Book, b2: Book) {
    && w.ids == ids && w.transitions == []
    && 1 in w.tracks && 2 in w.tracks && w.tracks[1].book == b1 && w.tracks[2].book == b2
  }

  lemma {:induction false} ArriveTwo(w: World, z1: ZoneId, z2: ZoneId, now: Time)
    ensures ArriveAll(CFG, w, [Settled(1, [z1]), Settled(2, [z2])], now, false) ==
            Arrive(CFG, Arrive(CFG, w, Settled(1, [z1]), now, false), Settled(2, [z2]), now, false)
  {
    var s1, s2 := Settled(1, [z1]), Settled(2, [z2]);
    assert [s1, s2][..1] == [s1] && [s1][..0] == [];
    assert ArriveAll(CFG, w, [], now, false) == w;
    assert ArriveAll(CFG, w, [s1], now, false) == Arrive(CFG, w, s1, now, false);
  }

  lemma {:induction false} ThirdFrameArrives(w: World, ids: seq<int>)
    requires w.transitions == []
    requires 1 in w.tracks ==> w.tracks[1].book == BLANK
    requires 2 in w.tracks && w.tracks[2].book == BLANK
    requires ids == (if 1 in w.tracks then w.ids else w.ids + [1])
    ensures Both(ArriveAll(CFG, w, [Settled(1, [0]), Settled(2, [0])], 2.0, false), ids, B0, B0)
  {
    ArriveTwo(w, 0, 0, 2.0);
    EnterZone0();
    var w1 := Touch(w, 1, 2.0);
    EmitOne(PutBook(w1, 1, B0), 1, Entered(Entry(0, 2.0)));
    var w2 := Arrive(CFG, w, Settled(1, [0]), 2.0, false);
    var w3 := Touch(w2, 2, 2.0);
    EmitOne(PutBook(w3, 2, B0), 2, Entered(Entry(0, 2.0)));
  }

  lemma {:induction false} KeepBusy(w: World, id: int, now: Time)
    requires id in w.tracks && w.tracks[id].book == B0 && now == 2.0
    ensures PruneOne(CFG, w, id, now) == w
  {
    FilterAll(B0.entries, LiveEntry(EntryHorizon(CFG, now)));
    FilterNone(B0.entries, DeadEntry(EntryHorizon(CFG, now)));
    assert Expire(CFG, B0, now) == Outcome(B0, []);
    assert PutBook(w, id, B0) == w;
  }

  lemma {:induction false} KeepAllBusy(w: World, ids: seq<int>)
    requires forall id :: id in ids ==> id in w.tracks && w.tracks[id].book == B0
    ensures PruneAll(CFG, w, ids, 2.0) == w
  {
    if ids != [] {
      var n := |ids| - 1;
      KeepAllBusy(w, ids[..n]);
      KeepBusy(w, ids[n], 2.0);
    }
  }

  /** What the third frame does to the world before its windows are aged. */
  lemma {:induction false} ThirdFrameActs(policy: Policy, w: World, ids: seq<int>)
    requires w.transitions == []
    requires 1 in w.tracks ==> w.tracks[1].book == BLANK
    requires 2 in w.tracks && w.tracks[2].book == BLANK
    requires ids == (if 1 in w.tracks then w.ids else w.ids + [1])
    requires forall id :: id in ids ==> id == 1 || id == 2
    ensures Both(Act(CFG, policy, w, [Settled(1, [0]), Settled(2, [0])], 2.0, false), ids, B0, B0)
  {
    var settled := [Settled(1, [0]), Settled(2, [0])];
    ThirdFrameArrives(w, ids);
    var w1 := ArriveAll(CFG, w, settled, 2.0, false);
    InsideOfTwo();
    NobodyLeaves(w1, ids, settled, 2.0);
    KeepAllBusy(w1, ids);
  }

  lemma InsideOfTwo()
    ensures InsideOf([Settled(1, [0]), Settled(2, [0])], 1) == [0]
    ensures InsideOf([Settled(1, [0]), Settled(2, [0])], 2) == [0]
  {
    assert [Settled(1, [0]), Settled(2, [0])][..1] == [Settled(1, [0])];
  }

  lemma {:induction false} ThirdFrame(policy: Policy, s: Session, ids: seq<int>)
    requires s.last == Some(1.0) && s.first.Some? && s.world.transitions == []
    requires 1 in s.world.tracks ==> s.world.tracks[1].book == BLANK
    requires 2 in s.world.tracks && s.world.tracks[2].book == BLANK
    requires ids == (if 1 in s.world.tracks then s.world.ids else s.world.ids + [1])
    requires forall id :: id in ids ==> id == 1 || id == 2
    ensures var s' := Step(CFG, policy, ZONES, s, F2);
            Both(s'.world, ids, B0, B0) && s'.last == Some(2.0) && s'.first.Some?
  {
    SettleTwo(Sighting(1, 5, [0]), Sighting(2, 5, [0]));
    ThirdFrameActs(policy, s.world, ids);
    var w := Act(CFG, policy, s.world, [Settled(1, [0]), Settled(2, [0])], 2.0, false);
    Forward(policy, s, F2, [Settled(1, [0]), Settled(2, [0])]);
    assert Both(PruneWindows(CFG, w, 2.0), ids, B0, B0);
  }

  // The fourth frame: track 1 is now in zone 1, track 2 in zone 2, and both have left zone 0.

  function Moving(z: ZoneId): Book {
    Book([Presence(0, 2.0, 2.0), Presence(z, 3.0, 3.0)], [], [Entry(0, 2.0), Entry(z, 3.0)])
  }

  lemma {:induction false} EnterNext(z: ZoneId)
    requires z == 1 || z == 2
    ensures VisitAll(CFG, B0, [z], 3.0, false) == Outcome(Moving(z), [Entered(Entry(z, 3.0))])
  {
    assert [z][..0] == [];
    assert VisitAll(CFG, B0, [], 3.0, false) == Outcome(B0, []);
    assert IndexOf(B0.presences, z).None?;
    assert Visit(CFG, B0, z, 3.0, false) == Outcome(Moving(z), [Entered(Entry(z, 3.0))]);
  }

  const X0 := Exit(0, 2.0, 2.0)

  lemma {:induction false} LeaveZone0(z: ZoneId)
    requires z == 1 || z == 2
    ensures Leave(CFG, Moving(z), [z], 3.0).events == [Left(X0), Moved(X0, Entry(z, 3.0))]
  {
    var b := Moving(z);
    var p0, p1 := Presence(0, 2.0, 2.0), Presence(z, 3.0, 3.0);
    FilterAppend([p0], p1, Goes(CFG, [z], 3.0));
    FilterAppend([], p0, Goes(CFG, [z], 3.0));
    assert [p0] + [p1] == b.presences && [] + [p0] == [p0];
    assert Filter(b.presences, Goes(CFG, [z], 3.0)) == [p0];
    var b' := b.(presences := Filter(b.presences, Stays(CFG, [z], 3.0)));
    BestAppend([], Entry(0, 2.0), Follows(CFG, X0), Earliest());
    BestAppend([Entry(0, 2.0)], Entry(z, 3.0), Follows(CFG, X0), Earliest());
    assert [] + [Entry(0, 2.0)] == [Entry(0, 2.0)] && [Entry(0, 2.0)] + [Entry(z, 3.0)] == b.entries;
    assert Best(b.entries, Follows(CFG, X0), Earliest()) == Some(1);
    assert PairExit(CFG, b', X0).events == [Left(X0), Moved(X0, Entry(z, 3.0))];
    assert [p0][..0] == [];
    assert DepartAll(CFG, b', []) == Outcome(b', []);
  }

  lemma {:induction false} FourthFrameArrives(w: World, ids: seq<int>)
    requires Both(w, ids, B0, B0)
    ensures Both(ArriveAll(CFG, w, [Settled(1, [1]), Settled(2, [2])], 3.0, false), ids, Moving(1), Moving(2))
  {
    ArriveTwo(w, 1, 2, 3.0);
    EnterNext(1);
    EnterNext(2);
    var w1 := Touch(w, 1, 3.0);
    EmitOne(PutBook(w1, 1, Moving(1)), 1, Entered(Entry(1, 3.0)));
    var w2 := Arrive(CFG, w, Settled(1, [1]), 3.0, false);
    var w3 := Touch(w2, 2, 3.0);
    EmitOne(PutBook(w3, 2, Moving(2)), 2, Entered(Entry(2, 3.0)));
  }

  function To(z: ZoneId): Transition { Transition(3.0, 0, z, 1.0) }

  lemma {:induction false} LeaveOnce(w: World, z: ZoneId, settled: seq<Settled>)
    requires (z == 1 || z == 2) && InsideOf(settled, z) == [z]
    requires z in w.tracks && w.tracks[z].book == Moving(z)
    ensures var w' := LeaveOne(CFG, w, z, settled, 3.0);
            && w'.transitions == w.transitions + [To(z)]
            && (forall y :: y in w.tracks && y != z ==> y in w'.tracks && w'.tracks[y] == w.tracks[y])
  {
    LeaveZone0(z);
    var o := Leave(CFG, Moving(z), [z], 3.0);
    EmitTwo(PutBook(w, z, o.book), z, Left(X0), Moved(X0, Entry(z, 3.0)));
  }

  lemma {:induction false} LeaveInOrder(w: World, a: int, b: int, settled: seq<Settled>)
    requires (a == 1 && b == 2) || (a == 2 && b == 1)
    requires Both(w, [a, b], Moving(1), Moving(2))
    requires InsideOf(settled, 1) == [1] && InsideOf(settled, 2) == [2]
    ensures LeaveAll(CFG, w, [a, b], settled, 3.0).transitions == [To(a), To(b)]
  {
    assert [a, b][..1] == [a] && [a][..0] == [];
    assert LeaveAll(CFG, w, [], settled, 3.0) == w;
    LeaveOnce(w, a, settled);
    LeaveOnce(LeaveOne(CFG, w, a, settled, 3.0), b, settled);
  }

  lemma {:induction false} FourthFrame(policy: Policy, s: Session, a: int, b: int)
    requires (a == 1 && b == 2) || (a == 2 && b == 1)
    requires s.last == Some(2.0) && s.first.Some? && Both(s.world, [a, b], B0, B0)
    ensures Step(CFG, policy, ZONES, s, F3).world.transitions == [To(a), To(b)]
  {
    SettleTwo(Sighting(1, 5, [1]), Sighting(2, 5, [2]));
    var settled := [Settled(1, [1]), Settled(2, [2])];
    FourthFrameArrives(s.world, [a, b]);
    var w1 := ArriveAll(CFG, s.world, settled, 3.0, false);
    assert InsideOf(settled, 2) == [2];
    assert InsideOf(settled, 1) == [1] by {
      assert settled[..1] == [Settled(1, [1])];
    }
    LeaveInOrder(w1, a, b, settled);
    var w2 := LeaveAll(CFG, w1, [a, b], settled, 3.0);
    PruneKeepsWindows(CFG, w2, w2.ids, 3.0);
    assert DropWhile([To(a), To(b)], OlderMove(3.0 - CFG.window)) == [To(a), To(b)];
  }

  /** A session after two frames, in which track 1 may have been forgotten, and the order in which it will serve the
      tracks. */
  ghost predicate Ready(s: Session, a: int, b: int) {
    && ((a == 1 && b == 2) || (a == 2 && b == 1))
    && s.last == Some(1.0) && s.first.Some? && s.world.transitions == []
    && (1 in s.world.tracks ==> s.world.tracks[1].book == BLANK)
    && 2 in s.world.tracks && s.world.tracks[2].book == BLANK
    && [a, b] == (if 1 in s.world.tracks then s.world.ids else s.world.ids + [1])
  }

  lemma BothReady()
    ensures Ready(Run(CFG, Prune, ZONES, [F0, F1]), 2, 1)
    ensures Ready(Run(CFG, Keep, ZONES, [F0, F1]), 1, 2)
  {
    TwoFrames();
  }

  lemma {:induction false} LastTwoFrames(policy: Policy, s: Session, s4: Session, a: int, b: int)
    requires Ready(s, a, b)
    requires s4 == Step(CFG, policy, ZONES, Step(CFG, policy, ZONES, s, F2), F3)
    ensures s4.world.transitions == [To(a), To(b)]
  {
    ThirdFrame(policy, s, [a, b]);
    FourthFrame(policy, Step(CFG, policy, ZONES, s, F2), a, b);
  }

  lemma {:induction false} FourFrames(policy: Policy)
    ensures Run(CFG, policy, ZONES, [F0, F1, F2, F3]) ==
            Step(CFG, policy, ZONES, Step(CFG, policy, ZONES, Run(CFG, policy, ZONES, [F0, F1]), F2), F3)
  {
    assert [F0, F1, F2, F3][..3] == [F0, F1, F2] && [F0, F1, F2][..2] == [F0, F1];
  }

  /** The recorded order differs: pruning made track 1 move to the back of the queue. Each track's own record is the
      same. */
  lemma PruningCanReorder()
    ensures Run(CFG, Prune, ZONES, [F0, F1, F2, F3]).world.transitions == [To(2), To(1)]
    ensures Run(CFG, Keep, ZONES, [F0, F1, F2, F3]).world.transitions == [To(1), To(2)]
  {
    BothReady();
    FourFrames(Prune);
    FourFrames(Keep);
    LastTwoFrames(Prune, Run(CFG, Prune, ZONES, [F0, F1]), Run(CFG, Prune, ZONES, [F0, F1, F2, F3]), 2, 1);
    LastTwoFrames(Keep, Run(CFG, Keep, ZONES, [F0, F1]), Run(CFG, Keep, ZONES, [F0, F1, F2, F3]), 1, 2);
  }
}
