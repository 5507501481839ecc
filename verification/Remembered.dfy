/** What the transition tracker still remembers after a run, and what it has forgotten
    (ai/surgeguard_ai/zones/transitions.py). */
module Remembered {
  import opened Common
  import opened Movements
  import opened Transitions
  import opened Projection
  import opened FirstSettling
  import opened ZoneStays

  /** Was the track seen in a frame, old enough? */
  predicate WasSeen(minAge: int, sightings: seq<Sighting>, y: int) {
    exists i :: 0 <= i < |sightings| && sightings[i].id == y && sightings[i].age >= minAge
  }

  /** When it last was since observation began. */
  function LastSeen(c: Config, frames: seq<Frame>, y: int): Option<Time> {
    if frames == [] then None
    else
      var n := |frames| - 1;
      if WasSeen(c.minAge, frames[n].sightings, y) then Some(frames[n].now)
      else if Starts(frames[..n], frames[n].now) then None
      else LastSeen(c, frames[..n], y)
  }

  // -- What the tracker has on a track ----------------------------------------------------------------------

  /** When a known track was last seen, according to the tracker. */
  function Noted(w: World, y: int): Option<Time> {
    if y in w.tracks then Some(w.tracks[y].lastSeenAt) else None
  }

  lemma {:induction false} SettledIffSeen(minAge: int, sightings: seq<Sighting>, y: int)
    ensures PositionOf(Settle(minAge, sightings), y).Some? <==> WasSeen(minAge, sightings, y)
  {
    if sightings != [] {
      var n := |sightings| - 1;
      var s, rest := sightings[n], Settle(minAge, sightings[..n]);
      SettledIffSeen(minAge, sightings[..n], y);
      SeenAppend(minAge, sightings, y);
      if s.age >= minAge {
        var at := PositionOf(rest, s.id);
        if at.Some? {
          PositionUpdate(rest, at.value, Settled(s.id, s.inside), y);
        } else {
          PositionAppend(rest, Settled(s.id, s.inside), y);
        }
      }
    }
  }

  lemma {:induction false} SeenAppend(minAge: int, sightings: seq<Sighting>, y: int)
    requires sightings != []
    ensures var n := |sightings| - 1;
            WasSeen(minAge, sightings, y) <==>
              WasSeen(minAge, sightings[..n], y) || (sightings[n].id == y && sightings[n].age >= minAge)
  {
    var n := |sightings| - 1;
    if WasSeen(minAge, sightings[..n], y) {
      var i :| 0 <= i < n && sightings[..n][i].id == y && sightings[..n][i].age >= minAge;
      assert sightings[i].id == y;
    }
    if WasSeen(minAge, sightings, y) && !(sightings[n].id == y && sightings[n].age >= minAge) {
      var i :| 0 <= i <= n && sightings[i].id == y && sightings[i].age >= minAge;
      assert sightings[..n][i].id == y;
    }
  }

  lemma {:induction false} ArriveAllNotes(c: Config, w: World, settled: seq<Settled>, now: Time, baseline: bool, y: int)
    ensures Noted(ArriveAll(c, w, settled, now, baseline), y)
              == if PositionOf(settled, y).Some? then Some(now) else Noted(w, y)
  {
    if settled != [] {
      ArriveAllNotes(c, w, settled[..|settled| - 1], now, baseline, y);
    }
  }

  lemma {:induction false} LeaveAllNotes(c: Config, w: World, ids: seq<int>, settled: seq<Settled>, now: Time, y: int)
    ensures Noted(LeaveAll(c, w, ids, settled, now), y) == Noted(w, y)
  {
    if ids != [] {
      LeaveAllNotes(c, w, ids[..|ids| - 1], settled, now, y);
    }
  }

  /** Nothing of it is left, and it has been out of sight for longer than the grace period. */
  predicate Spent(c: Config, b: Book, seen: Time, now: Time) {
    Idle(b) && now - seen > c.grace
  }

  /** Pruning a track that is known expires its book, and drops it once it is spent. */
  ghost predicate PrunedTo(c: Config, w: World, w': World, now: Time, y: int) {
    if y in w.tracks then
      var b := ExpireBook(c, w.tracks[y].book, now);
      if Spent(c, b, w.tracks[y].lastSeenAt, now) then y !in w'.tracks
      else y in w'.tracks && w'.tracks[y] == TrackState(w.tracks[y].lastSeenAt, b)
    else y !in w'.tracks
  }

  lemma {:induction false} PruneOneTo(c: Config, w: World, id: int, now: Time, y: int)
    ensures var w' := PruneOne(c, w, id, now);
            if y == id then PrunedTo(c, w, w', now, y)
            else (y in w'.tracks <==> y in w.tracks) && (y in w.tracks ==> w'.tracks[y] == w.tracks[y])
  {
  }

  lemma {:induction false} PruneAllTo(c: Config, w: World, ids: seq<int>, now: Time, y: int)
    requires Distinct(ids)
    ensures var w' := PruneAll(c, w, ids, now);
            if y in ids then PrunedTo(c, w, w', now, y)
            else (y in w'.tracks <==> y in w.tracks) && (y in w.tracks ==> w'.tracks[y] == w.tracks[y])
  {
    if ids != [] {
      var n := |ids| - 1;
      PruneAllTo(c, w, ids[..n], now, y);
      PruneOneTo(c, PruneAll(c, w, ids[..n], now), ids[n], now, y);
      LastIsNew(ids, y);
    }
  }

  lemma {:induction false} ActNotes(c: Config, w: World, settled: seq<Settled>, now: Time, baseline: bool, y: int)
    requires WellFormed(w) && DistinctIds(settled)
    ensures var w2, w' := LeaveAll(c, ArriveAll(c, w, settled, now, baseline),
                                   ArriveAll(c, w, settled, now, baseline).ids, settled, now),
                          Act(c, Policy.Prune, w, settled, now, baseline);
            && Noted(w2, y) == (if PositionOf(settled, y).Some? then Some(now) else Noted(w, y))
            && PrunedTo(c, w2, w', now, y)
  {
    var w1 := ArriveAll(c, w, settled, now, baseline);
    var w2 := LeaveAll(c, w1, w1.ids, settled, now);
    ArriveAllNotes(c, w, settled, now, baseline, y);
    ArriveAllView(c, w, settled, now, baseline, y);
    LeaveAllNotes(c, w1, w1.ids, settled, now, y);
    LeaveAllView(c, w1, w1.ids, settled, now, y);
    PruneAllTo(c, w2, w2.ids, now, y);
  }

  // -- Over every run ---------------------------------------------------------------------------------------

  /** Nothing pending is too old to pair: no departure left longer ago than the largest gap, and no entry longer than
      the overlap, the grace period and one second of slack. */
  ghost predicate NothingStale(c: Config, b: Book, now: Time) {
    && (forall x :: x in b.exits ==> now - x.leftAt <= c.maxGap)
    && (forall e :: e in b.entries ==> now - e.enteredAt <= c.overlap + c.grace + 1.0)
  }

  /** What is remembered of a track: as long as it was seen within the grace period or something of it is present or
      pending, when it was last seen; otherwise nothing. */
  ghost predicate Remembers(c: Config, w: World, frames: seq<Frame>, now: Time, y: int) {
    var seen := LastSeen(c, frames, y);
    && (y in w.tracks <==> seen.Some? && (now - seen.value <= c.grace || !Idle(View(w, y))))
    && (y in w.tracks ==> Some(w.tracks[y].lastSeenAt) == seen)
    && NothingStale(c, View(w, y), now)
  }

  lemma {:induction false} ExpiredIsFresh(c: Config, b: Book, now: Time)
    ensures NothingStale(c, ExpireBook(c, b, now), now)
  {
    FilterMembers(b.exits, LiveExit(ExitHorizon(c, now)));
    FilterMembers(b.entries, LiveEntry(EntryHorizon(c, now)));
  }

  /** What the tracker noted, before a frame at `now`, of when the track was last seen. */
  ghost predicate NotedBefore(c: Config, w: World, seen: Option<Time>, now: Time, y: int) {
    if y in w.tracks then seen == Some(w.tracks[y].lastSeenAt) else seen.None? || now - seen.value > c.grace
  }

  lemma {:induction false} PrunedRemembers(c: Config, w2: World, w': World, frames: seq<Frame>, now: Time, y: int)
    requires PrunedTo(c, w2, w', now, y) && NotedBefore(c, w2, LastSeen(c, frames, y), now, y)
    ensures Remembers(c, w', frames, now, y)
  {
    if y in w2.tracks {
      ExpiredIsFresh(c, w2.tracks[y].book, now);
    }
  }

  lemma {:induction false} NotedByFrame(c: Config, w: World, w2: World, frames: seq<Frame>, y: int)
    requires frames != []
    requires var n := |frames| - 1; var f := frames[n];
             && NotedBefore(c, w, if Starts(frames[..n], f.now) then None else LastSeen(c, frames[..n], y), f.now, y)
             && Noted(w2, y) == (if WasSeen(c.minAge, f.sightings, y) then Some(f.now) else Noted(w, y))
    ensures NotedBefore(c, w2, LastSeen(c, frames, y), frames[|frames| - 1].now, y)
  {
  }

  lemma {:induction false} StartNoted(c: Config, zones: set<ZoneId>, frames: seq<Frame>, now: Time, y: int)
    requires frames != [] ==>
               Remembers(c, Run(c, Policy.Prune, zones, frames).world, frames, frames[|frames| - 1].now, y)
    ensures var w0 := Rewound(zones, Run(c, Policy.Prune, zones, frames), now).world;
            && WellFormed(w0)
            && NotedBefore(c, w0, if Starts(frames, now) then None else LastSeen(c, frames, y), now, y)
  {
    LastFrame(c, Policy.Prune, zones, frames);
  }

  lemma {:induction false} StepRemembers(c: Config, zones: set<ZoneId>, frames: seq<Frame>, y: int)
    requires frames != []
    requires var n := |frames| - 1;
             var w0 := Rewound(zones, Run(c, Policy.Prune, zones, frames[..n]), frames[n].now).world;
             && WellFormed(w0)
             && NotedBefore(c, w0, if Starts(frames[..n], frames[n].now) then None else LastSeen(c, frames[..n], y),
                            frames[n].now, y)
    ensures Remembers(c, Run(c, Policy.Prune, zones, frames).world, frames, frames[|frames| - 1].now, y)
  {
    var n := |frames| - 1;
    var f := frames[n];
    var s0 := Rewound(zones, Run(c, Policy.Prune, zones, frames[..n]), f.now);
    var settled, b := Settle(c.minAge, f.sightings), s0.first.None?;
    SettleDistinct(c.minAge, f.sightings);
    SettledIffSeen(c.minAge, f.sightings, y);
    ActNotes(c, s0.world, settled, f.now, b, y);
    var w1 := ArriveAll(c, s0.world, settled, f.now, b);
    var w2 := LeaveAll(c, w1, w1.ids, settled, f.now);
    NotedByFrame(c, s0.world, w2, frames, y);
    PrunedRemembers(c, w2, Act(c, Policy.Prune, s0.world, settled, f.now, b), frames, f.now, y);
  }

  /** Over every run: the tracker has forgotten exactly the tracks of which nothing is left and that have been out of
      sight for longer than the grace period, and keeps nothing pending that is too old to pair. */
  lemma {:induction false} ForgottenIffSpent(c: Config, zones: set<ZoneId>, frames: seq<Frame>, y: int)
    requires frames != []
    ensures Remembers(c, Run(c, Policy.Prune, zones, frames).world, frames, frames[|frames| - 1].now, y)
  {
    var n := |frames| - 1;
    if n > 0 {
      ForgottenIffSpent(c, zones, frames[..n], y);
    }
    StartNoted(c, zones, frames[..n], frames[n].now, y);
    StepRemembers(c, zones, frames, y);
  }
}
