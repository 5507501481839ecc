/** The order in which tracks were first settled, as a function of the frames alone. */
module FirstSettling {
  import opened Common
  import opened Movements
  import opened Transitions
  import opened Projection
  import opened Conservation
  import opened TransitionTheorems

  /** Newly settled tracks line up behind those already known. */
  function Enrol(order: seq<int>, settled: seq<Settled>): seq<int> {
    if settled == [] then order
    else
      var n := |settled| - 1;
      var before := Enrol(order, settled[..n]);
      if settled[n].id in before then before else before + [settled[n].id]
  }

  /** The tracks settled since the last rewind, in the order in which they first were. */
  function FirstSettled(c: Config, frames: seq<Frame>): seq<int> {
    if frames == [] then []
    else
      var n := |frames| - 1;
      var before := FirstSettled(c, frames[..n]);
      Enrol(if Rewinds(frames[..n], frames[n].now) then [] else before, Settle(c.minAge, frames[n].sightings))
  }

  /** Does a frame at `now` run behind the last one? */
  predicate Rewinds(frames: seq<Frame>, now: Time) {
    frames != [] && now < frames[|frames| - 1].now
  }

  /** The same at the start of a frame at `now`. */
  function KnownBefore(c: Config, frames: seq<Frame>, now: Time): seq<int> {
    if Rewinds(frames, now) then [] else FirstSettled(c, frames)
  }

  lemma {:induction false} ArrivalsEnrol(c: Config, w: World, settled: seq<Settled>, now: Time, baseline: bool)
    requires WellFormed(w) && DistinctIds(settled)
    ensures ArriveAll(c, w, settled, now, baseline).ids == Enrol(w.ids, settled)
  {
    if settled != [] {
      var n := |settled| - 1;
      ArrivalsEnrol(c, w, settled[..n], now, baseline);
      ArriveAllView(c, w, settled[..n], now, baseline, 0);
    }
  }

  lemma {:induction false} MovesEnrol(c: Config, w: World, settled: seq<Settled>, now: Time, baseline: bool)
    requires WellFormed(w) && DistinctIds(settled)
    ensures var w1 := ArriveAll(c, w, settled, now, baseline);
            WellFormed(w1) && LeaveAll(c, w1, w1.ids, settled, now).ids == Enrol(w.ids, settled)
  {
    ArrivalsEnrol(c, w, settled, now, baseline);
    ArriveAllView(c, w, settled, now, baseline, 0);
    var w1 := ArriveAll(c, w, settled, now, baseline);
    LeaveAllView(c, w1, w1.ids, settled, now, 0);
  }

  lemma {:induction false} LastFrame(c: Config, policy: Policy, zones: set<ZoneId>, frames: seq<Frame>)
    ensures Run(c, policy, zones, frames).last == if frames == [] then None else Some(frames[|frames| - 1].now)
    ensures WellFormed(Run(c, policy, zones, frames).world)
  {
    RunBalanced(c, policy, zones, frames, 0, Item(Entry(0, 0.0), Exit(0, 0.0, 0.0), 0));
  }

  lemma {:induction false} RewoundIds(c: Config, zones: set<ZoneId>, frames: seq<Frame>, now: Time)
    requires Run(c, Policy.Keep, zones, frames).world.ids == FirstSettled(c, frames)
    ensures var k0 := Rewound(zones, Run(c, Policy.Keep, zones, frames), now);
            WellFormed(k0.world) && k0.world.ids == KnownBefore(c, frames, now)
  {
    LastFrame(c, Policy.Keep, zones, frames);
    RewoundWellFormed(zones, Run(c, Policy.Keep, zones, frames), now);
  }

  /** A tracker that never forgets lists its tracks in the order in which they were first settled. */
  lemma {:induction false} KeeperIdsAreFirstSettled(c: Config, zones: set<ZoneId>, frames: seq<Frame>)
    ensures Run(c, Policy.Keep, zones, frames).world.ids == FirstSettled(c, frames)
  {
    if frames != [] {
      var n := |frames| - 1;
      var f := frames[n];
      var k := Run(c, Policy.Keep, zones, frames[..n]);
      KeeperIdsAreFirstSettled(c, zones, frames[..n]);
      RewoundIds(c, zones, frames[..n], f.now);
      SettleDistinct(c.minAge, f.sightings);
      var k0 := Rewound(zones, k, f.now);
      MovesEnrol(c, k0.world, Settle(c.minAge, f.sightings), f.now, k0.first.None?);
    }
  }
}
