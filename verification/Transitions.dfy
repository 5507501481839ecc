/** The whole tracker of one camera as a state machine over frames: every track's book, the rolling
    windows of counted movements, and (for the proofs) the log of everything since the last reset. */
module Transitions {
  import opened Common
  import opened Logs
  import opened Window
  import opened Movements
  import Medians

  datatype TrackState = TrackState(lastSeenAt: Time, book: Book)

  /** One recorded transition, as the tracker stores it. */
  datatype Transition = Transition(at: Time, fromZone: ZoneId, toZone: ZoneId, transit: real)

  /** `ids` is the insertion order of the dictionary `tracks`. */
  datatype World = World(
    ids: seq<int>,
    tracks: map<int, TrackState>,
    entries: map<ZoneId, seq<Time>>,
    exits: map<ZoneId, seq<Time>>,
    transitions: seq<Transition>,
    log: seq<Tagged<Event>>)

  function TransitionOf(x: Exit, e: Entry): Transition {
    Transition(Max(x.leftAt, e.enteredAt), x.zone, e.zone, Max(0.0, e.enteredAt - x.leftAt))
  }

  function AppendTo(m: map<ZoneId, seq<Time>>, z: ZoneId, at: Time): map<ZoneId, seq<Time>> {
    if z in m then m[z := m[z] + [at]] else m
  }

  /** An event is logged, and counted in the window it belongs to. */
  function Emit(w: World, id: int, ev: Event): World {
    var w' := w.(log := w.log + [Tagged(id, ev)]);
    match ev
    case Entered(e) => w'.(entries := AppendTo(w.entries, e.zone, e.enteredAt))
    case Left(x) => w'.(exits := AppendTo(w.exits, x.zone, x.leftAt))
    case Moved(x, e) => w'.(transitions := w.transitions + [TransitionOf(x, e)])
    case _ => w'
  }

  function EmitAll(w: World, id: int, evs: seq<Event>): (r: World)
    ensures r.ids == w.ids && r.tracks == w.tracks
  {
    if evs == [] then w else Emit(EmitAll(w, id, evs[..|evs| - 1]), id, evs[|evs| - 1])
  }

  lemma {:induction false} EmitOne(w: World, id: int, ev: Event)
    ensures EmitAll(w, id, [ev]) == Emit(w, id, ev)
  {
    assert [ev][..0] == [];
    assert EmitAll(w, id, []) == w;
  }

  lemma {:induction false} EmitTwo(w: World, id: int, ev: Event, ev': Event)
    ensures EmitAll(w, id, [ev, ev']) == Emit(Emit(w, id, ev), id, ev')
  {
    assert [ev, ev'][..1] == [ev];
    EmitOne(w, id, ev);
  }

  function PutBook(w: World, id: int, b: Book): World
    requires id in w.tracks
  {
    w.(tracks := w.tracks[id := w.tracks[id].(book := b)])
  }

  function Commit(w: World, id: int, o: Outcome): World
    requires id in w.tracks
  {
    EmitAll(PutBook(w, id, o.book), id, o.events)
  }

  // -- One frame ---------------------------------------------------------------------------------------

  /** A detected person: track id, age in frames, and the zones the foot point is in, in the set's iteration order. */
  datatype Sighting = Sighting(id: int, age: int, inside: seq<ZoneId>)
  datatype Frame = Frame(now: Time, sightings: seq<Sighting>)
  datatype Settled = Settled(id: int, inside: seq<ZoneId>)

  function PositionOf(settled: seq<Settled>, id: int): (r: Option<nat>)
    ensures r.Some? ==> r.value < |settled| && settled[r.value].id == id
    ensures r.None? ==> forall s :: s in settled ==> s.id != id
  {
    if settled == [] then None
    else if settled[|settled| - 1].id == id then Some(|settled| - 1)
    else PositionOf(settled[..|settled| - 1], id)
  }

  function SeenIn(settled: seq<Settled>, id: int): Option<seq<ZoneId>> {
    match PositionOf(settled, id)
    case Some(i) => Some(settled[i].inside)
    case None => None
  }

  function InsideOf(settled: seq<Settled>, id: int): seq<ZoneId> {
    match SeenIn(settled, id)
    case Some(inside) => inside
    case None => []
  }

  /** The dictionary of tracks old enough to be counted: a repeated id overwrites, keeping its place. */
  function Settle(minAge: int, sightings: seq<Sighting>): seq<Settled> {
    if sightings == [] then []
    else
      var s := sightings[|sightings| - 1];
      var rest := Settle(minAge, sightings[..|sightings| - 1]);
      if s.age < minAge then rest
      else match PositionOf(rest, s.id)
           case Some(i) => rest[i := Settled(s.id, s.inside)]
           case None => rest + [Settled(s.id, s.inside)]
  }

  /** The track is known and was last seen now. */
  function Touch(w: World, id: int, now: Time): (r: World)
    ensures id in r.tracks
  {
    if id in w.tracks then w.(tracks := w.tracks[id := w.tracks[id].(lastSeenAt := now)])
    else w.(ids := w.ids + [id], tracks := w.tracks[id := TrackState(now, BLANK)])
  }

  function Arrive(c: Config, w: World, s: Settled, now: Time, baseline: bool): World {
    var w' := Touch(w, s.id, now);
    Commit(w', s.id, VisitAll(c, w'.tracks[s.id].book, s.inside, now, baseline))
  }

  function ArriveAll(c: Config, w: World, settled: seq<Settled>, now: Time, baseline: bool): World {
    if settled == [] then w
    else
      var n := |settled| - 1;
      Arrive(c, ArriveAll(c, w, settled[..n], now, baseline), settled[n], now, baseline)
  }

  function LeaveOne(c: Config, w: World, id: int, settled: seq<Settled>, now: Time): World {
    if id in w.tracks then Commit(w, id, Leave(c, w.tracks[id].book, InsideOf(settled, id), now)) else w
  }

  function LeaveAll(c: Config, w: World, ids: seq<int>, settled: seq<Settled>, now: Time): World {
    if ids == [] then w
    else LeaveOne(c, LeaveAll(c, w, ids[..|ids| - 1], settled, now), ids[|ids| - 1], settled, now)
  }


  function Remove(w: World, id: int): World {
    w.(ids := Filter(w.ids, NotId(id)), tracks := w.tracks - {id})
  }

  /** Discard what can no longer pair, and the track itself once nothing is left of it. */
  function PruneOne(c: Config, w: World, id: int, now: Time): World {
    if id in w.tracks then
      var w' := Commit(w, id, Expire(c, w.tracks[id].book, now));
      if Idle(w'.tracks[id].book) && now - w'.tracks[id].lastSeenAt > c.grace then Remove(w', id) else w'
    else w
  }

  function PruneAll(c: Config, w: World, ids: seq<int>, now: Time): World {
    if ids == [] then w
    else PruneOne(c, PruneAll(c, w, ids[..|ids| - 1], now), ids[|ids| - 1], now)
  }

  function Older(cutoff: Time): Time -> bool { (t: Time) => t < cutoff }
  function OlderMove(cutoff: Time): Transition -> bool { (t: Transition) => t.at < cutoff }

  function PruneTimes(m: map<ZoneId, seq<Time>>, cutoff: Time): map<ZoneId, seq<Time>> {
    map z | z in m :: DropWhile(m[z], Older(cutoff))
  }

  /** Age the rolling windows. */
  function PruneWindows(c: Config, w: World, now: Time): World {
    w.(entries := PruneTimes(w.entries, now - c.window),
       exits := PruneTimes(w.exits, now - c.window),
       transitions := DropWhile(w.transitions, OlderMove(now - c.window)))
  }

  function Act(c: Config, policy: Policy, w: World, settled: seq<Settled>, now: Time, baseline: bool): World {
    var w1 := ArriveAll(c, w, settled, now, baseline);
    var w2 := LeaveAll(c, w1, w1.ids, settled, now);
    if policy.Prune? then PruneAll(c, w2, w2.ids, now) else w2
  }

  // -- Runs --------------------------------------------------------------------------------------------

  datatype Session = Session(world: World, first: Option<Time>, last: Option<Time>)

  function EmptyWorld(zones: set<ZoneId>): World {
    World([], map[], map z | z in zones :: [], map z | z in zones :: [], [], [])
  }

  function Init(zones: set<ZoneId>): Session {
    Session(EmptyWorld(zones), None, None)
  }

  /** Timestamps running backwards mean the source restarted: everything is forgotten. */
  function Rewound(zones: set<ZoneId>, s: Session, now: Time): Session {
    if s.last.Some? && now < s.last.value then Init(zones) else s
  }

  function Step(c: Config, policy: Policy, zones: set<ZoneId>, s: Session, f: Frame): Session {
    var s0 := Rewound(zones, s, f.now);
    var w := Act(c, policy, s0.world, Settle(c.minAge, f.sightings), f.now, s0.first.None?);
    Session(PruneWindows(c, w, f.now), if s0.first.None? then Some(f.now) else s0.first, Some(f.now))
  }

  function Run(c: Config, policy: Policy, zones: set<ZoneId>, frames: seq<Frame>): Session {
    if frames == [] then Init(zones)
    else Step(c, policy, zones, Run(c, policy, zones, frames[..|frames| - 1]), frames[|frames| - 1])
  }

  // -- What a session reports --------------------------------------------------------------------------

  function ObservationSeconds(s: Session): real {
    if s.first.None? || s.last.None? then 0.0 else Max(0.0, s.last.value - s.first.value)
  }

  /** Events per minute over the observed part of the window; nothing before a second has been observed. */
  function RatePerMin(c: Config, s: Session, count: nat): real {
    var elapsed := Min(ObservationSeconds(s), c.window);
    if elapsed >= 1.0 then count as real / (elapsed / 60.0) else 0.0
  }

  datatype ZoneReport = ZoneReport(zone: ZoneId, occupancy: nat, entries: nat, exits: nat, entryRate: real,
                                   exitRate: real)

  /** From where to where. */
  datatype Route = Route(fromZone: ZoneId, toZone: ZoneId)

  datatype RouteReport = RouteReport(count: nat, rate: real, medianTransit: real)

  datatype Report = Report(zones: map<ZoneId, ZoneReport>, routes: map<Route, RouteReport>, observed: real)

  function SeenInside(z: ZoneId): Sighting -> bool { (s: Sighting) => z in s.inside }

  /** Everybody seen inside a zone now, however young the track. */
  function Occupancy(sightings: seq<Sighting>, z: ZoneId): nat {
    Count(sightings, SeenInside(z))
  }

  function RouteOf(t: Transition): Route { Route(t.fromZone, t.toZone) }

  /** The routes taken, and the transit times on each, in the order recorded. */
  function RoutesOf(ts: seq<Transition>): set<Route> {
    set t | t in ts :: RouteOf(t)
  }

  function TransitsOn(ts: seq<Transition>, r: Route): seq<real> {
    if ts == [] then []
    else
      var t := ts[|ts| - 1];
      TransitsOn(ts[..|ts| - 1], r) + (if RouteOf(t) == r then [t.transit] else [])
  }

  lemma {:induction false} TakenRoute(ts: seq<Transition>, r: Route)
    ensures r in RoutesOf(ts) <==> TransitsOn(ts, r) != []
  {
    if ts != [] {
      var n := |ts| - 1;
      assert ts == ts[..n] + [ts[n]];
      TakenRoute(ts[..n], r);
    }
  }

  function RouteReportOf(c: Config, s: Session, transits: seq<real>): RouteReport
    requires transits != []
  {
    RouteReport(|transits|, RatePerMin(c, s, |transits|), Medians.Median(transits))
  }

  function ZoneReportOf(c: Config, s: Session, sightings: seq<Sighting>, z: ZoneId): ZoneReport
    requires z in s.world.entries && z in s.world.exits
  {
    var entries, exits := |s.world.entries[z]|, |s.world.exits[z]|;
    ZoneReport(z, Occupancy(sightings, z), entries, exits, RatePerMin(c, s, entries), RatePerMin(c, s, exits))
  }

  /** What is reported after a frame with these sightings. */
  function ReportOf(c: Config, s: Session, sightings: seq<Sighting>): Report {
    var w := s.world;
    Report(map z | z in w.entries && z in w.exits :: ZoneReportOf(c, s, sightings, z),
           map r | r in RoutesOf(w.transitions) ::
             (TakenRoute(w.transitions, r); RouteReportOf(c, s, TransitsOn(w.transitions, r))),
           ObservationSeconds(s))
  }
}
