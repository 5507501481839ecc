/** The stays of one track in a queue zone, told by the frames alone (ai/surgeguard_ai/queue/zone_flow.py). */
module QueueStays {
  import opened Common
  import opened Logs
  import opened Reals
  import opened Polygon
  import opened ZoneFlow

  /** Since when, when last seen, and where. */
  datatype Stay = Stay(began: real, seen: real, spot: Point)

  /** Nothing is remembered at the first frame, nor at one that runs behind the last one. */
  predicate Starts(frames: seq<Frame>, ts: real) {
    frames == [] || ts < frames[|frames| - 1].ts
  }

  /** The time at which the present observation began. */
  function StartOf(frames: seq<Frame>): Option<real> {
    if frames == [] then None
    else
      var n := |frames| - 1;
      if Starts(frames[..n], frames[n].ts) then Some(frames[n].ts) else StartOf(frames[..n])
  }

  predicate Ends(c: Config, stay: Option<Stay>, spot: Option<Point>, ts: real) {
    spot.None? && stay.Some? && ts - stay.value.seen >= c.grace
  }

  function NextStay(c: Config, stay: Option<Stay>, spot: Option<Point>, ts: real): Option<Stay> {
    if spot.Some? then Some(Stay(if stay.Some? then stay.value.began else ts, ts, spot.value))
    else if Ends(c, stay, spot, ts) then None
    else stay
  }

  /** Served, as far as can be told: no service end is known, or there is no queue to speak of, or the track was last
      seen within the radius of it. */
  ghost predicate WasServed(c: Config, f: Frame, spot: Point) {
    || f.serviceEnd.None? || f.extent.None? || f.extent.value <= 0.0
    || WithinRadius(spot, f.serviceEnd.value, c.serviceEndFraction * f.extent.value)
  }

  ghost function Happened(c: Config, f: Frame, stay: Option<Stay>, spot: Option<Point>): seq<Event> {
    if spot.Some? && stay.None? then [Event(f.ts, Arrival)]
    else if Ends(c, stay, spot, f.ts)
      then [Event(stay.value.seen, if WasServed(c, f, stay.value.spot) then Served else Abandoned)]
    else []
  }

  function StayAfter(c: Config, frames: seq<Frame>, id: int): Option<Stay>
    decreases |frames|, 0
  {
    if frames == [] then None
    else
      var n := |frames| - 1;
      NextStay(c, StayBefore(c, frames[..n], frames[n].ts, id), PointOf(frames[n].inside, id), frames[n].ts)
  }

  function StayBefore(c: Config, frames: seq<Frame>, ts: real, id: int): Option<Stay>
    decreases |frames|, 1
  {
    if Starts(frames, ts) then None else StayAfter(c, frames, id)
  }

  ghost function StayLog(c: Config, frames: seq<Frame>, id: int): seq<Event> {
    if frames == [] then []
    else
      var n := |frames| - 1;
      var f := frames[n];
      (if Starts(frames[..n], f.ts) then [] else StayLog(c, frames[..n], id))
      + Happened(c, f, StayBefore(c, frames[..n], f.ts, id), PointOf(f.inside, id))
  }

  // -- The tracker ------------------------------------------------------------------------------------------

  function AsOccupant(stay: Option<Stay>): Option<Occupant> {
    if stay.None? then None else Some(Occupant(stay.value.began, stay.value.seen, stay.value.spot))
  }

  ghost predicate Told(c: Config, s: Session, frames: seq<Frame>, id: int) {
    && Look(s.flow, id) == AsOccupant(StayAfter(c, frames, id)) && LogOf(s.flow.log, id) == StayLog(c, frames, id)
    && s.first == StartOf(frames) && s.last == (if frames == [] then None else Some(frames[|frames| - 1].ts))
  }

  lemma {:induction false} StepIsTold(c: Config, stay: Option<Stay>, f: Frame, id: int)
    requires IsSqrt(c.sqrt)
    ensures var spot := PointOf(f.inside, id);
            TrackStep(c, AsOccupant(stay), f, id)
              == Outcome(AsOccupant(NextStay(c, stay, spot, f.ts)), Happened(c, f, stay, spot))
  {
    if stay.Some? {
      ServedWithinRadius(c, AsOccupant(stay).value, f.serviceEnd, f.extent);
    }
  }

  lemma {:induction false} RewoundTold(c: Config, frames: seq<Frame>, s: Session, ts: real, id: int)
    requires Told(c, s, frames, id)
    ensures var s0 := Rewound(s, ts);
            && Look(s0.flow, id) == AsOccupant(StayBefore(c, frames, ts, id))
            && LogOf(s0.flow.log, id) == (if Starts(frames, ts) then [] else StayLog(c, frames, id))
            && s0.first == (if Starts(frames, ts) then Some(ts) else StartOf(frames))
  {
    NoStartYet(frames);
  }

  lemma {:induction false} NoStartYet(frames: seq<Frame>)
    ensures StartOf(frames).None? <==> frames == []
  {
    if frames != [] {
      NoStartYet(frames[..|frames| - 1]);
    }
  }

  /** Over every run: who is counted present, since when and where last seen, and every arrival and departure logged
      with its time and kind, is what the frames say of each track on its own. */
  lemma {:induction false} StaysAreTold(c: Config, frames: seq<Frame>, id: int)
    requires ValidFrames(frames) && IsSqrt(c.sqrt)
    ensures Told(c, Run(c, frames), frames, id)
  {
    if frames != [] {
      var n := |frames| - 1;
      var s, f := Run(c, frames[..n]), frames[n];
      StaysAreTold(c, frames[..n], id);
      PeopleConserved(c, frames[..n]);
      RewoundTold(c, frames[..n], s, f.ts, id);
      ActView(c, Rewound(s, f.ts).flow, f, id);
      StepIsTold(c, StayBefore(c, frames[..n], f.ts, id), f, id);
    }
  }
}
