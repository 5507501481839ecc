/** What the transition tracker reports, in terms of the frames and of the log
    (ai/surgeguard_ai/zones/transitions.py). */
module ZoneReports {
  import opened Common
  import opened Reals
  import opened Window
  import opened Movements
  import opened Transitions
  import opened TransitionWindows
  import opened FirstSettling
  import opened ZoneStays
  import Medians

  /** So many per minute of `observed` seconds, or of the window once that is shorter; nothing before there is one. */
  ghost predicate IsRate(c: Config, rate: real, count: nat, observed: real) {
    var o := Min(observed, c.window);
    (o >= 1.0 ==> rate * o == 60.0 * count as real) && (o < 1.0 ==> rate == 0.0)
  }

  lemma {:induction false} RatePerMinIs(c: Config, s: Session, count: nat)
    ensures IsRate(c, RatePerMin(c, s, count), count, ObservationSeconds(s))
  {
    var o := Min(ObservationSeconds(s), c.window);
    if o >= 1.0 {
      PerMinuteTimes(count as real, o);
    }
  }

  lemma {:induction false} StartIsPast(frames: seq<Frame>)
    requires frames != []
    ensures StartOf(frames).Some? && StartOf(frames).value <= frames[|frames| - 1].now
  {
    var n := |frames| - 1;
    if n > 0 {
      StartIsPast(frames[..n]);
    }
  }

  lemma {:induction false} ObservedSince(c: Config, policy: Policy, zones: set<ZoneId>, frames: seq<Frame>)
    requires frames != []
    ensures StartOf(frames).Some?
    ensures ObservationSeconds(Run(c, policy, zones, frames)) == frames[|frames| - 1].now - StartOf(frames).value
  {
    StaysAreTold(c, policy, zones, frames, 0, 0);
    LastFrame(c, policy, zones, frames);
    StartIsPast(frames);
  }

  /** The latest of these times, from the first one in the window on. */
  function Recent(c: Config, times: seq<Time>, now: Time): seq<Time> {
    DropWhile(times, Older(now - c.window))
  }

  /** The windows hold what is recent of the history. */
  ghost predicate Windows(c: Config, zones: set<ZoneId>, w: World, now: Time, z: ZoneId) {
    && w.transitions == DropWhile(Moves(w.log), OlderMove(now - c.window))
    && (z in zones ==>
          && z in w.entries && w.entries[z] == Recent(c, EntryTimes(w.log, z), now)
          && z in w.exits && w.exits[z] == Recent(c, ExitTimes(w.log, z), now))
  }

  lemma InOrderNow(c: Config, zones: set<ZoneId>, s: Session, now: Time, z: ZoneId)
    requires InOrder(c, zones, s, z) && s.last == Some(now)
    ensures Windows(c, zones, s.world, now, z)
  {
  }

  lemma {:induction false} WindowsNow(c: Config, policy: Policy, zones: set<ZoneId>, frames: seq<Frame>, z: ZoneId)
    requires frames != []
    ensures Windows(c, zones, Run(c, policy, zones, frames).world, frames[|frames| - 1].now, z)
  {
    WindowsAreSuffixes(c, policy, zones, frames, z);
    LastFrame(c, policy, zones, frames);
    InOrderNow(c, zones, Run(c, policy, zones, frames), frames[|frames| - 1].now, z);
  }

  /** One zone's report: how many are seen inside now, however young their tracks; the entries and departures counted
      within the window; and their rates over the time observed. */
  ghost predicate IsZoneReport(c: Config, r: ZoneReport, z: ZoneId, s: Session, frames: seq<Frame>,
                               sightings: seq<Sighting>)
    requires frames != []
  {
    var now := frames[|frames| - 1].now;
    && r.zone == z && StartOf(frames).Some?
    && r.occupancy == Count(sightings, SeenInside(z))
    && r.entries == |Recent(c, EntryTimes(s.world.log, z), now)|
    && r.exits == |Recent(c, ExitTimes(s.world.log, z), now)|
    && IsRate(c, r.entryRate, r.entries, now - StartOf(frames).value)
    && IsRate(c, r.exitRate, r.exits, now - StartOf(frames).value)
  }

  /** After every run a zone of the camera has a report, and it says what it should. */
  lemma {:induction false} ZoneReportIs(c: Config, policy: Policy, zones: set<ZoneId>, frames: seq<Frame>,
                                        sightings: seq<Sighting>, z: ZoneId)
    requires frames != [] && z in zones
    ensures var s := Run(c, policy, zones, frames);
            var r := ReportOf(c, s, sightings);
            && z in r.zones && IsZoneReport(c, r.zones[z], z, s, frames, sightings)
            && r.observed == frames[|frames| - 1].now - StartOf(frames).value
  {
    var s := Run(c, policy, zones, frames);
    WindowsNow(c, policy, zones, frames, z);
    ObservedSince(c, policy, zones, frames);
    RatePerMinIs(c, s, |s.world.entries[z]|);
    RatePerMinIs(c, s, |s.world.exits[z]|);
  }

  /** One route's report: there is one for each route taken in the window, with the number of transitions, their rate,
      and their median transit time. */
  ghost predicate IsRouteReport(c: Config, r: Report, route: Route, moves: seq<Transition>, observed: real) {
    && (route in r.routes <==> TransitsOn(moves, route) != [])
    && (route in r.routes ==>
          && TransitsOn(moves, route) != []
          && r.routes[route].count == |TransitsOn(moves, route)|
          && r.routes[route].medianTransit == Medians.Median(TransitsOn(moves, route))
          && IsRate(c, r.routes[route].rate, r.routes[route].count, observed))
  }

  lemma {:induction false} RouteOfReport(c: Config, s: Session, sightings: seq<Sighting>, route: Route)
    ensures IsRouteReport(c, ReportOf(c, s, sightings), route, s.world.transitions, ObservationSeconds(s))
  {
    TakenRoute(s.world.transitions, route);
    RatePerMinIs(c, s, |TransitsOn(s.world.transitions, route)|);
  }

  lemma {:induction false} RouteReportIs(c: Config, policy: Policy, zones: set<ZoneId>, frames: seq<Frame>,
                                         sightings: seq<Sighting>, route: Route)
    requires frames != []
    ensures StartOf(frames).Some?
    ensures var s, now := Run(c, policy, zones, frames), frames[|frames| - 1].now;
            IsRouteReport(c, ReportOf(c, s, sightings), route,
                          DropWhile(Moves(s.world.log), OlderMove(now - c.window)), now - StartOf(frames).value)
  {
    var s := Run(c, policy, zones, frames);
    WindowsNow(c, policy, zones, frames, 0);
    ObservedSince(c, policy, zones, frames);
    RouteOfReport(c, s, sightings, route);
  }
}
