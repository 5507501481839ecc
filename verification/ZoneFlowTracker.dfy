/** The queue flow tracker as it runs, refining the state machine of module ZoneFlow. */
module ZoneFlowTracker {
  import opened Common
  import opened Reals
  import opened Logs
  import opened Window
  import opened ZoneFlow
  import QueueStays

  function IsKind(k: Kind): Event -> bool { (ev: Event) => ev.kind == k }

  /** Minutes to divide window counts by, or nothing when too new. */
  function RateDivisor(c: Config, s: Session): (d: Option<real>)
    ensures d.Some? ==> d.value > 0.0
  {
    var observed := if s.first.None? || s.last.None? then 0.0 else Max(0.0, s.last.value - s.first.value);
    var elapsed := Min(observed, c.window);
    if elapsed < 1.0 then None else Some(elapsed / 60.0)
  }

  function PerMinute(divisor: Option<real>, count: nat): real
    requires divisor.Some? ==> divisor.value > 0.0
  {
    if divisor.None? then 0.0 else count as real / divisor.value
  }

  lemma {:induction false} FirstIsStart(c: Config, frames: seq<Frame>)
    requires frames != []
    ensures var s, start, now := Run(c, frames), QueueStays.StartOf(frames), frames[|frames| - 1].ts;
            start.Some? && s.first == start && s.last == Some(now) && start.value <= now
  {
    var n := |frames| - 1;
    if n > 0 {
      FirstIsStart(c, frames[..n]);
    }
  }

  /** What a rate is: so many per minute of the time observed since the last restart, or of the window once that is
      shorter; nothing before there is a second of it. */
  lemma {:induction false} RateIs(c: Config, frames: seq<Frame>, count: nat)
    requires frames != []
    ensures QueueStays.StartOf(frames).Some?
    ensures var o := Min(frames[|frames| - 1].ts - QueueStays.StartOf(frames).value, c.window);
            var rate := PerMinute(RateDivisor(c, Run(c, frames)), count);
            (o >= 1.0 ==> rate * o == 60.0 * count as real) && (o < 1.0 ==> rate == 0.0)
  {
    FirstIsStart(c, frames);
    var o := Min(frames[|frames| - 1].ts - QueueStays.StartOf(frames).value, c.window);
    if o >= 1.0 {
      PerMinuteTimes(count as real, o);
    }
  }

  datatype Dwell = Dwell(mean: real, longest: real)

  function Stay(c: Config, o: Occupant, now: real): real {
    Min(c.maxDwell, Max(0.0, now - o.enteredAt))
  }

  /** How long somebody has been here: the time since the stay began, but no more than the ceiling and never less than
      nothing. */
  lemma {:induction false} StayIs(c: Config, frames: seq<Frame>, id: int, now: real)
    requires ValidFrames(frames) && IsSqrt(c.sqrt) && c.maxDwell >= 0.0
    ensures var w, stay := Run(c, frames).flow, QueueStays.StayAfter(c, frames, id);
            && (id in w.occupants <==> stay.Some?)
            && (stay.Some? ==>
                  var length := now - stay.value.began;
                  && (length <= 0.0 ==> Stay(c, w.occupants[id], now) == 0.0)
                  && (length >= c.maxDwell ==> Stay(c, w.occupants[id], now) == c.maxDwell)
                  && (0.0 <= length <= c.maxDwell ==> Stay(c, w.occupants[id], now) == length))
  {
    QueueStays.StaysAreTold(c, frames, id);
  }

  ghost function Stays(c: Config, occupants: map<int, Occupant>, ids: seq<int>, now: real): (r: seq<real>)
    ensures |r| == |ids|
  {
    seq(|ids|, i requires 0 <= i < |ids| => if ids[i] in occupants then Stay(c, occupants[ids[i]], now) else 0.0)
  }

  ghost function Total(s: seq<real>): real {
    if s == [] then 0.0 else Total(s[..|s| - 1]) + s[|s| - 1]
  }

  /** The arithmetic mean of the stays, and one of them that none exceeds. */
  ghost predicate IsDwell(d: Dwell, stays: seq<real>) {
    && d.mean * |stays| as real == Total(stays)
    && d.longest in stays && forall x :: x in stays ==> x <= d.longest
  }

  lemma {:induction false} StepConserves(c: Config, s: Session, f: Frame)
    requires Conserved(s.flow)
    ensures Conserved(Rewound(s, f.ts).flow) && Conserved(Step(c, s, f).flow)
  {
    ActConserves(c, Rewound(s, f.ts).flow, f);
  }

  class Tracker {
    const cfg: Config
    var ids: seq<int>
    var occupants: map<int, Occupant>
    var events: seq<Event>
    var first: Option<real>
    var last: Option<real>
    ghost var log: seq<Tagged<Event>>

    ghost function Flow(): Flow
      reads this
    {
      ZoneFlow.Flow(ids, occupants, events, log)
    }

    ghost function State(): Session
      reads this
    {
      Session(Flow(), first, last)
    }

    constructor (cfg: Config)
      requires cfg.window > 0.0
      ensures this.cfg == cfg && State() == INIT
    {
      this.cfg := cfg;
      ids, occupants, events, log := [], map[], [], [];
      first, last := None, None;
    }

    /** One step of the state machine. */
    method Observe(f: Frame)
      requires Conserved(Flow()) && ValidFrame(f)
      modifies this
      ensures State() == Step(cfg, old(State()), f)
      ensures Conserved(Flow())
    {
      StepConserves(cfg, State(), f);
      if first.None? {
        first := Some(f.ts);
      }
      if last.Some? && f.ts < last.value {
        Reset(f.ts);
      }
      last := Some(f.ts);
      Fold(f);
      events := PopStale(events, Older(f.ts - cfg.window));
    }

    /** Arrivals and refreshed sightings, then departures. */
    method Fold(f: Frame)
      requires Conserved(Flow())
      modifies this`ids, this`occupants, this`events, this`log
      ensures Flow() == Act(cfg, old(Flow()), f)
    {
      SeatAllConserves(Flow(), f.inside, f.ts);
      SeatEveryone(f);
      FinaliseDepartures(f);
    }

    method Reset(at: real)
      modifies this`ids, this`occupants, this`events, this`log, this`first
      ensures Flow() == EMPTY && first == Some(at)
    {
      ids, occupants, events, log := [], map[], [], [];
      first := Some(at);
    }

    method SeatEveryone(f: Frame)
      modifies this`ids, this`occupants, this`events, this`log
      ensures Flow() == SeatAll(old(Flow()), f.inside, f.ts)
    {
      ghost var w := Flow();
      var i := 0;
      while i < |f.inside|
        invariant i <= |f.inside|
        invariant Flow() == SeatAll(w, f.inside[..i], f.ts)
      {
        var s := f.inside[i];
        assert f.inside[..i + 1][..i] == f.inside[..i];
        if s.id in occupants {
          occupants := occupants[s.id := occupants[s.id].(lastSeenAt := f.ts, lastPoint := s.point)];
        } else {
          ids := ids + [s.id];
          occupants := occupants[s.id := Occupant(f.ts, f.ts, s.point)];
          events := events + [Event(f.ts, Arrival)];
          log := log + [Tagged(s.id, Event(f.ts, Arrival))];
        }
        i := i + 1;
      }
      assert f.inside[..i] == f.inside;
    }

    /** Takes out the occupants the machine says are gone: one loop finds them, the other logs them leaving. */
    method FinaliseDepartures(f: Frame)
      requires forall id :: id in ids ==> id in occupants
      modifies this`ids, this`occupants, this`events, this`log
      ensures Flow() == DepartAll(cfg, old(Flow()), f, Filter(old(ids), Gone(cfg, old(Flow()), f)))
    {
      ghost var w := Flow();
      ghost var gone := Gone(cfg, w, f);
      var departed: seq<int> := [];
      var i := 0;
      while i < |ids|
        invariant i <= |ids| && Flow() == w
        invariant departed == Filter(ids[..i], gone)
      {
        var id := ids[i];
        assert id in ids;
        FilterAppend(ids[..i], id, gone);
        assert ids[..i + 1] == ids[..i] + [id];
        if !IsInside(f, id) && f.ts - occupants[id].lastSeenAt >= cfg.grace {
          departed := departed + [id];
        }
        i := i + 1;
      }
      assert ids[..i] == ids;
      var k := 0;
      while k < |departed|
        invariant k <= |departed|
        invariant Flow() == DepartAll(cfg, w, f, departed[..k])
      {
        assert departed[..k + 1][..k] == departed[..k];
        Pop(f, departed[k]);
        k := k + 1;
      }
      assert departed[..k] == departed;
    }

    method Pop(f: Frame, id: int)
      modifies this`ids, this`occupants, this`events, this`log
      ensures Flow() == Depart(cfg, old(Flow()), f, id)
    {
      if id in occupants {
        var o := occupants[id];
        var kind := Classify(cfg, o, f.serviceEnd, f.extent);
        occupants := occupants - {id};
        ids := Filter(ids, NotId(id));
        events := events + [Event(o.lastSeenAt, kind)];
        log := log + [Tagged(id, Event(o.lastSeenAt, kind))];
      }
    }

    /** One pass over the queue of events gives the number of each kind. */
    method Counts() returns (arrivals: nat, served: nat, abandoned: nat)
      ensures arrivals == Count(events, IsKind(Arrival))
      ensures served == Count(events, IsKind(Served))
      ensures abandoned == Count(events, IsKind(Abandoned))
      ensures arrivals + served + abandoned == |events|
    {
      arrivals, served, abandoned := 0, 0, 0;
      var i := 0;
      while i < |events|
        invariant i <= |events| && arrivals + served + abandoned == i
        invariant arrivals == Count(events[..i], IsKind(Arrival))
        invariant served == Count(events[..i], IsKind(Served))
        invariant abandoned == Count(events[..i], IsKind(Abandoned))
      {
        var ev := events[i];
        assert events[..i + 1][..i] == events[..i];
        if ev.kind.Arrival? {
          arrivals := arrivals + 1;
        } else if ev.kind.Served? {
          served := served + 1;
        } else {
          abandoned := abandoned + 1;
        }
        i := i + 1;
      }
      assert events[..i] == events;
    }

    /** Those numbers per minute of observation, or zero before there is a second of it. */
    method Rates() returns (arrivals: real, served: real, abandoned: real)
      ensures arrivals == PerMinute(RateDivisor(cfg, State()), Count(events, IsKind(Arrival)))
      ensures served == PerMinute(RateDivisor(cfg, State()), Count(events, IsKind(Served)))
      ensures abandoned == PerMinute(RateDivisor(cfg, State()), Count(events, IsKind(Abandoned)))
    {
      var observed := if first.None? || last.None? then 0.0 else Max(0.0, last.value - first.value);
      var elapsed := Min(observed, cfg.window);
      if elapsed < 1.0 {
        return 0.0, 0.0, 0.0;
      }
      var d := elapsed / 60.0;
      var a, s, q := Counts();
      return a as real / d, s as real / d, q as real / d;
    }

    /** How long each of those present has been here, in the order they arrived. */
    method Durations(now: real) returns (durations: seq<real>)
      requires forall id :: id in ids ==> id in occupants
      ensures durations == Stays(cfg, occupants, ids, now)
    {
      durations := [];
      for i := 0 to |ids|
        invariant durations == Stays(cfg, occupants, ids[..i], now)
      {
        var id := ids[i];
        assert id in ids;
        durations := durations + [Stay(cfg, occupants[id], now)];
      }
      assert ids[..|ids|] == ids;
    }

    /** Mean and longest stay of those present, none being longer than the ceiling. */
    method DwellSeconds(now: real) returns (r: Option<Dwell>)
      requires forall id :: id in ids ==> id in occupants
      ensures r.None? <==> ids == []
      ensures r.Some? ==> IsDwell(r.value, Stays(cfg, occupants, ids, now))
    {
      var durations := Durations(now);
      if durations == [] {
        return None;
      }
      var d := MeanAndLongest(durations);
      return Some(d);
    }
  }

  method MeanAndLongest(durations: seq<real>) returns (d: Dwell)
    requires durations != []
    ensures IsDwell(d, durations)
  {
    var total, longest := 0.0, durations[0];
    for i := 0 to |durations|
      invariant total == Total(durations[..i])
      invariant longest in durations && forall k :: 0 <= k < i ==> durations[k] <= longest
    {
      assert durations[..i + 1][..i] == durations[..i];
      total, longest := total + durations[i], Max(longest, durations[i]);
    }
    assert durations[..|durations|] == durations;
    d := Dwell(total / |durations| as real, longest);
  }
}
