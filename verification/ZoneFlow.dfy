/** The people of one queue zone, as a state machine over frames with a log of every arrival and departure
    (ai/surgeguard_ai/queue/zone_flow.py). */
module ZoneFlow {
  import opened Common
  import opened Logs
  import opened Reals
  import opened Window
  import opened Polygon

  datatype Kind = Arrival | Served | Abandoned
  datatype Occupant = Occupant(enteredAt: real, lastSeenAt: real, lastPoint: Point)
  datatype Event = Event(at: real, kind: Kind)

  datatype Config = Config(window: real, grace: real, serviceEndFraction: real, maxDwell: real, sqrt: real -> real)

  datatype Sighting = Sighting(id: int, point: Point)

  /** `inside` is a mapping from track id to foot point, in iteration order. */
  datatype Frame = Frame(ts: real, inside: seq<Sighting>, serviceEnd: Option<Point>, extent: Option<real>)

  ghost predicate ValidFrame(f: Frame) {
    forall i, j :: 0 <= i < j < |f.inside| ==> f.inside[i].id != f.inside[j].id
  }

  /** `ids` is the insertion order of `occupants`; `log` is everything since the last reset, for the proofs. */
  datatype Flow = Flow(ids: seq<int>, occupants: map<int, Occupant>, events: seq<Event>, log: seq<Tagged<Event>>)

  const EMPTY := Flow([], map[], [], [])

  predicate IsInside(f: Frame, id: int) {
    exists i :: 0 <= i < |f.inside| && f.inside[i].id == id
  }

  function Classify(c: Config, o: Occupant, serviceEnd: Option<Point>, extent: Option<real>): Kind {
    if serviceEnd.None? || extent.None? || extent.value <= 0.0 then Served
    else if Hypot(c.sqrt, o.lastPoint.x - serviceEnd.value.x, o.lastPoint.y - serviceEnd.value.y)
            <= c.serviceEndFraction * extent.value then Served
    else Abandoned
  }

  function Emit(w: Flow, id: int, ev: Event): Flow {
    w.(events := w.events + [ev], log := w.log + [Tagged(id, ev)])
  }

  /** One track inside the zone. */
  function Seat(w: Flow, s: Sighting, ts: real): Flow {
    if s.id in w.occupants then
      w.(occupants := w.occupants[s.id := w.occupants[s.id].(lastSeenAt := ts, lastPoint := s.point)])
    else
      Emit(w.(ids := w.ids + [s.id], occupants := w.occupants[s.id := Occupant(ts, ts, s.point)]), s.id,
           Event(ts, Arrival))
  }

  function SeatAll(w: Flow, inside: seq<Sighting>, ts: real): Flow {
    if inside == [] then w else Seat(SeatAll(w, inside[..|inside| - 1], ts), inside[|inside| - 1], ts)
  }

  predicate Departing(c: Config, w: Flow, f: Frame, id: int) {
    id in w.occupants && !IsInside(f, id) && f.ts - w.occupants[id].lastSeenAt >= c.grace
  }

  function Gone(c: Config, w: Flow, f: Frame): int -> bool { (id: int) => Departing(c, w, f, id) }

  /** A departure is dated back to when the person was last seen. */
  function Depart(c: Config, w: Flow, f: Frame, id: int): Flow {
    if id in w.occupants then
      var o := w.occupants[id];
      Emit(w.(ids := Filter(w.ids, NotId(id)), occupants := w.occupants - {id}), id,
           Event(o.lastSeenAt, Classify(c, o, f.serviceEnd, f.extent)))
    else w
  }

  function DepartAll(c: Config, w: Flow, f: Frame, departed: seq<int>): Flow {
    if departed == [] then w else Depart(c, DepartAll(c, w, f, departed[..|departed| - 1]), f, departed[|departed| - 1])
  }

  function Older(cutoff: real): Event -> bool { (ev: Event) => ev.at < cutoff }

  function Act(c: Config, w: Flow, f: Frame): Flow {
    var w1 := SeatAll(w, f.inside, f.ts);
    DepartAll(c, w1, f, Filter(w1.ids, Gone(c, w1, f)))
  }

  datatype Session = Session(flow: Flow, first: Option<real>, last: Option<real>)

  const INIT := Session(EMPTY, None, None)

  /** Timestamps running backwards start everything afresh. */
  function Rewound(s: Session, ts: real): Session {
    if s.last.Some? && ts < s.last.value then Session(EMPTY, Some(ts), s.last)
    else s.(first := if s.first.None? then Some(ts) else s.first)
  }

  function Step(c: Config, s: Session, f: Frame): Session {
    var s0 := Rewound(s, f.ts);
    var w := Act(c, s0.flow, f);
    Session(w.(events := DropWhile(w.events, Older(f.ts - c.window))), s0.first, Some(f.ts))
  }

  function Run(c: Config, frames: seq<Frame>): Session {
    if frames == [] then INIT else Step(c, Run(c, frames[..|frames| - 1]), frames[|frames| - 1])
  }

  ghost predicate ValidFrames(frames: seq<Frame>) {
    forall f :: f in frames ==> ValidFrame(f)
  }

  // -- Conservation ---------------------------------------------------------------------------------------

  function Joins(): Tagged<Event> -> bool { (t: Tagged<Event>) => t.event.kind.Arrival? }
  function Serves(): Tagged<Event> -> bool { (t: Tagged<Event>) => t.event.kind.Served? }
  function Quits(): Tagged<Event> -> bool { (t: Tagged<Event>) => t.event.kind.Abandoned? }

  ghost predicate WellFormed(w: Flow) {
    Distinct(w.ids) && forall id :: id in w.ids <==> id in w.occupants
  }

  /** Arrivals ever = served ever + abandoned ever + those still here. */
  ghost predicate Conserved(w: Flow) {
    && WellFormed(w) && |w.ids| == |w.occupants|
    && Count(w.log, Joins()) == Count(w.log, Serves()) + Count(w.log, Quits()) + |w.occupants|
  }

  lemma {:induction false} EmitCounts(log: seq<Tagged<Event>>, t: Tagged<Event>)
    ensures Count(log + [t], Joins()) == Count(log, Joins()) + (if t.event.kind.Arrival? then 1 else 0)
    ensures Count(log + [t], Serves()) + Count(log + [t], Quits()) ==
            Count(log, Serves()) + Count(log, Quits()) + (if t.event.kind.Arrival? then 0 else 1)
  {
    CountAppend(log, t, Joins());
    CountAppend(log, t, Serves());
    CountAppend(log, t, Quits());
  }

  lemma {:induction false} SeatConserves(w: Flow, s: Sighting, ts: real)
    requires Conserved(w)
    ensures Conserved(Seat(w, s, ts))
  {
    if s.id in w.occupants {
      assert Seat(w, s, ts).occupants.Keys == w.occupants.Keys;
    } else {
      EmitCounts(w.log, Tagged(s.id, Event(ts, Arrival)));
      assert Seat(w, s, ts).occupants.Keys == w.occupants.Keys + {s.id};
    }
  }

  lemma {:induction false} FilterOutOne(s: seq<int>, id: int)
    requires Distinct(s)
    ensures var r := Filter(s, NotId(id));
            Distinct(r) && |r| == |s| - (if id in s then 1 else 0) && forall y :: y in r <==> y in s && y != id
  {
    FilterMembers(s, NotId(id));
    if s != [] {
      var n := |s| - 1;
      FilterOutOne(s[..n], id);
      FilterMembers(s[..n], NotId(id));
      assert s == s[..n] + [s[n]];
    }
  }

  lemma {:induction false} DepartConserves(c: Config, w: Flow, f: Frame, id: int)
    requires Conserved(w)
    ensures Conserved(Depart(c, w, f, id))
  {
    if id in w.occupants {
      var o := w.occupants[id];
      EmitCounts(w.log, Tagged(id, Event(o.lastSeenAt, Classify(c, o, f.serviceEnd, f.extent))));
      FilterOutOne(w.ids, id);
      assert Depart(c, w, f, id).occupants.Keys == w.occupants.Keys - {id};
    }
  }

  lemma {:induction false} SeatAllConserves(w: Flow, inside: seq<Sighting>, ts: real)
    requires Conserved(w)
    ensures Conserved(SeatAll(w, inside, ts))
  {
    if inside != [] {
      var n := |inside| - 1;
      SeatAllConserves(w, inside[..n], ts);
      SeatConserves(SeatAll(w, inside[..n], ts), inside[n], ts);
    }
  }

  lemma {:induction false} DepartAllConserves(c: Config, w: Flow, f: Frame, departed: seq<int>)
    requires Conserved(w)
    ensures Conserved(DepartAll(c, w, f, departed))
  {
    if departed != [] {
      var n := |departed| - 1;
      DepartAllConserves(c, w, f, departed[..n]);
      DepartConserves(c, DepartAll(c, w, f, departed[..n]), f, departed[n]);
    }
  }

  lemma {:induction false} ActConserves(c: Config, w: Flow, f: Frame)
    requires Conserved(w)
    ensures Conserved(Act(c, w, f))
  {
    var w1 := SeatAll(w, f.inside, f.ts);
    SeatAllConserves(w, f.inside, f.ts);
    DepartAllConserves(c, w1, f, Filter(w1.ids, Gone(c, w1, f)));
  }

  /** Over every run: everyone who ever arrived since the last reset was served, gave up, or is still counted
      present. */
  lemma {:induction false} PeopleConserved(c: Config, frames: seq<Frame>)
    ensures var w := Run(c, frames).flow;
            && Conserved(w)
            && Count(w.log, Joins()) - Count(w.log, Serves()) - Count(w.log, Quits()) == |w.occupants|
  {
    if frames != [] {
      var n := |frames| - 1;
      PeopleConserved(c, frames[..n]);
      ActConserves(c, Rewound(Run(c, frames[..n]), frames[n].ts).flow, frames[n]);
    }
  }

  // -- One track at a time --------------------------------------------------------------------------------

  function Look(w: Flow, id: int): Option<Occupant> {
    if id in w.occupants then Some(w.occupants[id]) else None
  }

  datatype Outcome = Outcome(occupant: Option<Occupant>, events: seq<Event>)

  function SeatOne(o: Option<Occupant>, p: Point, ts: real): Outcome {
    match o
    case None => Outcome(Some(Occupant(ts, ts, p)), [Event(ts, Arrival)])
    case Some(q) => Outcome(Some(q.(lastSeenAt := ts, lastPoint := p)), [])
  }

  function PointOf(inside: seq<Sighting>, id: int): Option<Point> {
    if inside == [] then None
    else if inside[|inside| - 1].id == id then Some(inside[|inside| - 1].point)
    else PointOf(inside[..|inside| - 1], id)
  }

  /** What one frame does to one track: seated when seen, gone once absent for the grace period. */
  function TrackStep(c: Config, o: Option<Occupant>, f: Frame, id: int): Outcome {
    match PointOf(f.inside, id)
    case Some(p) => SeatOne(o, p, f.ts)
    case None =>
      if o.Some? && f.ts - o.value.lastSeenAt >= c.grace
      then Outcome(None, [Event(o.value.lastSeenAt, Classify(c, o.value, f.serviceEnd, f.extent))])
      else Outcome(o, [])
  }

  ghost predicate Effect(w: Flow, w': Flow, id: int, o: Outcome) {
    Look(w', id) == o.occupant && LogOf(w'.log, id) == LogOf(w.log, id) + o.events
  }

  lemma {:induction false} SeatView(w: Flow, s: Sighting, ts: real, id: int)
    ensures Effect(w, Seat(w, s, ts), id,
                   if s.id == id then SeatOne(Look(w, id), s.point, ts) else Outcome(Look(w, id), []))
  {
    LogAppend(w.log, Tagged(s.id, Event(ts, Arrival)), id);
  }

  lemma {:induction false} SeatAllView(w: Flow, inside: seq<Sighting>, ts: real, id: int)
    requires forall i, j :: 0 <= i < j < |inside| ==> inside[i].id != inside[j].id
    ensures var p := PointOf(inside, id);
            Effect(w, SeatAll(w, inside, ts), id,
                   if p.Some? then SeatOne(Look(w, id), p.value, ts) else Outcome(Look(w, id), []))
  {
    if inside != [] {
      var n := |inside| - 1;
      SeatAllView(w, inside[..n], ts, id);
      SeatView(SeatAll(w, inside[..n], ts), inside[n], ts, id);
      if inside[n].id == id {
        NotSeen(inside[..n], id);
      }
    }
  }

  lemma {:induction false} NotSeen(inside: seq<Sighting>, id: int)
    ensures PointOf(inside, id).Some? <==> exists i :: 0 <= i < |inside| && inside[i].id == id
  {
    if inside != [] {
      var n := |inside| - 1;
      NotSeen(inside[..n], id);
      if exists i :: 0 <= i < |inside| && inside[i].id == id {
        var i :| 0 <= i < |inside| && inside[i].id == id;
        assert i < n ==> inside[..n][i].id == id;
      }
    }
  }

  lemma {:induction false} DepartView(c: Config, w: Flow, f: Frame, y: int, id: int)
    ensures Effect(w, Depart(c, w, f, y), id,
                   if y == id && Look(w, id).Some?
                   then Outcome(None, [Event(w.occupants[id].lastSeenAt,
                                             Classify(c, w.occupants[id], f.serviceEnd, f.extent))])
                   else Outcome(Look(w, id), []))
  {
    if y in w.occupants {
      var o := w.occupants[y];
      LogAppend(w.log, Tagged(y, Event(o.lastSeenAt, Classify(c, o, f.serviceEnd, f.extent))), id);
    }
  }

  lemma {:induction false} DepartAllView(c: Config, w: Flow, f: Frame, departed: seq<int>, id: int)
    requires Distinct(departed)
    ensures Effect(w, DepartAll(c, w, f, departed), id,
                   if id in departed && Look(w, id).Some?
                   then Outcome(None, [Event(w.occupants[id].lastSeenAt,
                                             Classify(c, w.occupants[id], f.serviceEnd, f.extent))])
                   else Outcome(Look(w, id), []))
  {
    if departed != [] {
      var n := |departed| - 1;
      DepartAllView(c, w, f, departed[..n], id);
      DepartView(c, DepartAll(c, w, f, departed[..n]), f, departed[n], id);
      assert departed == departed[..n] + [departed[n]];
    }
  }

  /** One frame of the whole zone is, for every track, one step of that track alone. */
  lemma {:induction false} ActView(c: Config, w: Flow, f: Frame, id: int)
    requires ValidFrame(f) && Conserved(w)
    ensures Effect(w, Act(c, w, f), id, TrackStep(c, Look(w, id), f, id))
  {
    var w1 := SeatAll(w, f.inside, f.ts);
    SeatAllConserves(w, f.inside, f.ts);
    SeatAllView(w, f.inside, f.ts, id);
    NotSeen(f.inside, id);
    DistinctFilter(w1.ids, Gone(c, w1, f));
    FilterMembers(w1.ids, Gone(c, w1, f));
    DepartAllView(c, w1, f, Filter(w1.ids, Gone(c, w1, f)), id);
  }

  /** A history of one track that alternates arrival and departure, ending with an arrival when it is present. */
  predicate Alternates(evs: seq<Event>, present: bool) {
    if evs == [] then !present
    else evs[|evs| - 1].kind.Arrival? == present && Alternates(evs[..|evs| - 1], !present)
  }

  lemma {:induction false} AlternatesAppend(evs: seq<Event>, ev: Event, present: bool)
    requires Alternates(evs, present) && ev.kind.Arrival? == !present
    ensures Alternates(evs + [ev], !present)
  {
    assert (evs + [ev])[..|evs|] == evs;
  }

  lemma {:induction false} StepAlternates(c: Config, o: Option<Occupant>, f: Frame, id: int, evs: seq<Event>)
    requires Alternates(evs, o.Some?)
    ensures var o' := TrackStep(c, o, f, id); Alternates(evs + o'.events, o'.occupant.Some?)
  {
    var o' := TrackStep(c, o, f, id);
    if o'.events == [] {
      assert evs + [] == evs;
    } else {
      assert o'.events == [o'.events[0]];
      AlternatesAppend(evs, o'.events[0], o.Some?);
    }
  }

  /** Nobody leaves without having arrived, or arrives twice without leaving. */
  lemma {:induction false} ArrivalsAlternate(c: Config, frames: seq<Frame>, id: int)
    requires ValidFrames(frames)
    ensures var w := Run(c, frames).flow; Alternates(LogOf(w.log, id), id in w.occupants)
  {
    if frames != [] {
      var n := |frames| - 1;
      ArrivalsAlternate(c, frames[..n], id);
      PeopleConserved(c, frames[..n]);
      var f, w := frames[n], Rewound(Run(c, frames[..n]), frames[n].ts).flow;
      ActView(c, w, f, id);
      StepAlternates(c, Look(w, id), f, id, LogOf(w.log, id));
    }
  }

  /** Of a track still here the last thing logged is its arrival, and its stay is measured from then. */
  ghost predicate DatedByArrival(o: Option<Occupant>, evs: seq<Event>, upTo: Option<real>) {
    o.Some? ==>
      && evs != [] && evs[|evs| - 1] == Event(o.value.enteredAt, Arrival)
      && upTo.Some? && o.value.enteredAt <= o.value.lastSeenAt <= upTo.value
  }

  lemma {:induction false} StepDated(c: Config, o: Option<Occupant>, f: Frame, id: int, evs: seq<Event>,
                                     upTo: Option<real>)
    requires DatedByArrival(o, evs, upTo) && (upTo.Some? ==> upTo.value <= f.ts)
    ensures var o' := TrackStep(c, o, f, id); DatedByArrival(o'.occupant, evs + o'.events, Some(f.ts))
  {
    var o' := TrackStep(c, o, f, id);
    if o'.events == [] {
      assert evs + [] == evs;
    }
  }

  /** Being out of sight for less than the grace period never restarts anybody's stay: it began at the arrival logged
      last, never after now. */
  lemma {:induction false} StayFromArrival(c: Config, frames: seq<Frame>, id: int)
    requires ValidFrames(frames)
    ensures var s := Run(c, frames); DatedByArrival(Look(s.flow, id), LogOf(s.flow.log, id), s.last)
  {
    if frames != [] {
      var n := |frames| - 1;
      StayFromArrival(c, frames[..n], id);
      PeopleConserved(c, frames[..n]);
      var s, f := Run(c, frames[..n]), frames[n];
      var w := Rewound(s, f.ts).flow;
      ActView(c, w, f, id);
      StepDated(c, Look(w, id), f, id, LogOf(w.log, id), if s.last.Some? && f.ts < s.last.value then None else s.last);
    }
  }

  // -- The grace period -----------------------------------------------------------------------------------

  /** Along `frames`, the track is never out of sight for the grace period; `last` is when it was seen before. */
  predicate Steady(c: Config, frames: seq<Frame>, id: int, last: real) {
    frames == [] ||
    (var f := frames[0];
     if PointOf(f.inside, id).Some? then Steady(c, frames[1..], id, f.ts)
     else f.ts - last < c.grace && Steady(c, frames[1..], id, last))
  }

  ghost predicate Forward(frames: seq<Frame>, from: real) {
    frames == [] || (frames[0].ts >= from && Forward(frames[1..], frames[0].ts))
  }

  function Continue(c: Config, s: Session, frames: seq<Frame>): Session
    decreases |frames|
  {
    if frames == [] then s else Continue(c, Step(c, s, frames[0]), frames[1..])
  }

  lemma {:induction false} StepView(c: Config, s: Session, f: Frame, id: int)
    requires Conserved(s.flow) && ValidFrame(f) && s.last.Some? && s.last.value <= f.ts
    ensures var s' := Step(c, s, f);
            && s'.last == Some(f.ts) && Conserved(s'.flow)
            && Effect(s.flow, s'.flow, id, TrackStep(c, Look(s.flow, id), f, id))
  {
    ActConserves(c, s.flow, f);
    ActView(c, s.flow, f, id);
  }

  lemma {:induction false} LogGrows(c: Config, s: Session, frames: seq<Frame>, id: int)
    requires Conserved(s.flow) && ValidFrames(frames) && s.last.Some? && Forward(frames, s.last.value)
    ensures |LogOf(Continue(c, s, frames).flow.log, id)| >= |LogOf(s.flow.log, id)|
    decreases |frames|
  {
    if frames != [] {
      StepView(c, s, frames[0], id);
      LogGrows(c, Step(c, s, frames[0]), frames[1..], id);
    }
  }

  /** A present track is logged as leaving exactly when some absence of it lasts the grace period: a shorter dropout
      produces no departure, and no second arrival. */
  lemma {:induction false} DepartureIffAbsent(c: Config, s: Session, frames: seq<Frame>, id: int)
    requires Conserved(s.flow) && ValidFrames(frames) && s.last.Some? && Forward(frames, s.last.value)
    requires id in s.flow.occupants
    ensures LogOf(Continue(c, s, frames).flow.log, id) == LogOf(s.flow.log, id) <==>
            Steady(c, frames, id, s.flow.occupants[id].lastSeenAt)
    decreases |frames|
  {
    if frames != [] {
      var f := frames[0];
      var s' := Step(c, s, f);
      StepView(c, s, f, id);
      if id in s'.flow.occupants {
        DepartureIffAbsent(c, s', frames[1..], id);
      } else {
        LogGrows(c, s', frames[1..], id);
      }
    }
  }

  // -- The window -------------------------------------------------------------------------------------------

  function EventsOf(log: seq<Tagged<Event>>): seq<Event> {
    if log == [] then [] else EventsOf(log[..|log| - 1]) + [log[|log| - 1].event]
  }

  /** The queue has grown exactly by what was logged meanwhile. */
  ghost predicate Grows(w: Flow, w': Flow) {
    EventsOf(w.log) <= EventsOf(w'.log) && w'.events == w.events + EventsOf(w'.log)[|EventsOf(w.log)|..]
  }

  lemma {:induction false} GrowsThen(w: Flow, w1: Flow, w2: Flow)
    requires Grows(w, w1) && Grows(w1, w2)
    ensures Grows(w, w2)
  {
    var h, h1, h2 := EventsOf(w.log), EventsOf(w1.log), EventsOf(w2.log);
    SuffixChain(h, h1, h2);
    assert w.events + (h1[|h|..] + h2[|h1|..]) == (w.events + h1[|h|..]) + h2[|h1|..];
  }

  lemma {:induction false} SuffixChain<T>(h: seq<T>, h1: seq<T>, h2: seq<T>)
    requires h <= h1 <= h2
    ensures h <= h2 && h2[|h|..] == h1[|h|..] + h2[|h1|..]
  {
    assert h2 == h1 + h2[|h1|..];
  }

  lemma {:induction false} EmitGrows(w: Flow, id: int, ev: Event)
    ensures Grows(w, Emit(w, id, ev))
  {
    assert (w.log + [Tagged(id, ev)])[..|w.log|] == w.log;
  }

  lemma {:induction false} SeatAllGrows(w: Flow, inside: seq<Sighting>, ts: real)
    ensures Grows(w, SeatAll(w, inside, ts))
  {
    if inside != [] {
      var n := |inside| - 1;
      SeatAllGrows(w, inside[..n], ts);
      var w1 := SeatAll(w, inside[..n], ts);
      EmitGrows(w1, inside[n].id, Event(ts, Arrival));
      GrowsThen(w, w1, SeatAll(w, inside, ts));
    }
  }

  lemma {:induction false} DepartAllGrows(c: Config, w: Flow, f: Frame, departed: seq<int>)
    ensures Grows(w, DepartAll(c, w, f, departed))
  {
    if departed != [] {
      var n := |departed| - 1;
      DepartAllGrows(c, w, f, departed[..n]);
      var w1 := DepartAll(c, w, f, departed[..n]);
      if departed[n] in w1.occupants {
        var o := w1.occupants[departed[n]];
        EmitGrows(w1, departed[n], Event(o.lastSeenAt, Classify(c, o, f.serviceEnd, f.extent)));
      }
      GrowsThen(w, w1, DepartAll(c, w, f, departed));
    }
  }

  lemma {:induction false} ActGrows(c: Config, w: Flow, f: Frame)
    ensures Grows(w, Act(c, w, f))
  {
    var w1 := SeatAll(w, f.inside, f.ts);
    SeatAllGrows(w, f.inside, f.ts);
    DepartAllGrows(c, w1, f, Filter(w1.ids, Gone(c, w1, f)));
    GrowsThen(w, w1, Act(c, w, f));
  }

  ghost predicate Windowed(c: Config, s: Session) {
    if s.last.None? then s.flow.log == [] && s.flow.events == []
    else s.flow.events == DropWhile(EventsOf(s.flow.log), Older(s.last.value - c.window))
  }

  /** What the pop loop leaves of a longer history. */
  lemma {:induction false} WindowMoves(q: seq<Event>, q': seq<Event>, h: seq<Event>, h': seq<Event>, early: real,
                                       late: real)
    requires q == DropWhile(h, Older(early)) && early <= late
    requires h <= h' && q' == q + h'[|h|..]
    ensures DropWhile(q', Older(late)) == DropWhile(h', Older(late))
  {
    DropWhileResumes(h, h'[|h|..], Older(early), Older(late));
    assert h + h'[|h|..] == h';
  }

  /** The cutoff of the last frame, or of this one when it starts afresh. */
  function CutoffBefore(c: Config, s: Session, now: real): real {
    (if s.last.Some? && s.last.value <= now then s.last.value else now) - c.window
  }

  lemma {:induction false} RewoundWindowed(c: Config, s: Session, now: real)
    requires Windowed(c, s)
    ensures var s0 := Rewound(s, now);
            && CutoffBefore(c, s, now) <= now - c.window
            && s0.flow.events == DropWhile(EventsOf(s0.flow.log), Older(CutoffBefore(c, s, now)))
  {
  }

  lemma {:induction false} StepWindowed(c: Config, s: Session, f: Frame)
    requires Windowed(c, s)
    ensures Windowed(c, Step(c, s, f))
  {
    var s0 := Rewound(s, f.ts);
    var w, w' := s0.flow, Act(c, s0.flow, f);
    RewoundWindowed(c, s, f.ts);
    ActGrows(c, w, f);
    WindowMoves(w.events, w'.events, EventsOf(w.log), EventsOf(w'.log), CutoffBefore(c, s, f.ts), f.ts - c.window);
  }

  /** After every frame the queue of events is the suffix of the whole history since the reset that starts at its first
      event inside the window. */
  lemma {:induction false} WindowIsSuffix(c: Config, frames: seq<Frame>)
    ensures Windowed(c, Run(c, frames))
  {
    if frames != [] {
      var n := |frames| - 1;
      WindowIsSuffix(c, frames[..n]);
      StepWindowed(c, Run(c, frames[..n]), frames[n]);
    }
  }

  /** So no event inside the window is ever missed, although departures are back-dated and the queue is unsorted. */
  lemma {:induction false} NothingInWindowMissed(c: Config, frames: seq<Frame>, ev: Event)
    requires frames != []
    ensures Run(c, frames).last.Some?
    ensures var s := Run(c, frames);
            ev.at >= s.last.value - c.window ==> multiset(s.flow.events)[ev] == multiset(EventsOf(s.flow.log))[ev]
  {
    var s := Run(c, frames);
    WindowIsSuffix(c, frames);
    if ev.at >= s.last.value - c.window {
      FreshSurvives(EventsOf(s.flow.log), Older(s.last.value - c.window), ev);
    }
  }

  ghost predicate WithinRadius(at: Point, end: Point, radius: real) {
    var dx, dy := at.x - end.x, at.y - end.y;
    radius >= 0.0 && dx * dx + dy * dy <= radius * radius
  }

  /** A departure counts as served exactly when no service end can be told (none is known, or the queue has no extent),
      or the last position was within the radius of it. */
  lemma {:induction false} ServedWithinRadius(c: Config, o: Occupant, end: Option<Point>, extent: Option<real>)
    requires IsSqrt(c.sqrt)
    ensures Classify(c, o, end, extent).Served? <==>
              || end.None? || extent.None? || extent.value <= 0.0
              || WithinRadius(o.lastPoint, end.value, c.serviceEndFraction * extent.value)
    ensures Classify(c, o, end, extent) in {Served, Abandoned}
  {
    if end.Some? && extent.Some? {
      HypotWithin(c.sqrt, o.lastPoint.x - end.value.x, o.lastPoint.y - end.value.y,
                  c.serviceEndFraction * extent.value);
    }
  }
}
