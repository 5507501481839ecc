/** One track's movements between the zones of a camera: where it is, which departures and entries still
    wait for a partner, and the rules that pair them (ai/surgeguard_ai/zones/transitions.py). */
module Movements {
  import opened Common
  import opened Choose

  type Time = real   // seconds
  type ZoneId = int  // zone ids are only ever compared for equality

  datatype Config = Config(window: real, grace: real, maxGap: real, overlap: real, minAge: int)

  /** What the tracker's constructor accepts. */
  predicate ValidConfig(c: Config) {
    c.window > 0.0 && c.grace >= 0.0 && c.maxGap >= 0.0 && c.overlap >= 0.0
  }

  const FRAME_SLACK: real := 1.0

  datatype Presence = Presence(zone: ZoneId, enteredAt: Time, lastSeenAt: Time)
  datatype Exit = Exit(zone: ZoneId, enteredAt: Time, leftAt: Time)
  datatype Entry = Entry(zone: ZoneId, enteredAt: Time)

  /** The presences in dictionary order, and the departures and entries that have no partner yet. */
  datatype Book = Book(presences: seq<Presence>, exits: seq<Exit>, entries: seq<Entry>)

  const BLANK := Book([], [], [])

  /** Everything that can happen to a track. `Moved` is a recorded transition; `Appeared` is a presence that
      was there when observation began and is not counted as an entry. */
  datatype Event =
    | Appeared(zone: ZoneId)
    | Entered(entry: Entry)
    | Left(exit: Exit)
    | Moved(exit: Exit, entry: Entry)
    | ExpiredExit(exit: Exit)
    | ExpiredEntry(entry: Entry)

  datatype Outcome = Outcome(book: Book, events: seq<Event>)

  /** The one pairing rule, used from both sides. */
  predicate MayPair(c: Config, x: Exit, e: Entry) {
    && x.zone != e.zone
    && x.enteredAt < e.enteredAt
    && -c.overlap <= e.enteredAt - x.leftAt <= c.maxGap
  }

  function Precedes(c: Config, e: Entry): Exit -> bool { (x: Exit) => MayPair(c, x, e) }
  function Follows(c: Config, x: Exit): Entry -> bool { (e: Entry) => MayPair(c, x, e) }
  function Latest(): Exit -> real { (x: Exit) => x.leftAt }
  function Earliest(): Entry -> real { (e: Entry) => -e.enteredAt }

  /** A counted entry takes the chosen pending departure, or waits for one. */
  function JoinEntry(b: Book, e: Entry, choice: Option<nat>): Outcome
    requires choice.Some? ==> choice.value < |b.exits|
  {
    match choice
    case None => Outcome(b.(entries := b.entries + [e]), [Entered(e)])
    case Some(i) => Outcome(b.(exits := Without(b.exits, i)), [Entered(e), Moved(b.exits[i], e)])
  }

  /** A departure takes the chosen pending entry, or waits for one. */
  function JoinExit(b: Book, x: Exit, choice: Option<nat>): Outcome
    requires choice.Some? ==> choice.value < |b.entries|
  {
    match choice
    case None => Outcome(b.(exits := b.exits + [x]), [Left(x)])
    case Some(i) => Outcome(b.(entries := Without(b.entries, i)), [Left(x), Moved(x, b.entries[i])])
  }

  /** An entry is paired with the most recent departure it may follow. */
  function PairEntry(c: Config, b: Book, e: Entry): Outcome {
    JoinEntry(b, e, Best(b.exits, Precedes(c, e), Latest()))
  }

  /** A departure is paired with the earliest entry that may have followed it. */
  function PairExit(c: Config, b: Book, x: Exit): Outcome {
    JoinExit(b, x, Best(b.entries, Follows(c, x), Earliest()))
  }

  function IndexOf(ps: seq<Presence>, zone: ZoneId): (r: Option<nat>)
    ensures r.Some? ==> r.value < |ps| && ps[r.value].zone == zone
    ensures r.None? ==> forall p :: p in ps ==> p.zone != zone
  {
    if ps == [] then None
    else if ps[|ps| - 1].zone == zone then Some(|ps| - 1)
    else IndexOf(ps[..|ps| - 1], zone)
  }

  /** The track is seen inside `zone`. */
  function Visit(c: Config, b: Book, zone: ZoneId, now: Time, baseline: bool): Outcome {
    match IndexOf(b.presences, zone)
    case Some(i) => Outcome(b.(presences := b.presences[i := b.presences[i].(lastSeenAt := now)]), [])
    case None =>
      var b' := b.(presences := b.presences + [Presence(zone, now, now)]);
      if baseline then Outcome(b', [Appeared(zone)]) else PairEntry(c, b', Entry(zone, now))
  }

  function VisitAll(c: Config, b: Book, zones: seq<ZoneId>, now: Time, baseline: bool): Outcome {
    if zones == [] then Outcome(b, [])
    else
      var o := VisitAll(c, b, zones[..|zones| - 1], now, baseline);
      var o' := Visit(c, o.book, zones[|zones| - 1], now, baseline);
      Outcome(o'.book, o.events + o'.events)
  }

  /** Absent for less than the grace period, or not absent at all. */
  predicate Lingers(c: Config, inside: seq<ZoneId>, now: Time, p: Presence) {
    p.zone in inside || now - p.lastSeenAt < c.grace
  }

  function Stays(c: Config, inside: seq<ZoneId>, now: Time): Presence -> bool {
    (p: Presence) => Lingers(c, inside, now, p)
  }

  function Goes(c: Config, inside: seq<ZoneId>, now: Time): Presence -> bool {
    (p: Presence) => !Lingers(c, inside, now, p)
  }

  function ExitOf(p: Presence): Exit {
    Exit(p.zone, p.enteredAt, p.lastSeenAt)
  }

  function DepartAll(c: Config, b: Book, gone: seq<Presence>): Outcome {
    if gone == [] then Outcome(b, [])
    else
      var o := DepartAll(c, b, gone[..|gone| - 1]);
      var o' := PairExit(c, o.book, ExitOf(gone[|gone| - 1]));
      Outcome(o'.book, o.events + o'.events)
  }

  /** Turn the presences absent beyond the grace period into departures. */
  function Leave(c: Config, b: Book, inside: seq<ZoneId>, now: Time): Outcome {
    DepartAll(c, b.(presences := Filter(b.presences, Stays(c, inside, now))),
              Filter(b.presences, Goes(c, inside, now)))
  }

  function LiveExit(horizon: Time): Exit -> bool { (x: Exit) => x.leftAt >= horizon }
  function DeadExit(horizon: Time): Exit -> bool { (x: Exit) => x.leftAt < horizon }
  function LiveEntry(horizon: Time): Entry -> bool { (e: Entry) => e.enteredAt >= horizon }
  function DeadEntry(horizon: Time): Entry -> bool { (e: Entry) => e.enteredAt < horizon }

  function ExitHorizon(c: Config, now: Time): Time { now - c.maxGap }
  function EntryHorizon(c: Config, now: Time): Time { now - (c.overlap + c.grace + FRAME_SLACK) }

  function ExpireExits(xs: seq<Exit>): (r: seq<Event>)
    ensures |r| == |xs| && forall i :: 0 <= i < |xs| ==> r[i] == ExpiredExit(xs[i])
  {
    seq(|xs|, i requires 0 <= i < |xs| => ExpiredExit(xs[i]))
  }

  function ExpireEntries(es: seq<Entry>): (r: seq<Event>)
    ensures |r| == |es| && forall i :: 0 <= i < |es| ==> r[i] == ExpiredEntry(es[i])
  {
    seq(|es|, i requires 0 <= i < |es| => ExpiredEntry(es[i]))
  }

  function ExpireBook(c: Config, b: Book, now: Time): Book {
    Book(b.presences,
         Filter(b.exits, LiveExit(ExitHorizon(c, now))),
         Filter(b.entries, LiveEntry(EntryHorizon(c, now))))
  }

  /** Discard the pending movements that are too old. */
  function Expire(c: Config, b: Book, now: Time): Outcome {
    Outcome(ExpireBook(c, b, now),
            ExpireExits(Filter(b.exits, DeadExit(ExitHorizon(c, now)))) +
            ExpireEntries(Filter(b.entries, DeadEntry(EntryHorizon(c, now)))))
  }

  predicate Idle(b: Book) {
    b == BLANK
  }

  /** Does the tracker ever discard pending movements and idle tracks, or keep everything? */
  datatype Policy = Prune | Keep

  /** A track that is not seen is in no zone. */
  function ZonesSeen(seen: Option<seq<ZoneId>>): seq<ZoneId> {
    if seen.Some? then seen.value else []
  }

  /** What one frame does to one track: `seen` are the zones it is inside, if it was settled at all. */
  function TrackStep(c: Config, policy: Policy, b: Book, seen: Option<seq<ZoneId>>, now: Time,
                     baseline: bool): Outcome {
    var inside := ZonesSeen(seen);
    var o1 := VisitAll(c, b, inside, now, baseline);
    var o2 := Leave(c, o1.book, inside, now);
    var o3 := if policy.Prune? then Expire(c, o2.book, now) else Outcome(o2.book, []);
    Outcome(o3.book, o1.events + o2.events + o3.events)
  }
}
