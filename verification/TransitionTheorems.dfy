/** What holds of the zone transition tracker over every run of frames. */
module TransitionTheorems {
  import opened Common
  import opened Logs
  import opened Movements
  import opened Pruning
  import opened Conservation
  import opened Transitions
  import opened Projection

  // -- Pruning loses nothing ----------------------------------------------------------------------------

  /** The time from which a book's recency is judged: the last frame, or now when there was none. */
  function Since(s: Session, now: Time): Time {
    if s.last.Some? then s.last.value else now
  }

  /** A pruned session and one that keeps everything, alike as far as track `y` can tell. */
  ghost predicate Twins(c: Config, p: Session, k: Session, y: int) {
    var b1, b2 := View(p.world, y), View(k.world, y);
    && p.first == k.first && p.last == k.last
    && WellFormed(p.world) && WellFormed(k.world)
    && Visible(LogOf(p.world.log, y)) == LogOf(k.world.log, y)
    && (if p.last.Some? then Zoned(b1) && Recent(c, b1, p.last.value) && ActAlike(c, b1, b2, p.last.value)
        else b1 == b2 == BLANK)
  }

  lemma WindowsEffect(c: Config, w: World, w': World, y: int, o: Outcome, now: Time)
    requires Effect(w, w', y, o)
    ensures Effect(w, PruneWindows(c, w', now), y, o)
  {
  }

  lemma {:induction false} RewoundWellFormed(zones: set<ZoneId>, s: Session, now: Time)
    requires WellFormed(s.world)
    ensures WellFormed(Rewound(zones, s, now).world)
  {
  }

  lemma {:induction false} StepEffect(c: Config, policy: Policy, zones: set<ZoneId>, s: Session, f: Frame, y: int)
    requires WellFormed(s.world)
    ensures var s0, s' := Rewound(zones, s, f.now), Step(c, policy, zones, s, f);
            WellFormed(s0.world) &&
            Effect(s0.world, s'.world, y,
                   TrackStep(c, policy, View(s0.world, y), SeenIn(Settle(c.minAge, f.sightings), y), f.now,
                             s0.first.None?))
  {
    var s0 := Rewound(zones, s, f.now);
    var settled := Settle(c.minAge, f.sightings);
    SettleDistinct(c.minAge, f.sightings);
    RewoundWellFormed(zones, s, f.now);
    ActView(c, policy, s0.world, settled, f.now, s0.first.None?, y);
    WindowsEffect(c, s0.world, Act(c, policy, s0.world, settled, f.now, s0.first.None?), y,
                  TrackStep(c, policy, View(s0.world, y), SeenIn(settled, y), f.now, s0.first.None?), f.now);
  }

  lemma RewoundTwins(c: Config, zones: set<ZoneId>, p: Session, k: Session, now: Time, y: int)
    requires Twins(c, p, k, y)
    ensures var p0 := Rewound(zones, p, now);
            Twins(c, p0, Rewound(zones, k, now), y) && (p0.last.Some? ==> p0.last.value <= now)
  {
  }

  lemma {:induction false} StepTwins(c: Config, zones: set<ZoneId>, p: Session, k: Session, f: Frame, y: int)
    requires ValidConfig(c) && Twins(c, p, k, y)
    ensures Twins(c, Step(c, Prune, zones, p, f), Step(c, Keep, zones, k, f), y)
  {
    var p0, k0 := Rewound(zones, p, f.now), Rewound(zones, k, f.now);
    RewoundTwins(c, zones, p, k, f.now, y);
    StepEffect(c, Prune, zones, p, f, y);
    StepEffect(c, Keep, zones, k, f, y);
    var seen, baseline, prev := SeenIn(Settle(c.minAge, f.sightings), y), p0.first.None?, Since(p0, f.now);
    var b1, b2 := View(p0.world, y), View(k0.world, y);
    assert Zoned(b1) && Recent(c, b1, prev) && ActAlike(c, b1, b2, prev);
    FrameAgrees(c, b1, b2, seen, f.now, baseline, prev);
    StepRecent(c, Prune, b1, seen, f.now, baseline, prev);
    FilterConcat(LogOf(p0.world.log, y), TrackStep(c, Prune, b1, seen, f.now, baseline).events, Seen());
  }

  lemma {:induction false} RunTwins(c: Config, zones: set<ZoneId>, frames: seq<Frame>, y: int)
    requires ValidConfig(c)
    ensures Twins(c, Run(c, Prune, zones, frames), Run(c, Keep, zones, frames), y)
  {
    if frames != [] {
      var n := |frames| - 1;
      RunTwins(c, zones, frames[..n], y);
      StepTwins(c, zones, Run(c, Prune, zones, frames[..n]), Run(c, Keep, zones, frames[..n]), frames[n], y);
    }
  }

  /** Pruning loses nothing. After any frames, at any spacing, every entry counted, every departure counted and
      every transition recorded for a track is the same as if nothing had ever been discarded. */
  lemma {:induction false} PruningLosesNothing(c: Config, zones: set<ZoneId>, frames: seq<Frame>, id: int)
    requires ValidConfig(c)
    ensures Visible(LogOf(Run(c, Prune, zones, frames).world.log, id))
              == LogOf(Run(c, Keep, zones, frames).world.log, id)
  {
    RunTwins(c, zones, frames, id);
  }

  // -- Conservation and soundness -------------------------------------------------------------------------

  ghost predicate Balanced(c: Config, s: Session, y: int, it: Item) {
    WellFormed(s.world) && Lawful(c, BLANK, Outcome(View(s.world, y), LogOf(s.world.log, y)), it)
  }

  lemma InitBalanced(c: Config, zones: set<ZoneId>, y: int, it: Item)
    ensures Balanced(c, Init(zones), y, it)
  {
  }

  lemma {:induction false} StepBalanced(c: Config, policy: Policy, zones: set<ZoneId>, s: Session, f: Frame, y: int,
                                        it: Item)
    requires Balanced(c, s, y, it)
    ensures Balanced(c, Step(c, policy, zones, s, f), y, it)
  {
    var s0 := Rewound(zones, s, f.now);
    InitBalanced(c, zones, y, it);
    StepEffect(c, policy, zones, s, f, y);
    var seen := SeenIn(Settle(c.minAge, f.sightings), y);
    StepLawful(c, policy, View(s0.world, y), seen, f.now, s0.first.None?, it);
    LawfulThen(c, BLANK, Outcome(View(s0.world, y), LogOf(s0.world.log, y)),
               TrackStep(c, policy, View(s0.world, y), seen, f.now, s0.first.None?), it);
  }

  lemma {:induction false} RunBalanced(c: Config, policy: Policy, zones: set<ZoneId>, frames: seq<Frame>, y: int,
                                       it: Item)
    ensures Balanced(c, Run(c, policy, zones, frames), y, it)
  {
    if frames == [] {
      InitBalanced(c, zones, y, it);
    } else {
      var n := |frames| - 1;
      RunBalanced(c, policy, zones, frames[..n], y, it);
      StepBalanced(c, policy, zones, Run(c, policy, zones, frames[..n]), frames[n], y, it);
    }
  }

  /** Each counted entry is paired at most once: it is paired, still waiting, or expired, and exactly one of these. */
  lemma {:induction false} EntriesConserved(c: Config, policy: Policy, zones: set<ZoneId>, frames: seq<Frame>, id: int,
                                            e: Entry)
    ensures var s := Run(c, policy, zones, frames);
            var log := LogOf(s.world.log, id);
            Count(log, EntryCounted(e)) ==
            Count(log, EntryPaired(e)) + Count(View(s.world, id).entries, IsEntry(e)) + Count(log, EntryExpired(e))
  {
    RunBalanced(c, policy, zones, frames, id, Item(e, Exit(0, 0.0, 0.0), 0));
  }

  /** Each departure is paired at most once: it is paired, still waiting, or expired, and exactly one of these. */
  lemma {:induction false} DeparturesConserved(c: Config, policy: Policy, zones: set<ZoneId>, frames: seq<Frame>,
                                               id: int, x: Exit)
    ensures var s := Run(c, policy, zones, frames);
            var log := LogOf(s.world.log, id);
            Count(log, ExitCounted(x)) ==
            Count(log, ExitPaired(x)) + Count(View(s.world, id).exits, IsExit(x)) + Count(log, ExitExpired(x))
  {
    RunBalanced(c, policy, zones, frames, id, Item(Entry(0, 0.0), x, 0));
  }

  /** Every presence that began, baseline or counted, has ended exactly once or is still there. */
  lemma {:induction false} PresencesConserved(c: Config, policy: Policy, zones: set<ZoneId>, frames: seq<Frame>,
                                              id: int, z: ZoneId)
    ensures var s := Run(c, policy, zones, frames);
            var log := LogOf(s.world.log, id);
            Count(log, ZoneIn(z)) == Count(View(s.world, id).presences, InZone(z)) + Count(log, ZoneOut(z))
  {
    RunBalanced(c, policy, zones, frames, id, Item(Entry(0, 0.0), Exit(0, 0.0, 0.0), z));
  }

  /** Every transition ever recorded leads to another zone, entered after the first one was, within the overlap
      before and the largest gap after leaving it. */
  lemma {:induction false} TransitionsSound(c: Config, policy: Policy, zones: set<ZoneId>, frames: seq<Frame>, id: int,
                                            ev: Event)
    requires ev in LogOf(Run(c, policy, zones, frames).world.log, id) && ev.Moved?
    ensures var t, gap := TransitionOf(ev.exit, ev.entry), ev.entry.enteredAt - ev.exit.leftAt;
            && t.fromZone != t.toZone
            && ev.exit.enteredAt < ev.entry.enteredAt
            && -c.overlap <= gap <= c.maxGap
            && (gap >= 0.0 ==> t.transit == gap && t.at == ev.entry.enteredAt)
            && (gap < 0.0 ==> t.transit == 0.0 && t.at == ev.exit.leftAt)
  {
    RunBalanced(c, policy, zones, frames, id, Item(Entry(0, 0.0), Exit(0, 0.0, 0.0), 0));
  }
}
