/** The analysis pipeline of one camera: crowd measurements, stability and zone flow, forgotten together when the frame
    sequence restarts (ai/surgeguard_ai/pipeline/analysis_pipeline.py). */
module Pipeline {
  import opened Common
  import Polygon
  import Indicators
  import GridAnalyzer
  import Assessor
  import Movements
  import Transitions
  import ZoneTransitionTracker

  /** `arrange` is the order in which the set of zones a person is in is iterated. */
  datatype Setup = Setup(grid: GridAnalyzer.Config, camera: GridAnalyzer.Camera, stability: Assessor.Config,
                         flow: Movements.Config, arrange: seq<int> -> seq<int>)

  ghost predicate ValidSetup(k: Setup) {
    GridAnalyzer.ValidConfig(k.grid) && Assessor.ValidConfig(k.stability) && Movements.ValidConfig(k.flow)
  }

  datatype Perception = Perception(seqNo: int, at: real, tracks: seq<GridAnalyzer.Track>)

  /** What one frame yields. Without an assessment the call fails before zone flow is reached. */
  datatype Output =
    | Result(crowd: Indicators.Crowd, stability: Assessor.Assessment, zoneFlow: Option<Transitions.Report>)
    | Unassessable

  datatype State = State(crowd: GridAnalyzer.State, stability: Assessor.State, flow: Transitions.Session,
                         lastSeq: Option<int>)

  function ZoneIds(k: Setup): set<int> {
    set z | z in k.camera.zones :: z.id
  }

  function InsideZones(zones: seq<GridAnalyzer.Zone>, p: Polygon.Point): seq<int> {
    if zones == [] then []
    else
      var z := zones[|zones| - 1];
      InsideZones(zones[..|zones| - 1], p) + (if Polygon.Inside(p, z.polygon) then [z.id] else [])
  }

  function SightingOf(k: Setup, t: GridAnalyzer.Track): Transitions.Sighting {
    Transitions.Sighting(t.id, t.age, (k.arrange)(InsideZones(k.camera.zones, t.foot)))
  }

  function FrameOf(k: Setup, p: Perception): Transitions.Frame {
    Transitions.Frame(p.at, seq(|p.tracks|, i requires 0 <= i < |p.tracks| => SightingOf(k, p.tracks[i])))
  }

  /** A zone is listed once for every zone with its id that holds the point. */
  lemma {:induction false} InsideZonesAre(zones: seq<GridAnalyzer.Zone>, p: Polygon.Point, id: int)
    ensures id in InsideZones(zones, p) <==> exists z :: z in zones && z.id == id && Polygon.Inside(p, z.polygon)
  {
    if zones != [] {
      var n := |zones| - 1;
      assert zones == zones[..n] + [zones[n]];
      InsideZonesAre(zones[..n], p, id);
    }
  }

  /** The order in which zones are iterated is any order of the same zones. */
  ghost predicate Arranges(arrange: seq<int> -> seq<int>) {
    forall s, id :: id in arrange(s) <==> id in s
  }

  /** What the zone tracker is told of a frame: every track, its age, and the zones that hold its foot point. */
  lemma {:induction false} FrameIs(k: Setup, p: Perception, i: nat, id: int)
    requires i < |p.tracks| && Arranges(k.arrange)
    ensures var f := FrameOf(k, p);
            && f.now == p.at && |f.sightings| == |p.tracks|
            && f.sightings[i].id == p.tracks[i].id && f.sightings[i].age == p.tracks[i].age
            && (id in f.sightings[i].inside <==>
                  exists z :: z in k.camera.zones && z.id == id && Polygon.Inside(p.tracks[i].foot, z.polygon))
  {
    InsideZonesAre(k.camera.zones, p.tracks[i].foot, id);
  }

  function Fresh(k: Setup): State {
    State(GridAnalyzer.FRESH, Assessor.FRESH, Transitions.Init(ZoneIds(k)), None)
  }

  predicate Sound(k: Setup, s: State)
    requires GridAnalyzer.ValidConfig(k.grid)
  {
    GridAnalyzer.CacheSound(k.grid, s.crowd.cache, k.camera)
  }

  /** Everything learned is discarded; the cell areas are kept. */
  function Cleared(k: Setup, s: State): State {
    State(GridAnalyzer.State([], s.crowd.cache), Assessor.FRESH, Transitions.Init(ZoneIds(k)), None)
  }

  /** A frame number that does not advance means the source restarted. */
  function NoteContinuity(k: Setup, s: State, p: Perception): State {
    if s.lastSeq.Some? && p.seqNo <= s.lastSeq.value then Cleared(k, s).(lastSeq := Some(p.seqNo))
    else s.(lastSeq := Some(p.seqNo))
  }

  function FlowReport(k: Setup, s: Transitions.Session, p: Perception): Option<Transitions.Report> {
    if k.camera.zones == [] then None else Some(Transitions.ReportOf(k.flow, s, FrameOf(k, p).sightings))
  }

  function ObserveFlow(k: Setup, s: Transitions.Session, p: Perception): Transitions.Session {
    if k.camera.zones == [] then s
    else Transitions.Step(k.flow, Movements.Policy.Prune, ZoneIds(k), s, FrameOf(k, p))
  }

  ghost function Measured(k: Setup, s: State, p: Perception): (Indicators.Crowd, GridAnalyzer.State)
    requires ValidSetup(k) && Sound(k, s)
  {
    GridAnalyzer.Analyze(k.grid, s.crowd, p.tracks, p.at, k.camera)
  }

  ghost function Assessed(k: Setup, s: State, p: Perception): Option<Assessor.Assessment>
    requires ValidSetup(k) && Sound(k, s)
  {
    Assessor.Assess(k.stability, s.stability, Measured(k, s, p).0, GridAnalyzer.Exits(k.camera.zones), p.at)
  }

  /** One frame, once continuity has been noted. */
  ghost function Analyze(k: Setup, s: State, p: Perception): (s': State)
    requires ValidSetup(k) && Sound(k, s)
    ensures Sound(k, s')
  {
    var (crowd, measured) := Measured(k, s, p);
    var stability := Assessor.Next(k.stability, s.stability, crowd, GridAnalyzer.Exits(k.camera.zones), p.at);
    State(measured, stability, if Assessed(k, s, p).None? then s.flow else ObserveFlow(k, s.flow, p), s.lastSeq)
  }

  ghost function Reported(k: Setup, s: State, p: Perception): Output
    requires ValidSetup(k) && Sound(k, s)
  {
    var a := Assessed(k, s, p);
    if a.None? then Unassessable
    else Result(Measured(k, s, p).0, a.value, FlowReport(k, Analyze(k, s, p).flow, p))
  }

  ghost function Process(k: Setup, s: State, p: Perception): (s': State)
    requires ValidSetup(k) && Sound(k, s)
    ensures Sound(k, s') && s'.lastSeq == Some(p.seqNo)
  {
    Analyze(k, NoteContinuity(k, s, p), p)
  }

  ghost function OutputOf(k: Setup, s: State, p: Perception): Output
    requires ValidSetup(k) && Sound(k, s)
  {
    Reported(k, NoteContinuity(k, s, p), p)
  }

  // -- Runs -------------------------------------------------------------------------------------------------

  ghost function After(k: Setup, s: State, ps: seq<Perception>): (s': State)
    requires ValidSetup(k) && Sound(k, s)
    ensures Sound(k, s')
    ensures ps != [] ==> s'.lastSeq == Some(ps[|ps| - 1].seqNo)
  {
    if ps == [] then s else Process(k, After(k, s, ps[..|ps| - 1]), ps[|ps| - 1])
  }

  ghost function Outputs(k: Setup, s: State, ps: seq<Perception>): (out: seq<Output>)
    requires ValidSetup(k) && Sound(k, s)
    ensures |out| == |ps|
  {
    if ps == [] then []
    else
      var n := |ps| - 1;
      Outputs(k, s, ps[..n]) + [OutputOf(k, After(k, s, ps[..n]), ps[n])]
  }

  /** Equal up to the cache of cell areas, which in both holds only what the camera's calibration says. */
  ghost predicate Alike(k: Setup, s: State, t: State)
    requires ValidSetup(k)
  {
    && Sound(k, s) && Sound(k, t)
    && s.crowd.history == t.crowd.history && s.stability == t.stability && s.flow == t.flow && s.lastSeq == t.lastSeq
  }

  lemma MeasuredAlike(k: Setup, s: State, t: State, p: Perception)
    requires ValidSetup(k) && Alike(k, s, t)
    ensures Measured(k, s, p).0 == Measured(k, t, p).0
    ensures Measured(k, s, p).1.history == Measured(k, t, p).1.history
  {
  }

  lemma {:induction false} AnalyzeAlike(k: Setup, s: State, t: State, p: Perception)
    requires ValidSetup(k) && Alike(k, s, t)
    ensures Alike(k, Analyze(k, s, p), Analyze(k, t, p))
    ensures Reported(k, s, p) == Reported(k, t, p)
  {
    MeasuredAlike(k, s, t, p);
  }

  lemma ContinuityAlike(k: Setup, s: State, t: State, p: Perception)
    requires ValidSetup(k) && Alike(k, s, t)
    ensures Alike(k, NoteContinuity(k, s, p), NoteContinuity(k, t, p))
  {
  }

  /** At a seam nothing but the cache distinguishes an old pipeline from a new one. */
  lemma SeamForgets(k: Setup, s: State, p: Perception)
    requires ValidSetup(k) && Sound(k, s) && s.lastSeq.Some? && p.seqNo <= s.lastSeq.value
    ensures Alike(k, NoteContinuity(k, s, p), NoteContinuity(k, Fresh(k), p))
  {
  }

  /** One frame at a seam, as a new pipeline would see it. */
  lemma {:induction false} SeamFrame(k: Setup, s: State, p: Perception)
    requires ValidSetup(k) && Sound(k, s) && s.lastSeq.Some? && p.seqNo <= s.lastSeq.value
    ensures Alike(k, Process(k, s, p), Process(k, Fresh(k), p))
    ensures OutputOf(k, s, p) == OutputOf(k, Fresh(k), p)
  {
    SeamForgets(k, s, p);
    AnalyzeAlike(k, NoteContinuity(k, s, p), NoteContinuity(k, Fresh(k), p), p);
  }

  lemma {:induction false} FrameAlike(k: Setup, s: State, t: State, p: Perception)
    requires ValidSetup(k) && Alike(k, s, t)
    ensures Alike(k, Process(k, s, p), Process(k, t, p))
    ensures OutputOf(k, s, p) == OutputOf(k, t, p)
  {
    ContinuityAlike(k, s, t, p);
    AnalyzeAlike(k, NoteContinuity(k, s, p), NoteContinuity(k, t, p), p);
  }

  lemma {:induction false} Append(k: Setup, s: State, ps: seq<Perception>, p: Perception)
    requires ValidSetup(k) && Sound(k, s)
    ensures After(k, s, ps + [p]) == Process(k, After(k, s, ps), p)
    ensures Outputs(k, s, ps + [p]) == Outputs(k, s, ps) + [OutputOf(k, After(k, s, ps), p)]
  {
    assert (ps + [p])[..|ps|] == ps;
  }

  /** Two states from which a recording gives the same outputs and leads to states alike. */
  ghost predicate SameFrom(k: Setup, s: State, t: State, ps: seq<Perception>)
    requires ValidSetup(k)
  {
    && Sound(k, s) && Sound(k, t)
    && Alike(k, After(k, s, ps), After(k, t, ps)) && Outputs(k, s, ps) == Outputs(k, t, ps)
  }

  lemma {:induction false} SameFromAppend(k: Setup, s: State, t: State, ps: seq<Perception>, p: Perception)
    requires ValidSetup(k) && SameFrom(k, s, t, ps)
    ensures SameFrom(k, s, t, ps + [p])
  {
    Append(k, s, ps, p);
    Append(k, t, ps, p);
    FrameAlike(k, After(k, s, ps), After(k, t, ps), p);
  }

  lemma {:induction false} SameFromSeam(k: Setup, s: State, p: Perception)
    requires ValidSetup(k) && Sound(k, s) && s.lastSeq.Some? && p.seqNo <= s.lastSeq.value
    ensures SameFrom(k, s, Fresh(k), [p])
  {
    Append(k, s, [], p);
    Append(k, Fresh(k), [], p);
    assert [] + [p] == [p];
    SeamFrame(k, s, p);
  }

  lemma {:induction false} SameFromOn(k: Setup, s: State, ps: seq<Perception>)
    requires ValidSetup(k) && Sound(k, s) && ps != [] && s.lastSeq.Some? && ps[0].seqNo <= s.lastSeq.value
    ensures SameFrom(k, s, Fresh(k), ps)
  {
    var n := |ps| - 1;
    assert ps == ps[..n] + [ps[n]];
    if n == 0 {
      SameFromSeam(k, s, ps[0]);
    } else {
      SameFromOn(k, s, ps[..n]);
      SameFromAppend(k, s, Fresh(k), ps[..n], ps[n]);
    }
  }

  /** Nothing of what came before a seam reaches past it. Whatever the pipeline saw, once a frame number does not
      advance, every crowd, stability and zone-flow output from that frame on is what a pipeline started at that frame
      gives. */
  lemma {:induction false} SeamNonInterference(k: Setup, before: seq<Perception>, after: seq<Perception>)
    requires ValidSetup(k) && before != [] && after != [] && after[0].seqNo <= before[|before| - 1].seqNo
    ensures var s := After(k, Fresh(k), before);
            && Alike(k, After(k, s, after), After(k, Fresh(k), after))
            && Outputs(k, s, after) == Outputs(k, Fresh(k), after)
  {
    SameFromOn(k, After(k, Fresh(k), before), after);
  }

  /** Analysing one recording after another is analysing both in one go. */
  ghost predicate Continues(k: Setup, s: State, ps: seq<Perception>, qs: seq<Perception>, all: seq<Perception>)
    requires ValidSetup(k) && Sound(k, s)
  {
    && After(k, s, all) == After(k, After(k, s, ps), qs)
    && Outputs(k, s, all) == Outputs(k, s, ps) + Outputs(k, After(k, s, ps), qs)
  }

  lemma {:induction false} ContinuesAppend(k: Setup, s: State, ps: seq<Perception>, qs: seq<Perception>,
                                           all: seq<Perception>, p: Perception)
    requires ValidSetup(k) && Sound(k, s) && Continues(k, s, ps, qs, all)
    ensures Continues(k, s, ps, qs + [p], all + [p])
  {
    Append(k, s, all, p);
    Append(k, After(k, s, ps), qs, p);
    JoinLast(Outputs(k, s, ps), Outputs(k, After(k, s, ps), qs), Outputs(k, s, all), OutputOf(k, After(k, s, all), p));
  }

  lemma {:induction false} JoinLast<T>(a: seq<T>, b: seq<T>, all: seq<T>, x: T)
    requires all == a + b
    ensures all + [x] == a + (b + [x])
  {
  }

  lemma {:induction false} AfterConcat(k: Setup, s: State, ps: seq<Perception>, qs: seq<Perception>)
    requires ValidSetup(k) && Sound(k, s)
    ensures Continues(k, s, ps, qs, ps + qs)
  {
    if qs == [] {
      assert ps + qs == ps;
    } else {
      var n := |qs| - 1;
      AfterConcat(k, s, ps, qs[..n]);
      ContinuesAppend(k, s, ps, qs[..n], ps + qs[..n], qs[n]);
      Reassociate(ps, qs);
    }
  }

  lemma Reassociate(ps: seq<Perception>, qs: seq<Perception>)
    requires qs != []
    ensures ps + qs == (ps + qs[..|qs| - 1]) + [qs[|qs| - 1]] && qs == qs[..|qs| - 1] + [qs[|qs| - 1]]
  {
  }

  /** The same for whole recordings: the outputs over a recording with a seam in it are those of its two parts, each
      analysed on its own. */
  lemma {:induction false} SeamSplitsRun(k: Setup, before: seq<Perception>, after: seq<Perception>)
    requires ValidSetup(k) && before != [] && after != [] && after[0].seqNo <= before[|before| - 1].seqNo
    ensures Outputs(k, Fresh(k), before + after) == Outputs(k, Fresh(k), before) + Outputs(k, Fresh(k), after)
  {
    AfterConcat(k, Fresh(k), before, after);
    SeamNonInterference(k, before, after);
  }

  // -- Between seams ----------------------------------------------------------------------------------------

  /** The frames since the number last failed to advance. */
  function Stretch(ps: seq<Perception>): (r: seq<Perception>)
    ensures ps != [] ==> r != [] && r[|r| - 1] == ps[|ps| - 1]
  {
    if |ps| <= 1 then ps
    else
      var n := |ps| - 1;
      if ps[n].seqNo > ps[n - 1].seqNo then Stretch(ps[..n]) + [ps[n]] else [ps[n]]
  }

  ghost predicate Advancing(ps: seq<Perception>) {
    forall i :: 0 < i < |ps| ==> ps[i - 1].seqNo < ps[i].seqNo
  }

  lemma {:induction false} StretchAppend(ps: seq<Perception>, p: Perception)
    ensures Stretch(ps + [p])
              == if ps != [] && p.seqNo > ps[|ps| - 1].seqNo then Stretch(ps) + [p] else [p]
    ensures Stretch(ps) == [] <==> ps == []
  {
    var all := ps + [p];
    assert all[..|ps|] == ps && all[|ps|] == p;
    if ps == [] {
      assert all == [p];
    } else {
      assert all[|ps| - 1] == ps[|ps| - 1];
    }
  }

  ghost predicate Whole(ps: seq<Perception>) {
    Advancing(ps) ==> Stretch(ps) == ps
  }

  lemma {:induction false} WholeAppend(ps: seq<Perception>, p: Perception)
    requires Whole(ps)
    ensures Whole(ps + [p])
  {
    if Advancing(ps + [p]) {
      var all := ps + [p];
      forall i | 0 < i < |ps| ensures ps[i - 1].seqNo < ps[i].seqNo {
        assert all[i - 1].seqNo < all[i].seqNo;
      }
      assert ps != [] ==> all[|ps| - 1].seqNo < all[|ps|].seqNo;
      StretchAppend(ps, p);
      assert ps == [] ==> ps + [p] == [p];
    }
  }

  lemma {:induction false} StretchWhole(ps: seq<Perception>)
    requires Advancing(ps)
    ensures Stretch(ps) == ps
  {
    forall qs: seq<Perception>, q | Whole(qs) ensures Whole(qs + [q]) {
      WholeAppend(qs, q);
    }
    FromTheEnd(qs => Whole(qs), ps);
  }

  /** The crowd analyser, run over all frames. */
  ghost function CrowdAfter(k: Setup, ps: seq<Perception>): (s: GridAnalyzer.State)
    requires ValidSetup(k)
    ensures GridAnalyzer.CacheSound(k.grid, s.cache, k.camera)
  {
    if ps == [] then GridAnalyzer.FRESH
    else
      var n := |ps| - 1;
      GridAnalyzer.Analyze(k.grid, CrowdAfter(k, ps[..n]), ps[n].tracks, ps[n].at, k.camera).1
  }

  /** What it measures at the last one. */
  ghost function CrowdAt(k: Setup, ps: seq<Perception>): Indicators.Crowd
    requires ValidSetup(k) && ps != []
  {
    var n := |ps| - 1;
    GridAnalyzer.Analyze(k.grid, CrowdAfter(k, ps[..n]), ps[n].tracks, ps[n].at, k.camera).0
  }

  /** The exits of the camera. */
  function ExitIds(k: Setup): (exits: set<int>)
    ensures exits == GridAnalyzer.Exits(k.camera.zones)
  {
    set z | z in k.camera.zones && z.kind == GridAnalyzer.EXIT :: z.id
  }

  /** The assessor, run over all those measurements. */
  ghost function StabilityAfter(k: Setup, ps: seq<Perception>): Assessor.State
    requires ValidSetup(k)
  {
    if ps == [] then Assessor.FRESH
    else
      var n := |ps| - 1;
      Assessor.Next(k.stability, StabilityAfter(k, ps[..n]), CrowdAt(k, ps), ExitIds(k), ps[n].at)
  }

  ghost function AssessmentAt(k: Setup, ps: seq<Perception>): Option<Assessor.Assessment>
    requires ValidSetup(k) && ps != []
  {
    var n := |ps| - 1;
    Assessor.Assess(k.stability, StabilityAfter(k, ps[..n]), CrowdAt(k, ps), ExitIds(k), ps[n].at)
  }

  /** The frames whose assessment succeeded, which are those that zone flow sees. */
  ghost function AssessedFrames(k: Setup, ps: seq<Perception>): seq<Transitions.Frame>
    requires ValidSetup(k)
  {
    if ps == [] then []
    else
      var n := |ps| - 1;
      AssessedFrames(k, ps[..n]) + (if AssessmentAt(k, ps).Some? then [FrameOf(k, ps[n])] else [])
  }

  /** The zone tracker, run over all of those; on a camera without zones it does not run. */
  ghost function FlowAfter(k: Setup, ps: seq<Perception>): Transitions.Session
    requires ValidSetup(k)
  {
    Transitions.Run(k.flow, Movements.Policy.Prune, ZoneIds(k),
                    if k.camera.zones == [] then [] else AssessedFrames(k, ps))
  }

  /** The output at the last of these frames, every stage having seen all of them. */
  ghost function StagesOutput(k: Setup, ps: seq<Perception>): Output
    requires ValidSetup(k) && ps != []
  {
    if AssessmentAt(k, ps).None? then Unassessable
    else Result(CrowdAt(k, ps), AssessmentAt(k, ps).value, FlowReport(k, FlowAfter(k, ps), ps[|ps| - 1]))
  }

  /** The stages have seen these frames, and the number is that of the last one. */
  ghost predicate HasSeen(k: Setup, s: State, ps: seq<Perception>)
    requires ValidSetup(k)
  {
    && Sound(k, s)
    && s.crowd.history == CrowdAfter(k, ps).history && s.stability == StabilityAfter(k, ps)
    && s.flow == FlowAfter(k, ps)
    && s.lastSeq == (if ps == [] then None else Some(ps[|ps| - 1].seqNo))
  }

  lemma {:induction false} FlowAppend(k: Setup, ps: seq<Perception>, p: Perception)
    requires ValidSetup(k)
    ensures FlowAfter(k, ps + [p])
              == if AssessmentAt(k, ps + [p]).Some? then ObserveFlow(k, FlowAfter(k, ps), p) else FlowAfter(k, ps)
  {
    assert (ps + [p])[..|ps|] == ps;
    var fs := AssessedFrames(k, ps);
    if AssessmentAt(k, ps + [p]).Some? {
      assert (fs + [FrameOf(k, p)])[..|fs|] == fs;
    } else {
      assert fs + [] == fs;
    }
  }

  /** A frame analysed by stages that have seen all of the earlier ones. */
  lemma {:induction false} AnalyzeSees(k: Setup, s: State, ps: seq<Perception>, p: Perception)
    requires ValidSetup(k) && HasSeen(k, s, ps)
    ensures HasSeen(k, Analyze(k, s.(lastSeq := Some(p.seqNo)), p), ps + [p])
    ensures Reported(k, s.(lastSeq := Some(p.seqNo)), p) == StagesOutput(k, ps + [p])
  {
    assert (ps + [p])[..|ps|] == ps;
    var t := State(CrowdAfter(k, ps), StabilityAfter(k, ps), FlowAfter(k, ps), Some(p.seqNo));
    MeasuredAlike(k, s.(lastSeq := Some(p.seqNo)), t, p);
    FlowAppend(k, ps, p);
  }

  lemma FreshSees(k: Setup)
    requires ValidSetup(k)
    ensures HasSeen(k, Fresh(k), [])
  {
  }

  lemma ClearedSees(k: Setup, s: State)
    requires ValidSetup(k) && Sound(k, s)
    ensures HasSeen(k, Cleared(k, s), [])
  {
  }

  lemma {:induction false} FrameContinues(k: Setup, s: State, r: seq<Perception>, p: Perception)
    requires ValidSetup(k) && HasSeen(k, s, r) && (r != [] ==> r[|r| - 1].seqNo < p.seqNo)
    ensures HasSeen(k, Process(k, s, p), r + [p]) && OutputOf(k, s, p) == StagesOutput(k, r + [p])
  {
    assert NoteContinuity(k, s, p) == s.(lastSeq := Some(p.seqNo));
    AnalyzeSees(k, s, r, p);
  }

  lemma {:induction false} FrameRestarts(k: Setup, s: State, p: Perception)
    requires ValidSetup(k) && Sound(k, s) && s.lastSeq.Some? && p.seqNo <= s.lastSeq.value
    ensures HasSeen(k, Process(k, s, p), [p]) && OutputOf(k, s, p) == StagesOutput(k, [p])
  {
    ClearedSees(k, s);
    assert [] + [p] == [p];
    AnalyzeSees(k, Cleared(k, s), [], p);
  }

  /** One more frame: kept in mind with the stretch so far when its number advances, and alone otherwise. */
  lemma {:induction false} FrameSees(k: Setup, s: State, ps: seq<Perception>, p: Perception)
    requires ValidSetup(k) && HasSeen(k, s, Stretch(ps))
    ensures HasSeen(k, Process(k, s, p), Stretch(ps + [p]))
    ensures OutputOf(k, s, p) == StagesOutput(k, Stretch(ps + [p]))
  {
    StretchAppend(ps, p);
    if ps != [] && p.seqNo <= ps[|ps| - 1].seqNo {
      FrameRestarts(k, s, p);
    } else {
      assert ps == [] ==> Stretch(ps) + [p] == [p];
      FrameContinues(k, s, Stretch(ps), p);
    }
  }

  /** What the stages give at the end of the last stretch. */
  ghost function StretchOutput(k: Setup): seq<Perception> -> Option<Output>
    requires ValidSetup(k)
  {
    ps => if ps == [] then None else Some(StagesOutput(k, Stretch(ps)))
  }

  /** Each output is that of the stages at the end of its stretch. */
  ghost predicate OutputsDecided(k: Setup, outs: seq<Output>, ps: seq<Perception>)
    requires ValidSetup(k)
  {
    TracksPrefixes(StretchOutput(k), outs, ps)
  }

  lemma {:induction false} DecidedAppend(k: Setup, outs: seq<Output>, ps: seq<Perception>, out: Output, p: Perception)
    requires ValidSetup(k) && OutputsDecided(k, outs, ps) && out == StagesOutput(k, Stretch(ps + [p]))
    ensures OutputsDecided(k, outs + [out], ps + [p])
  {
    PrefixesAppend(StretchOutput(k), outs, ps, out, p);
  }

  ghost predicate StretchesDecide(k: Setup, ps: seq<Perception>)
    requires ValidSetup(k)
  {
    HasSeen(k, After(k, Fresh(k), ps), Stretch(ps)) && OutputsDecided(k, Outputs(k, Fresh(k), ps), ps)
  }

  lemma {:induction false} NothingDecided(k: Setup)
    requires ValidSetup(k)
    ensures StretchesDecide(k, [])
  {
    FreshSees(k);
  }

  lemma {:induction false} StretchStep(k: Setup, ps: seq<Perception>, p: Perception)
    requires ValidSetup(k) && StretchesDecide(k, ps)
    ensures StretchesDecide(k, ps + [p])
  {
    var s := After(k, Fresh(k), ps);
    FrameSees(k, s, ps, p);
    Append(k, Fresh(k), ps, p);
    DecidedAppend(k, Outputs(k, Fresh(k), ps), ps, OutputOf(k, s, p), p);
  }

  ghost function Decided(k: Setup): seq<Perception> -> bool
    requires ValidSetup(k)
  {
    ps => StretchesDecide(k, ps)
  }

  /** State survives every frame whose number advances, and no other. At any frame of any recording the stages have seen
      exactly the frames since the number last failed to advance, and the output is theirs. */
  lemma {:induction false} StretchDecides(k: Setup, ps: seq<Perception>)
    requires ValidSetup(k)
    ensures StretchesDecide(k, ps)
  {
    var decided := Decided(k);
    NothingDecided(k);
    forall qs: seq<Perception>, q | decided(qs) ensures decided(qs + [q]) {
      StretchStep(k, qs, q);
    }
    FromTheEnd(decided, ps);
  }

  lemma {:induction false} DecidedWhole(k: Setup, outs: seq<Output>, ps: seq<Perception>, i: nat)
    requires ValidSetup(k) && |outs| == |ps| && OutputsDecided(k, outs, ps) && Advancing(ps) && i < |ps|
    ensures outs[i] == StagesOutput(k, ps[..i + 1])
  {
    StretchWhole(ps[..i + 1]);
    assert StretchOutput(k)(ps[..i + 1]) == Some(outs[i]);
  }

  /** Over a recording whose numbers always advance nothing is ever forgotten. */
  lemma {:induction false} AdvancingKeepsAll(k: Setup, ps: seq<Perception>)
    requires ValidSetup(k) && Advancing(ps)
    ensures HasSeen(k, After(k, Fresh(k), ps), ps)
    ensures forall i :: 0 <= i < |ps| ==> Outputs(k, Fresh(k), ps)[i] == StagesOutput(k, ps[..i + 1])
  {
    StretchDecides(k, ps);
    StretchWhole(ps);
    forall i | 0 <= i < |ps| ensures Outputs(k, Fresh(k), ps)[i] == StagesOutput(k, ps[..i + 1]) {
      DecidedWhole(k, Outputs(k, Fresh(k), ps), ps, i);
    }
  }

  class AnalysisPipeline {
    const setup: Setup
    const analyzer: GridAnalyzer.GridCrowdAnalyzer
    const assessor: Assessor.WeightedStabilityAssessor
    const zoneFlow: ZoneTransitionTracker.Tracker
    var lastSeq: Option<int>

    ghost function Now(): State
      reads this, analyzer, assessor, assessor.smoother, assessor.hysteresis, zoneFlow
    {
      State(analyzer.Now(), assessor.Now(), zoneFlow.State(), lastSeq)
    }

    ghost predicate Valid()
      reads this, analyzer, assessor, assessor.smoother, assessor.hysteresis, zoneFlow
    {
      && ValidSetup(setup)
      && analyzer.cfg == setup.grid && analyzer.camera == setup.camera && analyzer.Valid()
      && assessor.cfg == setup.stability && assessor.Valid()
      && zoneFlow.cfg == setup.flow && zoneFlow.zones == ZoneIds(setup) && zoneFlow.Valid()
    }

    constructor (setup: Setup)
      requires ValidSetup(setup)
      ensures Valid() && this.setup == setup && Now() == Fresh(setup)
      ensures fresh(analyzer) && fresh(assessor) && fresh(assessor.smoother) && fresh(assessor.hysteresis)
      ensures fresh(zoneFlow)
    {
      this.setup := setup;
      analyzer := new GridAnalyzer.GridCrowdAnalyzer(setup.grid, setup.camera);
      assessor := new Assessor.WeightedStabilityAssessor(setup.stability);
      zoneFlow := new ZoneTransitionTracker.Tracker(setup.flow, ZoneIds(setup));
      lastSeq := None;
    }

    /** One frame is one step of the pipeline's specification, and yields its output. */
    method ProcessFrame(p: Perception) returns (out: Output)
      requires Valid()
      modifies this, analyzer, assessor, assessor.smoother, assessor.hysteresis, zoneFlow
      ensures Valid() && Sound(setup, old(Now()))
      ensures Now() == Process(setup, old(Now()), p) && out == OutputOf(setup, old(Now()), p)
    {
      NoteFrame(p);
      out := AnalyzeFrame(p);
    }

    /** The stages in turn. Without an assessment zone flow is not reached. */
    method AnalyzeFrame(p: Perception) returns (out: Output)
      requires Valid()
      modifies analyzer, assessor, assessor.smoother, assessor.hysteresis, zoneFlow
      ensures Valid() && Sound(setup, old(Now()))
      ensures Now() == Analyze(setup, old(Now()), p) && out == Reported(setup, old(Now()), p)
    {
      var crowd := analyzer.AnalyzeFrame(p.tracks, p.at);
      var stability := assessor.AssessWindow(crowd, GridAnalyzer.Exits(setup.camera.zones), p.at);
      if stability.None? {
        return Unassessable;
      }
      var report := ObserveZones(p);
      return Result(crowd, stability.value, report);
    }

    /** Zone flow, on a camera that has zones. */
    method ObserveZones(p: Perception) returns (report: Option<Transitions.Report>)
      requires Valid()
      modifies zoneFlow
      ensures Valid() && zoneFlow.State() == ObserveFlow(setup, old(zoneFlow.State()), p)
      ensures report == FlowReport(setup, zoneFlow.State(), p)
    {
      if setup.camera.zones == [] {
        return None;
      }
      var r := zoneFlow.Observe(FrameOf(setup, p));
      return Some(r);
    }

    /** Clears the state exactly when the frame's number does not exceed the last one seen. */
    method NoteFrame(p: Perception)
      requires Valid()
      modifies this, analyzer, assessor, assessor.smoother, assessor.hysteresis, zoneFlow
      ensures Valid() && Now() == NoteContinuity(setup, old(Now()), p)
    {
      var previous := lastSeq;
      lastSeq := Some(p.seqNo);
      if previous.Some? && p.seqNo <= previous.value {
        Reset();
        lastSeq := Some(p.seqNo);
      }
    }

    /** Back to the state of a new pipeline, but for the cell areas. */
    method Reset()
      requires Valid()
      modifies this, analyzer, assessor, assessor.smoother, assessor.hysteresis, zoneFlow
      ensures Valid() && Now() == Cleared(setup, old(Now()))
    {
      analyzer.Reset();
      assessor.Reset();
      zoneFlow.Reset();
      lastSeq := None;
    }
  }
}
