/** One figure for the people in view of several cameras, bracketed from both sides
    (ai/surgeguard_ai/site/headcount.py). */
module Headcount {
  import opened Common

  /** One camera's configuration and, when it contributes, its count. */
  datatype Camera = Camera(id: string, area: string, enabled: bool, contributing: bool, persons: nat)

  /** The cameras that watch one area. */
  datatype Group = Group(area: string, members: seq<Camera>)

  datatype AreaCount = AreaCount(area: string, cameras: seq<string>, value: nat, upper: nat, overlapping: bool)

  datatype Aggregation = NoData | IndependentSum | OverlapAdjusted

  datatype SiteHeadcount = SiteHeadcount(value: Option<nat>, upper: Option<nat>, aggregation: Aggregation,
                                         areas: seq<AreaCount>, contributing: seq<string>, missing: seq<string>)

  // -- Grouping ---------------------------------------------------------------------------------------------

  function IndexOf(groups: seq<Group>, area: string): (k: nat)
    ensures k <= |groups|
    ensures k < |groups| ==> groups[k].area == area
    ensures forall i :: 0 <= i < k ==> groups[i].area != area
  {
    if groups == [] then 0
    else if groups[0].area == area then 0
    else IndexOf(groups[1..], area) + 1
  }

  /** Add a camera to its area's group, opening one at the end for an area not seen before. */
  function Place(groups: seq<Group>, c: Camera): seq<Group> {
    var k := IndexOf(groups, c.area);
    if k < |groups| then groups[k := Group(c.area, groups[k].members + [c])]
    else groups + [Group(c.area, [c])]
  }

  function Grouped(cameras: seq<Camera>): seq<Group> {
    if cameras == [] then [] else Place(Grouped(cameras[..|cameras| - 1]), cameras[|cameras| - 1])
  }

  function Watches(area: string): Camera -> bool { (c: Camera) => c.area == area }

  ghost predicate IsGroupOf(g: Group, cameras: seq<Camera>) {
    g.members != [] && g.members == Filter(cameras, Watches(g.area))
  }

  ghost predicate Partitions(groups: seq<Group>, cameras: seq<Camera>) {
    && (forall i, j :: 0 <= i < j < |groups| ==> groups[i].area != groups[j].area)
    && (forall i :: 0 <= i < |groups| ==> IsGroupOf(groups[i], cameras))
    && (forall c :: c in cameras ==> IndexOf(groups, c.area) < |groups|)
  }

  lemma {:induction false} IndexOfStays(groups: seq<Group>, groups': seq<Group>, area: string)
    requires |groups| <= |groups'| && forall i :: 0 <= i < |groups| ==> groups'[i].area == groups[i].area
    ensures IndexOf(groups, area) < |groups| ==> IndexOf(groups', area) < |groups'|
  {
    var k := IndexOf(groups, area);
    if k < |groups| {
      assert groups'[k].area == area;
    }
  }

  lemma {:induction false} PlaceKeeps(groups: seq<Group>, cameras: seq<Camera>, c: Camera)
    requires Partitions(groups, cameras)
    ensures Partitions(Place(groups, c), cameras + [c])
  {
    var after, k := Place(groups, c), IndexOf(groups, c.area);
    forall i | 0 <= i < |after| ensures IsGroupOf(after[i], cameras + [c]) {
      FilterAppend(cameras, c, Watches(after[i].area));
      if i < |groups| {
        assert IsGroupOf(groups[i], cameras);
      } else {
        NobodyThere(groups, cameras, c.area);
      }
    }
    forall d | d in cameras + [c] ensures IndexOf(after, d.area) < |after| {
      IndexOfStays(groups, after, d.area);
      if d.area == c.area {
        assert after[if k < |groups| then k else |groups|].area == c.area;
      }
    }
  }

  lemma {:induction false} NobodyThere(groups: seq<Group>, cameras: seq<Camera>, area: string)
    requires Partitions(groups, cameras) && IndexOf(groups, area) == |groups|
    ensures Filter(cameras, Watches(area)) == []
  {
    FilterNone(cameras, Watches(area));
  }

  lemma Rejoin(cameras: seq<Camera>)
    requires cameras != []
    ensures cameras[..|cameras| - 1] + [cameras[|cameras| - 1]] == cameras
  {
  }

  /** No camera is lost or counted in two groups: areas differ from group to group, each group is exactly the cameras of
      its area in their order, and each camera's area has its group. */
  lemma {:induction false} GroupingPartitions(cameras: seq<Camera>)
    ensures Partitions(Grouped(cameras), cameras)
  {
    if cameras != [] {
      var n := |cameras| - 1;
      var init, c := cameras[..n], cameras[n];
      GroupingPartitions(init);
      PlaceKeeps(Grouped(init), init, c);
      Rejoin(cameras);
    }
  }

  method GroupByArea(cameras: seq<Camera>) returns (groups: seq<Group>)
    ensures groups == Grouped(cameras)
    ensures Partitions(groups, cameras)
  {
    groups := [];
    for i := 0 to |cameras|
      invariant groups == Grouped(cameras[..i])
    {
      var c := cameras[i];
      var k := 0;
      while k < |groups| && groups[k].area != c.area
        invariant k <= |groups| && forall j :: 0 <= j < k ==> groups[j].area != c.area
      {
        k := k + 1;
      }
      assert k == IndexOf(groups, c.area);
      if k < |groups| {
        groups := groups[k := Group(c.area, groups[k].members + [c])];
      } else {
        groups := groups + [Group(c.area, [c])];
      }
      assert cameras[..i + 1][..i] == cameras[..i];
    }
    assert cameras[..|cameras|] == cameras;
    GroupingPartitions(cameras);
  }

  // -- Combining --------------------------------------------------------------------------------------------

  function Largest(members: seq<Camera>): nat
    requires members != []
  {
    var n := |members| - 1;
    if n == 0 then members[0].persons
    else
      var m := Largest(members[..n]);
      if members[n].persons > m then members[n].persons else m
  }

  function PlainSum(members: seq<Camera>): nat {
    if members == [] then 0 else PlainSum(members[..|members| - 1]) + members[|members| - 1].persons
  }

  function Ids(cameras: seq<Camera>): seq<string> {
    seq(|cameras|, i requires 0 <= i < |cameras| => cameras[i].id)
  }

  function CountArea(g: Group): AreaCount
    requires g.members != []
  {
    AreaCount(g.area, Ids(g.members), Largest(g.members), PlainSum(g.members), |g.members| > 1)
  }

  predicate Occupied(groups: seq<Group>) {
    forall i :: 0 <= i < |groups| ==> groups[i].members != []
  }

  lemma {:induction false} GroupsOccupied(groups: seq<Group>, cameras: seq<Camera>)
    requires Partitions(groups, cameras)
    ensures Occupied(groups)
  {
    forall i | 0 <= i < |groups| ensures groups[i].members != [] {
      assert IsGroupOf(groups[i], cameras);
    }
  }

  function CountAreas(groups: seq<Group>): seq<AreaCount>
    requires Occupied(groups)
  {
    if groups == [] then [] else CountAreas(groups[..|groups| - 1]) + [CountArea(groups[|groups| - 1])]
  }

  function SumValues(areas: seq<AreaCount>): nat {
    if areas == [] then 0 else SumValues(areas[..|areas| - 1]) + areas[|areas| - 1].value
  }

  function SumUppers(areas: seq<AreaCount>): nat {
    if areas == [] then 0 else SumUppers(areas[..|areas| - 1]) + areas[|areas| - 1].upper
  }

  function Contributes(): Camera -> bool { (c: Camera) => c.contributing }
  function Missing(): Camera -> bool { (c: Camera) => c.enabled && !c.contributing }

  function Contributors(cameras: seq<Camera>): seq<Camera> { Filter(cameras, Contributes()) }

  /** Areas of the contributing cameras. */
  function Areas(cameras: seq<Camera>): seq<AreaCount> {
    GroupingPartitions(Contributors(cameras));
    GroupsOccupied(Grouped(Contributors(cameras)), Contributors(cameras));
    CountAreas(Grouped(Contributors(cameras)))
  }

  predicate Overlapping(areas: seq<AreaCount>) {
    exists i :: 0 <= i < |areas| && areas[i].overlapping
  }

  function Combine(cameras: seq<Camera>): SiteHeadcount {
    var contributors, missing := Contributors(cameras), Ids(Filter(cameras, Missing()));
    if contributors == [] then SiteHeadcount(None, None, NoData, [], [], missing)
    else
      var areas := Areas(cameras);
      SiteHeadcount(Some(SumValues(areas)), Some(SumUppers(areas)),
                    if Overlapping(areas) then OverlapAdjusted else IndependentSum,
                    areas, Ids(contributors), missing)
  }

  method CombineHeadcount(cameras: seq<Camera>) returns (r: SiteHeadcount)
    ensures r == Combine(cameras)
  {
    var contributors := Contributors(cameras);
    var missing := Ids(Filter(cameras, Missing()));
    if contributors == [] {
      return SiteHeadcount(None, None, NoData, [], [], missing);
    }
    var groups := GroupByArea(contributors);
    GroupsOccupied(groups, contributors);
    var areas, value, upper, overlapping := TotalAreas(groups);
    return SiteHeadcount(Some(value), Some(upper), if overlapping then OverlapAdjusted else IndependentSum,
                         areas, Ids(contributors), missing);
  }

  method TotalAreas(groups: seq<Group>) returns (areas: seq<AreaCount>, value: nat, upper: nat, overlapping: bool)
    requires Occupied(groups)
    ensures areas == CountAreas(groups) && value == SumValues(areas) && upper == SumUppers(areas)
    ensures overlapping == Overlapping(areas)
  {
    areas, value, upper, overlapping := [], 0, 0, false;
    for i := 0 to |groups|
      invariant areas == CountAreas(groups[..i])
      invariant value == SumValues(areas) && upper == SumUppers(areas)
      invariant overlapping == Overlapping(areas)
    {
      var area := CountArea(groups[i]);
      assert groups[..i + 1][..i] == groups[..i];
      OverlappingAppend(areas, area);
      assert (areas + [area])[..|areas|] == areas;
      areas, value, upper := areas + [area], value + area.value, upper + area.upper;
      overlapping := overlapping || area.overlapping;
    }
    assert groups[..|groups|] == groups;
  }

  lemma {:induction false} OverlappingAppend(areas: seq<AreaCount>, a: AreaCount)
    ensures Overlapping(areas + [a]) <==> Overlapping(areas) || a.overlapping
  {
    assert (areas + [a])[|areas|] == a;
    assert forall i :: 0 <= i < |areas| ==> (areas + [a])[i] == areas[i];
  }

  /** Two of these cameras watch one area. */
  ghost predicate TwoWatch(cameras: seq<Camera>, area: string) {
    exists i, j :: 0 <= i < j < |cameras| && cameras[i].area == cameras[j].area == area
  }

  lemma {:induction false} OneWatches(cameras: seq<Camera>, area: string)
    ensures Filter(cameras, Watches(area)) != [] <==> exists i :: 0 <= i < |cameras| && cameras[i].area == area
  {
    FilterMembers(cameras, Watches(area));
    var members := Filter(cameras, Watches(area));
    if members != [] {
      assert members[0] in cameras;
    }
    if exists i :: 0 <= i < |cameras| && cameras[i].area == area {
      var i :| 0 <= i < |cameras| && cameras[i].area == area;
      assert cameras[i] in members;
    }
  }

  lemma {:induction false} SeveralWatch(cameras: seq<Camera>, area: string)
    ensures |Filter(cameras, Watches(area))| > 1 <==> TwoWatch(cameras, area)
  {
    if cameras != [] {
      var n := |cameras| - 1;
      SeveralWatch(cameras[..n], area);
      OneWatches(cameras[..n], area);
      if TwoWatch(cameras, area) {
        var i, j :| 0 <= i < j < |cameras| && cameras[i].area == cameras[j].area == area;
        assert cameras[..n][i].area == area;
        if j < n {
          assert cameras[..n][j].area == area;
        }
      }
      if TwoWatch(cameras[..n], area) {
        var i, j :| 0 <= i < j < n && cameras[..n][i].area == cameras[..n][j].area == area;
        assert cameras[i].area == cameras[j].area == area;
      }
    }
  }

  lemma {:induction false} CountAreasAt(groups: seq<Group>)
    requires Occupied(groups)
    ensures |CountAreas(groups)| == |groups|
    ensures forall i :: 0 <= i < |groups| ==> CountAreas(groups)[i] == CountArea(groups[i])
  {
    if groups != [] {
      CountAreasAt(groups[..|groups| - 1]);
    }
  }

  lemma {:induction false} IdsAre(cameras: seq<Camera>)
    ensures forall id :: id in Ids(cameras) <==> exists c :: c in cameras && c.id == id
  {
    forall c | c in cameras ensures c.id in Ids(cameras) {
      var i :| 0 <= i < |cameras| && cameras[i] == c;
      assert Ids(cameras)[i] == c.id;
    }
  }

  /** Which cameras a figure names: those that contribute, and those that are enabled and do not. */
  lemma {:induction false} ListsAre(cameras: seq<Camera>)
    ensures var r := Combine(cameras);
            && (forall id :: id in r.contributing <==> exists c :: c in cameras && c.contributing && c.id == id)
            && (forall id :: id in r.missing <==>
                               exists c :: c in cameras && c.enabled && !c.contributing && c.id == id)
  {
    FilterMembers(cameras, Contributes());
    FilterMembers(cameras, Missing());
    IdsAre(Contributors(cameras));
    IdsAre(Filter(cameras, Missing()));
  }

  /** How a figure is labelled: no data exactly when no camera contributes, and adjusted for overlap exactly when two
      that do watch one area. */
  lemma {:induction false} LabelIs(cameras: seq<Camera>)
    ensures var r, contributors := Combine(cameras), Contributors(cameras);
            && (r.aggregation == NoData <==> contributors == []) && (r.value.None? <==> contributors == [])
            && (r.aggregation == OverlapAdjusted <==> exists area :: TwoWatch(contributors, area))
  {
    var contributors := Contributors(cameras);
    var groups := Grouped(contributors);
    GroupingPartitions(contributors);
    GroupsOccupied(groups, contributors);
    CountAreasAt(groups);
    forall i | 0 <= i < |groups|
      ensures CountAreas(groups)[i].overlapping <==> TwoWatch(contributors, groups[i].area)
    {
      assert IsGroupOf(groups[i], contributors);
      SeveralWatch(contributors, groups[i].area);
    }
    forall area | TwoWatch(contributors, area) ensures Overlapping(CountAreas(groups)) {
      var i, j :| 0 <= i < j < |contributors| && contributors[i].area == contributors[j].area == area;
      var k := IndexOf(groups, area);
      assert contributors[i] in contributors;
      assert CountAreas(groups)[k].overlapping;
    }
  }

  // -- Against the people who are really there --------------------------------------------------------------

  /** The people whom at least one of the cameras sees. */
  function Seen<P>(cameras: seq<Camera>, sees: Camera -> set<P>): set<P> {
    if cameras == [] then {} else Seen(cameras[..|cameras| - 1], sees) + sees(cameras[|cameras| - 1])
  }

  function SeenByGroups<P>(groups: seq<Group>, sees: Camera -> set<P>): set<P> {
    if groups == [] then {}
    else SeenByGroups(groups[..|groups| - 1], sees) + Seen(groups[|groups| - 1].members, sees)
  }

  /** Each camera counts the people it sees, and nobody is in view of two areas. */
  ghost predicate Truthful<P>(cameras: seq<Camera>, sees: Camera -> set<P>) {
    && (forall c :: c in cameras ==> |sees(c)| == c.persons)
    && (forall c, d :: c in cameras && d in cameras && c.area != d.area ==> sees(c) !! sees(d))
  }

  lemma {:induction false} SeenMembers<P>(cameras: seq<Camera>, sees: Camera -> set<P>, p: P)
    ensures p in Seen(cameras, sees) <==> exists c :: c in cameras && p in sees(c)
  {
    if cameras != [] {
      var n := |cameras| - 1;
      assert cameras == cameras[..n] + [cameras[n]];
      SeenMembers(cameras[..n], sees, p);
    }
  }

  lemma {:induction false} SeenByGroupsMembers<P>(groups: seq<Group>, sees: Camera -> set<P>, p: P)
    ensures p in SeenByGroups(groups, sees) <==>
            exists i :: 0 <= i < |groups| && p in Seen(groups[i].members, sees)
  {
    if groups != [] {
      SeenByGroupsMembers(groups[..|groups| - 1], sees, p);
    }
  }

  lemma {:induction false} InItsGroup<P>(groups: seq<Group>, cameras: seq<Camera>, sees: Camera -> set<P>, c: Camera,
                                         p: P)
    requires Partitions(groups, cameras) && c in cameras && p in sees(c)
    ensures p in SeenByGroups(groups, sees)
  {
    var k := IndexOf(groups, c.area);
    assert IsGroupOf(groups[k], cameras);
    FilterMembers(cameras, Watches(groups[k].area));
    SeenMembers(groups[k].members, sees, p);
    SeenByGroupsMembers(groups, sees, p);
  }

  lemma {:induction false} InACamera<P>(groups: seq<Group>, cameras: seq<Camera>, sees: Camera -> set<P>, i: nat, p: P)
    requires Partitions(groups, cameras) && i < |groups| && p in Seen(groups[i].members, sees)
    ensures exists c :: c in cameras && c.area == groups[i].area && p in sees(c)
  {
    assert IsGroupOf(groups[i], cameras);
    FilterMembers(cameras, Watches(groups[i].area));
    SeenMembers(groups[i].members, sees, p);
  }

  /** Grouping neither hides nor invents anybody. */
  lemma {:induction false} SeenByPartition<P>(groups: seq<Group>, cameras: seq<Camera>, sees: Camera -> set<P>)
    requires Partitions(groups, cameras)
    ensures SeenByGroups(groups, sees) == Seen(cameras, sees)
  {
    forall p | p in SeenByGroups(groups, sees) ensures p in Seen(cameras, sees) {
      SeenMembers(cameras, sees, p);
      SeenByGroupsMembers(groups, sees, p);
      var i :| 0 <= i < |groups| && p in Seen(groups[i].members, sees);
      InACamera(groups, cameras, sees, i, p);
    }
    forall p | p in Seen(cameras, sees) ensures p in SeenByGroups(groups, sees) {
      SeenMembers(cameras, sees, p);
      var c :| c in cameras && p in sees(c);
      InItsGroup(groups, cameras, sees, c, p);
    }
  }

  lemma UnionSize<P>(a: set<P>, b: set<P>)
    ensures |a| <= |a + b| <= |a| + |b| && |b| <= |a + b|
    ensures a !! b ==> |a + b| == |a| + |b|
  {
    assert |a + b| == |a| + |b - a| by {
      assert a + b == a + (b - a);
    }
    assert |b| == |b - a| + |b * a| by {
      assert b == (b - a) + (b * a);
    }
    SubsetSize(b * a, a);
    if a !! b {
      assert b - a == b;
    }
  }

  lemma SubsetSize<P>(a: set<P>, b: set<P>)
    requires a <= b
    ensures |a| <= |b|
  {
    assert b == a + (b - a);
  }

  /** Within one area: at least the largest count, at most all counts together. */
  lemma {:induction false} AreaBrackets<P>(members: seq<Camera>, sees: Camera -> set<P>)
    requires members != [] && forall c :: c in members ==> |sees(c)| == c.persons
    ensures Largest(members) <= |Seen(members, sees)| <= PlainSum(members)
  {
    var n := |members| - 1;
    assert members[n] in members && members == members[..n] + [members[n]];
    UnionSize(Seen(members[..n], sees), sees(members[n]));
    if n == 0 {
      assert members[..0] == [];
    } else {
      AreaBrackets(members[..n], sees);
    }
  }

  ghost predicate SeparateGroups<P>(groups: seq<Group>, sees: Camera -> set<P>) {
    forall i, j :: 0 <= i < j < |groups| ==> Seen(groups[i].members, sees) !! Seen(groups[j].members, sees)
  }

  lemma {:induction false} SeenInOneArea<P>(groups: seq<Group>, cameras: seq<Camera>, sees: Camera -> set<P>, i: nat,
                                            j: nat, p: P)
    requires Partitions(groups, cameras) && Truthful(cameras, sees) && i < |groups| && j < |groups|
    requires p in Seen(groups[i].members, sees) && p in Seen(groups[j].members, sees)
    ensures groups[i].area == groups[j].area
  {
    InACamera(groups, cameras, sees, i, p);
    InACamera(groups, cameras, sees, j, p);
  }

  lemma {:induction false} GroupsSeparate<P>(groups: seq<Group>, cameras: seq<Camera>, sees: Camera -> set<P>)
    requires Partitions(groups, cameras) && Truthful(cameras, sees)
    ensures SeparateGroups(groups, sees)
  {
    forall i, j | 0 <= i < j < |groups| ensures Seen(groups[i].members, sees) !! Seen(groups[j].members, sees) {
      forall p | p in Seen(groups[i].members, sees) ensures p !in Seen(groups[j].members, sees) {
        if p in Seen(groups[j].members, sees) {
          SeenInOneArea(groups, cameras, sees, i, j, p);
        }
      }
    }
  }

  lemma {:induction false} GroupsBracket<P>(groups: seq<Group>, sees: Camera -> set<P>)
    requires SeparateGroups(groups, sees)
    requires Occupied(groups)
    requires forall i, c :: 0 <= i < |groups| && c in groups[i].members ==> |sees(c)| == c.persons
    ensures SumValues(CountAreas(groups)) <= |SeenByGroups(groups, sees)| <= SumUppers(CountAreas(groups))
  {
    if groups != [] {
      var n := |groups| - 1;
      GroupsBracket(groups[..n], sees);
      AreaBrackets(groups[n].members, sees);
      var areas := CountAreas(groups);
      assert areas[..|areas| - 1] == CountAreas(groups[..n]);
      var before, here := SeenByGroups(groups[..n], sees), Seen(groups[n].members, sees);
      forall p | p in before ensures p !in here {
        SeenByGroupsMembers(groups[..n], sees, p);
      }
      UnionSize(before, here);
    }
  }

  /** The combined count brackets the truth: however people are distributed over the views, as long as nobody is in two
      areas at once, the number of different people seen lies between the two figures. */
  lemma {:induction false} HeadcountBrackets<P>(cameras: seq<Camera>, sees: Camera -> set<P>)
    requires Truthful(Contributors(cameras), sees)
    ensures var r, people := Combine(cameras), |Seen(Contributors(cameras), sees)|;
            && (r.value.None? <==> Contributors(cameras) == [])
            && (r.value.Some? ==> r.upper.Some? && r.value.value <= people <= r.upper.value)
  {
    var contributors := Contributors(cameras);
    var groups := Grouped(contributors);
    GroupingPartitions(contributors);
    GroupsOccupied(groups, contributors);
    GroupsSeparate(groups, contributors, sees);
    forall i, c | 0 <= i < |groups| && c in groups[i].members ensures |sees(c)| == c.persons {
      assert IsGroupOf(groups[i], contributors);
      FilterMembers(contributors, Watches(groups[i].area));
    }
    GroupsBracket(groups, sees);
    SeenByPartition(groups, contributors, sees);
  }

  // -- The lower figure is attained -------------------------------------------------------------------------

  datatype Person = Person(area: string, number: nat)

  function FirstPeople(area: string, n: nat): set<Person> {
    if n == 0 then {} else FirstPeople(area, n - 1) + {Person(area, n - 1)}
  }

  /** Cameras of one area that look at the same spot: each sees the first so many of the people there. */
  function SameSpot(): Camera -> set<Person> { (c: Camera) => FirstPeople(c.area, c.persons) }

  lemma {:induction false} FirstPeopleMembers(area: string, n: nat)
    ensures |FirstPeople(area, n)| == n
    ensures forall p :: p in FirstPeople(area, n) <==> p.area == area && p.number < n
  {
    if n > 0 {
      FirstPeopleMembers(area, n - 1);
    }
  }

  lemma {:induction false} SameSpotSeen(area: string, members: seq<Camera>)
    requires members != [] && forall c :: c in members ==> c.area == area
    ensures Seen(members, SameSpot()) == FirstPeople(area, Largest(members))
  {
    var n := |members| - 1;
    assert members[n] in members && members == members[..n] + [members[n]];
    FirstPeopleMembers(area, members[n].persons);
    if n == 0 {
      assert members[..0] == [];
    } else {
      SameSpotSeen(area, members[..n]);
      FirstPeopleMembers(area, Largest(members[..n]));
    }
    FirstPeopleMembers(area, Largest(members));
  }

  lemma {:induction false} SameSpotGroups(groups: seq<Group>)
    requires SeparateGroups(groups, SameSpot())
    requires Occupied(groups)
    requires forall i, c :: 0 <= i < |groups| && c in groups[i].members ==> c.area == groups[i].area
    ensures SumValues(CountAreas(groups)) == |SeenByGroups(groups, SameSpot())|
  {
    if groups != [] {
      var n := |groups| - 1;
      SameSpotGroups(groups[..n]);
      SameSpotSeen(groups[n].area, groups[n].members);
      FirstPeopleMembers(groups[n].area, Largest(groups[n].members));
      var areas := CountAreas(groups);
      assert areas[..|areas| - 1] == CountAreas(groups[..n]);
      var before, here := SeenByGroups(groups[..n], SameSpot()), Seen(groups[n].members, SameSpot());
      forall p | p in before ensures p !in here {
        SeenByGroupsMembers(groups[..n], SameSpot(), p);
      }
      UnionSize(before, here);
    }
  }

  lemma {:induction false} SameSpotTruthful(cameras: seq<Camera>)
    ensures Truthful(cameras, SameSpot())
  {
    forall c ensures |SameSpot()(c)| == c.persons {
      FirstPeopleMembers(c.area, c.persons);
    }
    forall c: Camera, d: Camera | c.area != d.area ensures SameSpot()(c) !! SameSpot()(d) {
      FirstPeopleMembers(c.area, c.persons);
      FirstPeopleMembers(d.area, d.persons);
    }
  }

  /** No larger figure could be vouched for: there is always a crowd of exactly that size that gives the same counts. */
  lemma {:induction false} ValueIsAttained(cameras: seq<Camera>)
    requires Contributors(cameras) != []
    ensures Truthful(Contributors(cameras), SameSpot())
    ensures Combine(cameras).value == Some(|Seen(Contributors(cameras), SameSpot())|)
  {
    var contributors := Contributors(cameras);
    var groups := Grouped(contributors);
    GroupingPartitions(contributors);
    SameSpotTruthful(contributors);
    GroupsOccupied(groups, contributors);
    GroupsSeparate(groups, contributors, SameSpot());
    forall i, c | 0 <= i < |groups| && c in groups[i].members ensures c.area == groups[i].area {
      assert IsGroupOf(groups[i], contributors);
      FilterMembers(contributors, Watches(groups[i].area));
    }
    SameSpotGroups(groups);
    SeenByPartition(groups, contributors, SameSpot());
  }

  // -- So is the upper one ----------------------------------------------------------------------------------

  /** Cameras none of which sees what another does. */
  function Apart(): Camera -> set<Person> { (c: Camera) => FirstPeople(c.id, c.persons) }

  ghost predicate DistinctIds(cameras: seq<Camera>) {
    forall i, j :: 0 <= i < j < |cameras| ==> cameras[i].id != cameras[j].id
  }

  lemma {:induction false} ApartDisjoint(c: Camera, d: Camera)
    ensures |Apart()(c)| == c.persons && (c.id != d.id ==> Apart()(c) !! Apart()(d))
  {
    FirstPeopleMembers(c.id, c.persons);
    FirstPeopleMembers(d.id, d.persons);
  }

  lemma {:induction false} ApartSeen(cameras: seq<Camera>)
    requires DistinctIds(cameras)
    ensures |Seen(cameras, Apart())| == PlainSum(cameras)
  {
    if cameras != [] {
      var n := |cameras| - 1;
      ApartSeen(cameras[..n]);
      forall p | p in Seen(cameras[..n], Apart()) ensures p !in Apart()(cameras[n]) {
        SeenMembers(cameras[..n], Apart(), p);
        var c :| c in cameras[..n] && p in Apart()(c);
        ApartDisjoint(c, cameras[n]);
      }
      ApartDisjoint(cameras[n], cameras[n]);
      UnionSize(Seen(cameras[..n], Apart()), Apart()(cameras[n]));
    }
  }

  lemma {:induction false} CountAreasAppend(groups: seq<Group>, g: Group)
    requires Occupied(groups) && g.members != []
    ensures Occupied(groups + [g])
    ensures SumUppers(CountAreas(groups + [g])) == SumUppers(CountAreas(groups)) + PlainSum(g.members)
  {
    assert (groups + [g])[..|groups|] == groups;
    var areas := CountAreas(groups);
    assert (areas + [CountArea(g)])[..|areas|] == areas;
  }

  lemma {:induction false} GrowGroup(groups: seq<Group>, k: nat, c: Camera)
    requires Occupied(groups) && k < |groups|
    ensures var after := groups[k := Group(c.area, groups[k].members + [c])];
            Occupied(after) && SumUppers(CountAreas(after)) == SumUppers(CountAreas(groups)) + c.persons
  {
    var n := |groups| - 1;
    var g := Group(c.area, groups[k].members + [c]);
    CountAreasAppend(groups[..n], groups[n]);
    UpdateSplits(groups, k, g);
    if k == n {
      PlainSumAppend(groups[n].members, c);
      CountAreasAppend(groups[..n], g);
    } else {
      GrowGroup(groups[..n], k, c);
      CountAreasAppend(groups[..n][k := g], groups[n]);
    }
  }

  lemma UpdateSplits<T>(s: seq<T>, k: nat, x: T)
    requires k < |s|
    ensures var n := |s| - 1;
            && s == s[..n] + [s[n]]
            && s[k := x] == if k == n then s[..n] + [x] else s[..n][k := x] + [s[n]]
  {
  }

  lemma {:induction false} PlainSumAppend(members: seq<Camera>, c: Camera)
    ensures PlainSum(members + [c]) == PlainSum(members) + c.persons
  {
    assert (members + [c])[..|members|] == members;
  }

  lemma {:induction false} UpperIsPlainSum(cameras: seq<Camera>)
    ensures Occupied(Grouped(cameras)) && SumUppers(CountAreas(Grouped(cameras))) == PlainSum(cameras)
  {
    if cameras != [] {
      var n := |cameras| - 1;
      var groups, c := Grouped(cameras[..n]), cameras[n];
      UpperIsPlainSum(cameras[..n]);
      var k := IndexOf(groups, c.area);
      if k < |groups| {
        GrowGroup(groups, k, c);
      } else {
        OneCamera(c);
        CountAreasAppend(groups, Group(c.area, [c]));
      }
    }
  }

  lemma OneCamera(c: Camera)
    ensures PlainSum([c]) == c.persons
  {
    assert PlainSum([c][..0]) == 0;
  }

  /** No smaller upper bound could be vouched for either: cameras that share no view give the same counts. */
  lemma {:induction false} UpperIsAttained(cameras: seq<Camera>)
    requires Contributors(cameras) != [] && DistinctIds(Contributors(cameras))
    ensures Truthful(Contributors(cameras), Apart())
    ensures Combine(cameras).upper == Some(|Seen(Contributors(cameras), Apart())|)
  {
    var contributors := Contributors(cameras);
    ApartSeen(contributors);
    UpperIsPlainSum(contributors);
    forall c, d | c in contributors && d in contributors
      ensures |Apart()(c)| == c.persons && (c.area != d.area ==> Apart()(c) !! Apart()(d))
    {
      ApartDisjoint(c, d);
      if c.id == d.id {
        SameIdSameCamera(contributors, c, d);
      }
    }
  }

  lemma {:induction false} SameIdSameCamera(cameras: seq<Camera>, c: Camera, d: Camera)
    requires DistinctIds(cameras) && c in cameras && d in cameras && c.id == d.id
    ensures c == d
  {
    var i :| 0 <= i < |cameras| && cameras[i] == c;
    var j :| 0 <= j < |cameras| && cameras[j] == d;
    assert i == j;
  }
}
