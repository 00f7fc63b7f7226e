/** The factory map screen: the fixed table of eight areas on two floors, the
    grouping of fetched machine records into those areas, the per-floor
    machine and failure totals, the floor view and the per-area failure badge
    (app/factoryMap.tsx). */
module FactoryMap {
  import opened Seqs
  import opened Machines
  import opened Decimals

  datatype AreaType = Workspace | Meeting | Restroom | Utility | Office

  datatype AreaInfo = AreaInfo(
    id: nat,
    name: string,
    areaType: AreaType,
    description: string,
    machines: seq<MachineRecord>,
    floor: nat)

  /** The static area table, in display order, every bucket empty. */
  const Areas: seq<AreaInfo> := [
    AreaInfo(1, "Main Production Floor", Workspace, "Large open area with primary production machinery", [], 1),
    AreaInfo(2, "Quality Control Lab", Workspace, "Specialized area for product testing and quality assurance", [], 1),
    AreaInfo(3, "Conference Room A", Meeting, "Large meeting room for team gatherings and client presentations", [], 2),
    AreaInfo(4, "Executive Offices", Office, "Private offices for company executives", [], 2),
    AreaInfo(5, "Break Room", Utility, "Communal area for employee breaks and meals", [], 1),
    AreaInfo(6, "Maintenance Workshop", Utility, "Area for machine repairs and maintenance", [], 1),
    AreaInfo(7, "Restrooms", Restroom, "Employee restrooms", [], 1),
    AreaInfo(8, "R&D Lab", Workspace, "Research and development laboratory", [], 2)
  ]

  // ---------------------------------------------------------------------
  // Grouping records into areas

  /** A record belongs to an area when its `area` and `floor` texts equal the
      area's id and floor printed in decimal: plain string equality. */
  predicate InArea(m: MachineRecord, a: AreaInfo)
  {
    m.area == DecimalString(a.id) && m.floor == DecimalString(a.floor)
  }

  function InAreaTest(a: AreaInfo): MachineRecord -> bool
  {
    (m: MachineRecord) => InArea(m, a)
  }

  /** The bucket of one area: `jsonData.filter(...)`. */
  function AreaMachines(records: seq<MachineRecord>, a: AreaInfo): seq<MachineRecord>
  {
    Filter(records, InAreaTest(a))
  }

  /** `areas.map(area => ({ ...area, machines: bucket }))`: each area keeps
      every field but `machines`, which becomes its bucket. */
  function GroupByArea(areas: seq<AreaInfo>, records: seq<MachineRecord>): (grouped: seq<AreaInfo>)
    ensures |grouped| == |areas|
    ensures forall i :: 0 <= i < |areas| ==>
              && grouped[i].id == areas[i].id
              && grouped[i].name == areas[i].name
              && grouped[i].areaType == areas[i].areaType
              && grouped[i].description == areas[i].description
              && grouped[i].floor == areas[i].floor
              && grouped[i].machines == AreaMachines(records, areas[i])
  {
    if areas == [] then []
    else [areas[0].(machines := AreaMachines(records, areas[0]))] + GroupByArea(areas[1..], records)
  }

  /** A bucket holds exactly the records whose `area` and `floor` texts are the
      area's id and floor in decimal, each as often as it was fetched. */
  lemma BucketIsMatchingRecords(areas: seq<AreaInfo>, records: seq<MachineRecord>, i: nat, m: MachineRecord)
    requires i < |areas|
    ensures m in GroupByArea(areas, records)[i].machines
        <==> m in records && m.area == DecimalString(areas[i].id) && m.floor == DecimalString(areas[i].floor)
    ensures multiset(GroupByArea(areas, records)[i].machines)[m]
         == if InArea(m, areas[i]) then multiset(records)[m] else 0
  {
    FilterMembership(records, InAreaTest(areas[i]), m);
    FilterMultiset(records, InAreaTest(areas[i]), m);
  }

  /** Buckets keep input order: the bucket of `r1 + r2` is the bucket of `r1`
      followed by the bucket of `r2`. */
  lemma BucketKeepsOrder(r1: seq<MachineRecord>, r2: seq<MachineRecord>, a: AreaInfo)
    ensures AreaMachines(r1 + r2, a) == AreaMachines(r1, a) + AreaMachines(r2, a)
  {
    FilterAppend(r1, r2, InAreaTest(a));
  }

  /** No numeric coercion: a zero-padded text such as "01" matches no area. */
  lemma LeadingZeroNeverMatches(m: MachineRecord, a: AreaInfo)
    requires |m.area| > 1 && m.area[0] == '0'
    ensures !InArea(m, a)
  {
  }

  ghost predicate DistinctIds(areas: seq<AreaInfo>)
  {
    forall i, j :: 0 <= i < j < |areas| ==> areas[i].id != areas[j].id
  }

  lemma TableIdsDistinct()
    ensures DistinctIds(Areas)
  {
  }

  /** With distinct ids, no record lands in two buckets. */
  lemma AtMostOneBucket(areas: seq<AreaInfo>, records: seq<MachineRecord>, m: MachineRecord, i: nat, j: nat)
    requires DistinctIds(areas)
    requires i < |areas| && j < |areas| && i != j
    ensures !(m in GroupByArea(areas, records)[i].machines && m in GroupByArea(areas, records)[j].machines)
  {
    BucketIsMatchingRecords(areas, records, i, m);
    BucketIsMatchingRecords(areas, records, j, m);
    if InArea(m, areas[i]) && InArea(m, areas[j]) {
      DecimalStringInjective(areas[i].id, areas[j].id);
      assert areas[i].id != areas[j].id by {
        if i < j { } else { }
      }
    }
  }

  /** The record matches some area of the list. */
  predicate InSomeArea(areas: seq<AreaInfo>, m: MachineRecord)
  {
    areas != [] && (InSomeArea(areas[..|areas| - 1], m) || InArea(m, areas[|areas| - 1]))
  }

  function InSomeAreaTest(areas: seq<AreaInfo>): MachineRecord -> bool
  {
    (m: MachineRecord) => InSomeArea(areas, m)
  }

  lemma {:induction false} InSomeAreaWitness(areas: seq<AreaInfo>, m: MachineRecord)
    requires InSomeArea(areas, m)
    ensures exists j :: 0 <= j < |areas| && InArea(m, areas[j])
  {
    if !InArea(m, areas[|areas| - 1]) {
      InSomeAreaWitness(areas[..|areas| - 1], m);
      var j :| 0 <= j < |areas| - 1 && InArea(m, areas[..|areas| - 1][j]);
      assert InArea(m, areas[j]);
    }
  }

  /** A record that matches no area is in no bucket. */
  lemma {:induction false} UnmatchedInNoBucket(areas: seq<AreaInfo>, records: seq<MachineRecord>, m: MachineRecord, i: nat)
    requires !InSomeArea(areas, m) && i < |areas|
    ensures m !in GroupByArea(areas, records)[i].machines
  {
    BucketIsMatchingRecords(areas, records, i, m);
    if InArea(m, areas[i]) {
      MatchImpliesInSome(areas, m, i);
    }
  }

  lemma {:induction false} MatchImpliesInSome(areas: seq<AreaInfo>, m: MachineRecord, i: nat)
    requires i < |areas| && InArea(m, areas[i])
    ensures InSomeArea(areas, m)
  {
    if i < |areas| - 1 {
      MatchImpliesInSome(areas[..|areas| - 1], m, i);
    }
  }

  /** Sum of the bucket sizes: `areas.reduce((sum, a) => sum + a.machines.length, 0)`. */
  function TotalMachines(areas: seq<AreaInfo>): nat
  {
    if areas == [] then 0 else TotalMachines(areas[..|areas| - 1]) + |areas[|areas| - 1].machines|
  }

  lemma GroupByAreaPrefix(areas: seq<AreaInfo>, records: seq<MachineRecord>, k: nat)
    requires k <= |areas|
    ensures GroupByArea(areas[..k], records) == GroupByArea(areas, records)[..k]
  {
  }

  lemma TotalMachinesSnoc(areas: seq<AreaInfo>, a: AreaInfo)
    ensures TotalMachines(areas + [a]) == TotalMachines(areas) + |a.machines|
  {
    assert (areas + [a])[..|areas|] == areas;
  }

  /** With distinct ids, a record matching the last area matches no other. */
  lemma LastAreaDisjoint(areas: seq<AreaInfo>, m: MachineRecord)
    requires DistinctIds(areas) && areas != []
    ensures !(InSomeArea(areas[..|areas| - 1], m) && InArea(m, areas[|areas| - 1]))
  {
    var n := |areas| - 1;
    if InSomeArea(areas[..n], m) && InArea(m, areas[n]) {
      InSomeAreaWitness(areas[..n], m);
      var j :| 0 <= j < n && InArea(m, areas[..n][j]);
      DecimalStringInjective(areas[j].id, areas[n].id);
      assert false;
    }
  }

  /** Grouping never duplicates nor fabricates records: with distinct ids the
      bucket sizes add up to the number of records that match some area, so
      never to more than were fetched. */
  lemma {:induction false} GroupedTotal(areas: seq<AreaInfo>, records: seq<MachineRecord>)
    requires DistinctIds(areas)
    ensures TotalMachines(GroupByArea(areas, records)) == |Filter(records, InSomeAreaTest(areas))|
    ensures TotalMachines(GroupByArea(areas, records)) <= |records|
  {
    if areas == [] {
      FilterNone(records, InSomeAreaTest(areas));
    } else {
      var n := |areas| - 1;
      var init, last := areas[..n], areas[n];
      var g := GroupByArea(areas, records);
      GroupByAreaPrefix(areas, records, n);
      assert g == GroupByArea(init, records) + [g[n]];
      TotalMachinesSnoc(GroupByArea(init, records), g[n]);
      assert DistinctIds(init);
      GroupedTotal(init, records);
      forall m ensures !(InSomeAreaTest(init)(m) && InAreaTest(last)(m)) {
        LastAreaDisjoint(areas, m);
      }
      FilterDisjointCount(records, InSomeAreaTest(init), InAreaTest(last), InSomeAreaTest(areas));
    }
  }

  // ---------------------------------------------------------------------
  // Floor totals, floor view and failure badge

  /** The failure flag of the map is `machineFailure === "1"`. */
  predicate Failed(m: MachineRecord)
  {
    m.machineFailure == "1"
  }

  function FailedTest(): MachineRecord -> bool
  {
    (m: MachineRecord) => Failed(m)
  }

  /** `area.machines.filter(m => m.machineFailure === "1").length`. */
  function FailureCount(machines: seq<MachineRecord>): nat
  {
    |Filter(machines, FailedTest())|
  }

  /** Floor banner, machines: the reduce that adds each area's bucket size
      when the area is on `floor`. */
  function FloorMachineCount(areas: seq<AreaInfo>, floor: int): nat
  {
    if areas == [] then 0
    else
      var last := areas[|areas| - 1];
      FloorMachineCount(areas[..|areas| - 1], floor) + (if last.floor == floor then |last.machines| else 0)
  }

  /** Floor banner, failures: the reduce that adds each area's failure count
      when the area is on `floor`. */
  function FloorFailureCount(areas: seq<AreaInfo>, floor: int): nat
  {
    if areas == [] then 0
    else
      var last := areas[|areas| - 1];
      FloorFailureCount(areas[..|areas| - 1], floor) + (if last.floor == floor then FailureCount(last.machines) else 0)
  }

  /** A floor never shows more failures than machines. */
  lemma {:induction false} FloorFailuresAtMostMachines(areas: seq<AreaInfo>, floor: int)
    ensures FloorFailureCount(areas, floor) <= FloorMachineCount(areas, floor)
  {
    if areas != [] {
      FloorFailuresAtMostMachines(areas[..|areas| - 1], floor);
    }
  }

  /** A floor's failure total counts the bucketed records of that floor whose
      `machineFailure` is "1": it is the machine total of a grouping of only
      those records. */
  lemma {:induction false} FloorFailuresAreFailedRecords(areas: seq<AreaInfo>, records: seq<MachineRecord>, floor: int)
    ensures FloorFailureCount(GroupByArea(areas, records), floor)
         == FloorMachineCount(GroupByArea(areas, Filter(records, FailedTest())), floor)
  {
    if areas != [] {
      var n := |areas| - 1;
      var g, gf := GroupByArea(areas, records), GroupByArea(areas, Filter(records, FailedTest()));
      GroupByAreaPrefix(areas, records, n);
      GroupByAreaPrefix(areas, Filter(records, FailedTest()), n);
      FloorFailuresAreFailedRecords(areas[..n], records, floor);
      FilterCommute(records, InAreaTest(areas[n]), FailedTest());
      assert g[..|g| - 1] == GroupByArea(areas[..n], records);
      assert gf[..|gf| - 1] == GroupByArea(areas[..n], Filter(records, FailedTest()));
    }
  }

  function OnFloorTest(floor: int): AreaInfo -> bool
  {
    (a: AreaInfo) => a.floor == floor
  }

  /** The floor view: `mapAreas.filter(area => area.floor === currentFloor)`. */
  function AreasOnFloor(areas: seq<AreaInfo>, floor: int): seq<AreaInfo>
  {
    Filter(areas, OnFloorTest(floor))
  }

  /** The floor banner counts exactly the machines of the areas the floor view
      lists. */
  lemma {:induction false} FloorCountIsFloorView(areas: seq<AreaInfo>, floor: int)
    ensures FloorMachineCount(areas, floor) == TotalMachines(AreasOnFloor(areas, floor))
  {
    if areas != [] {
      var n := |areas| - 1;
      FloorCountIsFloorView(areas[..n], floor);
      FilterLast(areas, OnFloorTest(floor));
      if areas[n].floor == floor {
        TotalMachinesSnoc(AreasOnFloor(areas[..n], floor), areas[n]);
      } else {
        assert AreasOnFloor(areas, floor) == AreasOnFloor(areas[..n], floor);
      }
    }
  }

  /** On a map whose areas are all on floor 1 or 2, the two banners together
      count every bucketed machine once. */
  lemma {:induction false} TwoFloorsCoverAll(areas: seq<AreaInfo>)
    requires forall i :: 0 <= i < |areas| ==> areas[i].floor == 1 || areas[i].floor == 2
    ensures FloorMachineCount(areas, 1) + FloorMachineCount(areas, 2) == TotalMachines(areas)
  {
    if areas != [] {
      TwoFloorsCoverAll(areas[..|areas| - 1]);
    }
  }

  lemma TableFloors()
    ensures forall i :: 0 <= i < |Areas| ==> Areas[i].floor == 1 || Areas[i].floor == 2
  {
  }

  /** The two floor banners of the map together count exactly the fetched
      records that match an area of the table. */
  lemma FloorBannersCountMatchedRecords(records: seq<MachineRecord>)
    ensures FloorMachineCount(GroupByArea(Areas, records), 1) + FloorMachineCount(GroupByArea(Areas, records), 2)
         == |Filter(records, InSomeAreaTest(Areas))|
  {
    var g := GroupByArea(Areas, records);
    TableFloors();
    assert forall i :: 0 <= i < |g| ==> g[i].floor == Areas[i].floor;
    TwoFloorsCoverAll(g);
    TableIdsDistinct();
    GroupedTotal(Areas, records);
  }

  /** The floor view of a longer prefix: one more area, kept when it is on
      the floor. */
  lemma FloorViewStep(areas: seq<AreaInfo>, floor: int, k: nat)
    requires k < |areas|
    ensures AreasOnFloor(areas[..k + 1], floor)
         == AreasOnFloor(areas[..k], floor) + (if areas[k].floor == floor then [areas[k]] else [])
  {
    FilterLast(areas[..k + 1], OnFloorTest(floor));
    assert areas[..k + 1][..k] == areas[..k];
  }

  lemma TableFloorsListed()
    ensures |Areas| == 8
    ensures Areas[0].floor == 1 && Areas[1].floor == 1 && Areas[2].floor == 2 && Areas[3].floor == 2
    ensures Areas[4].floor == 1 && Areas[5].floor == 1 && Areas[6].floor == 1 && Areas[7].floor == 2
  {
  }

  /** Areas laid out on floors 1, 1, 2, 2, 1, 1, 1, 2, as in the table. */
  ghost predicate TableLayout(t: seq<AreaInfo>)
  {
    && |t| == 8
    && t[0].floor == 1 && t[1].floor == 1 && t[2].floor == 2 && t[3].floor == 2
    && t[4].floor == 1 && t[5].floor == 1 && t[6].floor == 1 && t[7].floor == 2
  }

  lemma FirstHalfViews(t: seq<AreaInfo>)
    requires TableLayout(t)
    ensures AreasOnFloor(t[..4], 1) == [t[0], t[1]]
    ensures AreasOnFloor(t[..4], 2) == [t[2], t[3]]
  {
    FloorViewStep(t, 1, 0);
    FloorViewStep(t, 1, 1);
    FloorViewStep(t, 1, 2);
    FloorViewStep(t, 1, 3);
    FloorViewStep(t, 2, 0);
    FloorViewStep(t, 2, 1);
    FloorViewStep(t, 2, 2);
    FloorViewStep(t, 2, 3);
    assert t[..0] == [];
  }

  lemma LayoutFloorOne(t: seq<AreaInfo>)
    requires TableLayout(t)
    ensures AreasOnFloor(t, 1) == [t[0], t[1], t[4], t[5], t[6]]
  {
    FirstHalfViews(t);
    FloorViewStep(t, 1, 4);
    FloorViewStep(t, 1, 5);
    FloorViewStep(t, 1, 6);
    FloorViewStep(t, 1, 7);
    assert t[..8] == t;
  }

  lemma LayoutFloorTwo(t: seq<AreaInfo>)
    requires TableLayout(t)
    ensures AreasOnFloor(t, 2) == [t[2], t[3], t[7]]
  {
    FirstHalfViews(t);
    FloorViewStep(t, 2, 4);
    FloorViewStep(t, 2, 5);
    FloorViewStep(t, 2, 6);
    FloorViewStep(t, 2, 7);
    assert t[..8] == t;
  }

  /** The floor views list the table's areas in table order: areas 1, 2, 5,
      6 and 7 on the first floor, areas 3, 4 and 8 on the second. */
  lemma FloorOneView()
    ensures AreasOnFloor(Areas, 1) == [Areas[0], Areas[1], Areas[4], Areas[5], Areas[6]]
  {
    TableFloorsListed();
    LayoutFloorOne(Areas);
  }

  lemma FloorTwoView()
    ensures AreasOnFloor(Areas, 2) == [Areas[2], Areas[3], Areas[7]]
  {
    TableFloorsListed();
    LayoutFloorTwo(Areas);
  }

  lemma {:induction false} FailureCountPositive(machines: seq<MachineRecord>)
    ensures FailureCount(machines) > 0 <==> exists m :: m in machines && Failed(m)
  {
    var f := Filter(machines, FailedTest());
    if f != [] {
      FilterMembership(machines, FailedTest(), f[0]);
    }
    forall m | m in machines && Failed(m) ensures f != [] {
      FilterMembership(machines, FailedTest(), m);
    }
  }

  /** The area card shows a failure flag iff one of its machines has
      `machineFailure` exactly "1". */
  function ShowsFailureBadge(a: AreaInfo): (shown: bool)
    ensures shown <==> exists m :: m in a.machines && m.machineFailure == "1"
  {
    FailureCountPositive(a.machines);
    FailureCount(a.machines) > 0
  }
}
