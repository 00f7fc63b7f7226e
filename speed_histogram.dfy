/** The "Machine RPM Analysis" card: every fetched row's rotational speed is
    grouped by product id, each product's mean speed is rounded, the means
    are listed from slowest to fastest, and the factory RPM is the rounded
    mean of those means.

    `Number.parseFloat` is the parameter `parse`: `None` stands for NaN, and
    a parsed speed is an exact `real`. */
module SpeedHistogram {
  import opened Seqs
  import opened Machines
  import opened Sorting

  /** `Math.round`: the nearest integer, halves rounded up (towards +∞). */
  function Round(x: real): (r: int)
    ensures r as real - 0.5 <= x < r as real + 0.5
  {
    (x + 0.5).Floor
  }

  /** Halves go up on both sides of zero, unlike rounding half away from zero. */
  lemma RoundHalves()
    ensures Round(2.5) == 3 && Round(-2.5) == -2 && Round(2.49) == 2
  {
  }

  // ---------------------------------------------------------------------
  // Which rows count

  /** A row is used when it has a product id and a speed text that parses;
      every other row is skipped. */
  predicate Kept(parse: string -> Option<real>, r: MachineRecord)
  {
    r.productId != "" && r.rotationalSpeed != "" && parse(r.rotationalSpeed).Some?
  }

  function KeptWithId(parse: string -> Option<real>, id: string): MachineRecord -> bool
  {
    r => Kept(parse, r) && r.productId == id
  }

  /** The parsed speed of a used row. */
  function Speed(parse: string -> Option<real>, r: MachineRecord): real
  {
    match parse(r.rotationalSpeed)
    case Some(v) => v
    case None => 0.0
  }

  /** The product ids of the used rows, each once, in the order they first
      occur: the key order of the `machineGroups` Map. */
  function MachineIds(rows: seq<MachineRecord>, parse: string -> Option<real>): seq<string>
  {
    Distinct(Map(Filter(rows, r => Kept(parse, r)), (r: MachineRecord) => r.productId))
  }

  /** The number of used rows of product `id`. */
  function RowCount(rows: seq<MachineRecord>, parse: string -> Option<real>, id: string): nat
  {
    if rows == [] then 0
    else RowCount(rows[..|rows| - 1], parse, id) + (if KeptWithId(parse, id)(rows[|rows| - 1]) then 1 else 0)
  }

  /** The sum of the speeds of the used rows of product `id`. */
  function SpeedTotal(rows: seq<MachineRecord>, parse: string -> Option<real>, id: string): real
  {
    if rows == [] then 0.0
    else
      var last := rows[|rows| - 1];
      SpeedTotal(rows[..|rows| - 1], parse, id) + (if KeptWithId(parse, id)(last) then Speed(parse, last) else 0.0)
  }

  /** Adding one row to the end changes the count and total of its own
      product only, and only if the row is used. */
  lemma TotalsSnoc(rows: seq<MachineRecord>, r: MachineRecord, parse: string -> Option<real>, id: string)
    ensures RowCount(rows + [r], parse, id) == RowCount(rows, parse, id) + (if KeptWithId(parse, id)(r) then 1 else 0)
    ensures SpeedTotal(rows + [r], parse, id) == SpeedTotal(rows, parse, id) + (if KeptWithId(parse, id)(r) then Speed(parse, r) else 0.0)
  {
    assert (rows + [r])[..|rows|] == rows;
  }

  /** Adding one row to the end adds its id to the list when the row is used
      and the id is new, and otherwise leaves the list alone. */
  lemma IdsSnoc(rows: seq<MachineRecord>, r: MachineRecord, parse: string -> Option<real>)
    ensures MachineIds(rows + [r], parse)
         == if Kept(parse, r) && r.productId !in MachineIds(rows, parse)
            then MachineIds(rows, parse) + [r.productId] else MachineIds(rows, parse)
  {
    var keep := (x: MachineRecord) => Kept(parse, x);
    var id := (x: MachineRecord) => x.productId;
    FilterSnoc(rows, r, keep);
    var kept := Filter(rows, keep);
    if Kept(parse, r) {
      MapAppend(kept, [r], id);
      var ids := Map(kept, id);
      assert (ids + [r.productId])[..|ids|] == ids;
    } else {
      assert kept + [] == kept;
    }
  }

  /** The count is the number of used rows with that id. */
  lemma {:induction false} RowCountIsFilter(rows: seq<MachineRecord>, parse: string -> Option<real>, id: string)
    ensures RowCount(rows, parse, id) == |Filter(rows, KeptWithId(parse, id))|
  {
    if rows != [] {
      var init, last := rows[..|rows| - 1], rows[|rows| - 1];
      RowCountIsFilter(init, parse, id);
      assert rows == init + [last];
      FilterSnoc(init, last, KeptWithId(parse, id));
    }
  }

  /** An id is listed exactly when at least one used row carries it, so every
      group counts at least one row. */
  lemma {:induction false} IdsHaveRows(rows: seq<MachineRecord>, parse: string -> Option<real>, id: string)
    ensures id in MachineIds(rows, parse) <==> RowCount(rows, parse, id) >= 1
  {
    if rows != [] {
      var init, last := rows[..|rows| - 1], rows[|rows| - 1];
      IdsHaveRows(init, parse, id);
      assert rows == init + [last];
      IdsSnoc(init, last, parse);
      TotalsSnoc(init, last, parse, id);
    }
  }

  // ---------------------------------------------------------------------
  // The Map accumulator

  /** A product's entry in `machineGroups`. */
  datatype Group = Group(total: real, count: nat)

  /** A group with one more row of speed `speed`. */
  function AddTo(g: Group, speed: real): Group
  {
    Group(g.total + speed, g.count + 1)
  }

  /** Product `id`'s total and count over the rows `seen`. */
  function GroupOf(seen: seq<MachineRecord>, parse: string -> Option<real>, id: string): Group
  {
    Group(SpeedTotal(seen, parse, id), RowCount(seen, parse, id))
  }

  /** Every group of `groups` holds its product's total and count. */
  ghost predicate GroupsMatch(groups: map<string, Group>, seen: seq<MachineRecord>, parse: string -> Option<real>)
  {
    forall id :: id in groups ==> groups[id] == GroupOf(seen, parse, id)
  }

  /** `groups` and its key order `order` summarise `seen`: the keys are the
      ids of the used rows, in first-seen order, each with the total and
      count of its rows. */
  ghost predicate Summarises(groups: map<string, Group>, order: seq<string>, seen: seq<MachineRecord>, parse: string -> Option<real>)
  {
    && order == MachineIds(seen, parse)
    && (forall id :: id in groups <==> id in order)
    && GroupsMatch(groups, seen, parse)
  }

  /** Adding a row to the end changes the group of the row's product, by
      that row alone, when the row is used, and no other group. */
  lemma GroupOfSnoc(seen: seq<MachineRecord>, r: MachineRecord, parse: string -> Option<real>, id: string)
    ensures GroupOf(seen + [r], parse, id)
         == if KeptWithId(parse, id)(r)
            then Group(GroupOf(seen, parse, id).total + Speed(parse, r), GroupOf(seen, parse, id).count + 1)
            else GroupOf(seen, parse, id)
  {
    TotalsSnoc(seen, r, parse, id);
  }

  /** A product without used rows has a zero total. */
  lemma {:induction false} NoRowsNoTotal(rows: seq<MachineRecord>, parse: string -> Option<real>, id: string)
    requires RowCount(rows, parse, id) == 0
    ensures SpeedTotal(rows, parse, id) == 0.0
  {
    if rows != [] {
      NoRowsNoTotal(rows[..|rows| - 1], parse, id);
    }
  }

  /** The first used row of a product makes a group of that row alone. */
  lemma FirstRowOfProduct(seen: seq<MachineRecord>, r: MachineRecord, parse: string -> Option<real>)
    requires Kept(parse, r) && r.productId !in MachineIds(seen, parse)
    ensures GroupOf(seen + [r], parse, r.productId) == Group(Speed(parse, r), 1)
  {
    IdsHaveRows(seen, parse, r.productId);
    NoRowsNoTotal(seen, parse, r.productId);
    TotalsSnoc(seen, r, parse, r.productId);
  }

  /** A skipped row changes no group. */
  lemma SkipKeepsGroups(groups: map<string, Group>, seen: seq<MachineRecord>, r: MachineRecord, parse: string -> Option<real>)
    requires GroupsMatch(groups, seen, parse) && !Kept(parse, r)
    ensures GroupsMatch(groups, seen + [r], parse)
  {
    forall id | id in groups ensures groups[id] == GroupOf(seen + [r], parse, id) {
      GroupOfSnoc(seen, r, parse, id);
    }
  }

  /** The first used row of a product adds its group and changes no other. */
  lemma NewKeepsGroups(groups: map<string, Group>, seen: seq<MachineRecord>, r: MachineRecord, parse: string -> Option<real>)
    requires GroupsMatch(groups, seen, parse) && Kept(parse, r) && r.productId !in MachineIds(seen, parse)
    ensures GroupsMatch(groups[r.productId := Group(Speed(parse, r), 1)], seen + [r], parse)
  {
    var g := groups[r.productId := Group(Speed(parse, r), 1)];
    forall id | id in g ensures g[id] == GroupOf(seen + [r], parse, id) {
      if id == r.productId {
        FirstRowOfProduct(seen, r, parse);
      } else {
        GroupOfSnoc(seen, r, parse, id);
      }
    }
  }

  /** A further used row of a product adds to its group and to no other. */
  lemma ExistingKeepsGroups(groups: map<string, Group>, seen: seq<MachineRecord>, r: MachineRecord, parse: string -> Option<real>)
    requires GroupsMatch(groups, seen, parse) && Kept(parse, r) && r.productId in groups
    ensures GroupsMatch(groups[r.productId := AddTo(groups[r.productId], Speed(parse, r))],
                        seen + [r], parse)
  {
    var g := groups[r.productId := AddTo(groups[r.productId], Speed(parse, r))];
    forall id | id in g ensures g[id] == GroupOf(seen + [r], parse, id) {
      GroupOfSnoc(seen, r, parse, id);
    }
  }

  /** A skipped row leaves the summary as it is. */
  lemma SkipKeepsSummary(groups: map<string, Group>, order: seq<string>, seen: seq<MachineRecord>, r: MachineRecord, parse: string -> Option<real>)
    requires Summarises(groups, order, seen, parse) && !Kept(parse, r)
    ensures Summarises(groups, order, seen + [r], parse)
  {
    IdsSnoc(seen, r, parse);
    SkipKeepsGroups(groups, seen, r, parse);
  }

  /** A used row of a new product opens its group with one row. */
  lemma NewKeepsSummary(groups: map<string, Group>, order: seq<string>, seen: seq<MachineRecord>, r: MachineRecord, parse: string -> Option<real>)
    requires Summarises(groups, order, seen, parse) && Kept(parse, r) && r.productId !in groups
    ensures Summarises(groups[r.productId := Group(Speed(parse, r), 1)], order + [r.productId], seen + [r], parse)
  {
    IdsSnoc(seen, r, parse);
    NewKeepsGroups(groups, seen, r, parse);
  }

  /** A used row of a known product adds to that product's group only. */
  lemma ExistingKeepsSummary(groups: map<string, Group>, order: seq<string>, seen: seq<MachineRecord>, r: MachineRecord, parse: string -> Option<real>)
    requires Summarises(groups, order, seen, parse) && Kept(parse, r) && r.productId in groups
    ensures Summarises(groups[r.productId := AddTo(groups[r.productId], Speed(parse, r))],
                       order, seen + [r], parse)
  {
    IdsSnoc(seen, r, parse);
    ExistingKeepsGroups(groups, seen, r, parse);
  }

  /** One `forEach` step: skip the row (no id, no speed, or a speed that
      parses to NaN), start its product's group at `{ total: speed, count: 1 }`,
      or add its speed to the existing group. */
  function Step(groups: map<string, Group>, order: seq<string>, r: MachineRecord, parse: string -> Option<real>): (map<string, Group>, seq<string>)
  {
    if !Kept(parse, r) then (groups, order)
    else if r.productId !in groups then (groups[r.productId := Group(Speed(parse, r), 1)], order + [r.productId])
    else (groups[r.productId := AddTo(groups[r.productId], Speed(parse, r))], order)
  }

  /** A step over a skipped row keeps the summary. */
  lemma SkipStep(groups: map<string, Group>, order: seq<string>, seen: seq<MachineRecord>, r: MachineRecord, parse: string -> Option<real>)
    requires Summarises(groups, order, seen, parse) && !Kept(parse, r)
    ensures Summarises(Step(groups, order, r, parse).0, Step(groups, order, r, parse).1, seen + [r], parse)
  {
    SkipKeepsSummary(groups, order, seen, r, parse);
  }

  /** A step over the first used row of a product keeps the summary. */
  lemma NewStep(groups: map<string, Group>, order: seq<string>, seen: seq<MachineRecord>, r: MachineRecord, parse: string -> Option<real>)
    requires Summarises(groups, order, seen, parse) && Kept(parse, r) && r.productId !in groups
    ensures Summarises(Step(groups, order, r, parse).0, Step(groups, order, r, parse).1, seen + [r], parse)
  {
    NewKeepsSummary(groups, order, seen, r, parse);
  }

  /** A step over a further used row of a product keeps the summary. */
  lemma ExistingStep(groups: map<string, Group>, order: seq<string>, seen: seq<MachineRecord>, r: MachineRecord, parse: string -> Option<real>)
    requires Summarises(groups, order, seen, parse) && Kept(parse, r) && r.productId in groups
    ensures Summarises(Step(groups, order, r, parse).0, Step(groups, order, r, parse).1, seen + [r], parse)
  {
    ExistingKeepsSummary(groups, order, seen, r, parse);
  }

  /** Every step keeps the groups a summary of the rows seen so far. */
  lemma StepKeepsSummary(groups: map<string, Group>, order: seq<string>, seen: seq<MachineRecord>, r: MachineRecord, parse: string -> Option<real>)
    requires Summarises(groups, order, seen, parse)
    ensures Summarises(Step(groups, order, r, parse).0, Step(groups, order, r, parse).1, seen + [r], parse)
  {
    if !Kept(parse, r) {
      SkipStep(groups, order, seen, r, parse);
    } else if r.productId !in groups {
      NewStep(groups, order, seen, r, parse);
    } else {
      ExistingStep(groups, order, seen, r, parse);
    }
  }

  /** The body of the `forEach`, updating the Map and its key order. */
  method AddRow(groups: map<string, Group>, order: seq<string>, r: MachineRecord, parse: string -> Option<real>)
    returns (groups': map<string, Group>, order': seq<string>)
    ensures (groups', order') == Step(groups, order, r, parse)
  {
    groups', order' := groups, order;
    if r.productId == "" || r.rotationalSpeed == "" {
      return;
    }
    if parse(r.rotationalSpeed).None? {
      return;
    }
    var speed := Speed(parse, r);
    if r.productId !in groups {
      groups' := groups[r.productId := Group(speed, 1)];
      order' := order + [r.productId];
    } else {
      groups' := groups[r.productId := AddTo(groups[r.productId], speed)];
    }
  }

  /** `machineGroups` after the `forEach` over `rows`, with its key order. */
  method AccumulateGroups(rows: seq<MachineRecord>, parse: string -> Option<real>)
    returns (groups: map<string, Group>, order: seq<string>)
    ensures Summarises(groups, order, rows, parse)
  {
    groups, order := map[], [];
    var i := 0;
    while i < |rows|
      invariant 0 <= i <= |rows|
      invariant Summarises(groups, order, rows[..i], parse)
    {
      StepKeepsSummary(groups, order, rows[..i], rows[i], parse);
      groups, order := AddRow(groups, order, rows[i], parse);
      TakeSnoc(rows, i);
      i := i + 1;
    }
    assert rows[..|rows|] == rows;
  }

  // ---------------------------------------------------------------------
  // Averages

  datatype MachineAverage = MachineAverage(machine: string, avgSpeed: int)

  /** `Math.round(total / count)` for product `id`. */
  function AverageOf(rows: seq<MachineRecord>, parse: string -> Option<real>, id: string): int
  {
    if RowCount(rows, parse, id) == 0 then 0
    else Round(SpeedTotal(rows, parse, id) / RowCount(rows, parse, id) as real)
  }

  function AverageEntry(rows: seq<MachineRecord>, parse: string -> Option<real>): string -> MachineAverage
  {
    id => MachineAverage(id, AverageOf(rows, parse, id))
  }

  function AvgKey(): MachineAverage -> int
  {
    (a: MachineAverage) => a.avgSpeed
  }

  /** The averages in Map order, before sorting. */
  function UnsortedAverages(rows: seq<MachineRecord>, parse: string -> Option<real>): seq<MachineAverage>
  {
    Map(MachineIds(rows, parse), AverageEntry(rows, parse))
  }

  /** `machineAverages`: the per-product averages, slowest first. */
  function MachineAverages(rows: seq<MachineRecord>, parse: string -> Option<real>): seq<MachineAverage>
  {
    SortBy(UnsortedAverages(rows, parse), AvgKey())
  }

  /** `Math.round(data.total / data.count)`. */
  function GroupMean(g: Group): int
    requires g.count > 0
  {
    Round(g.total / g.count as real)
  }

  /** The group of every listed product has at least one row, and its
      rounded mean is that product's average. */
  lemma GroupsGiveAverages(groups: map<string, Group>, order: seq<string>, rows: seq<MachineRecord>, parse: string -> Option<real>)
    requires Summarises(groups, order, rows, parse)
    ensures forall id :: id in order ==>
      id in groups && groups[id].count > 0 && MachineAverage(id, GroupMean(groups[id])) == AverageEntry(rows, parse)(id)
  {
    forall id | id in order
      ensures id in groups && groups[id].count > 0 && MachineAverage(id, GroupMean(groups[id])) == AverageEntry(rows, parse)(id)
    {
      IdsHaveRows(rows, parse, id);
    }
  }

  /** Mapping a prefix one longer. */
  lemma MapTakeSnoc<T, U>(s: seq<T>, j: nat, f: T -> U)
    requires j < |s|
    ensures Map(s[..j + 1], f) == Map(s[..j], f) + [f(s[j])]
  {
    TakeSnoc(s, j);
    MapAppend(s[..j], [s[j]], f);
  }

  /** The `map` step: each group, in key order, becomes its product id and
      rounded mean, which `entry` states for every listed id. */
  method AveragesInKeyOrder(groups: map<string, Group>, order: seq<string>, ghost entry: string -> MachineAverage)
    returns (unsorted: seq<MachineAverage>)
    requires forall id :: id in order ==>
      id in groups && groups[id].count > 0 && MachineAverage(id, GroupMean(groups[id])) == entry(id)
    ensures unsorted == Map(order, entry)
  {
    unsorted := [];
    var j := 0;
    while j < |order|
      invariant 0 <= j <= |order|
      invariant unsorted == Map(order[..j], entry)
    {
      MapTakeSnoc(order, j, entry);
      unsorted := unsorted + [MachineAverage(order[j], GroupMean(groups[order[j]]))];
      j := j + 1;
    }
    assert order[..|order|] == order;
  }

  /** `calculateMachineAverages`: accumulate the groups, turn each into its
      rounded mean in key order, and sort by the mean. */
  method CalculateMachineAverages(rows: seq<MachineRecord>, parse: string -> Option<real>)
    returns (averages: seq<MachineAverage>)
    ensures averages == MachineAverages(rows, parse)
  {
    var groups, order := AccumulateGroups(rows, parse);
    GroupsGiveAverages(groups, order, rows, parse);
    var unsorted := AveragesInKeyOrder(groups, order, AverageEntry(rows, parse));
    averages := SortBy(unsorted, AvgKey());
  }

  /** A sequence with the same value at two places holds it at least twice. */
  lemma TwiceCounted<T>(s: seq<T>, i: nat, j: nat)
    requires i < j < |s| && s[i] == s[j]
    ensures multiset(s)[s[i]] >= 2
  {
    assert s == s[..j] + [s[j]] + s[j + 1..];
    assert s[i] in multiset(s[..j]);
  }

  /** A sequence without repeats holds each value at most once. */
  lemma {:induction false} DistinctCountedOnce<T>(s: seq<T>, x: T)
    requires forall i, j :: 0 <= i < j < |s| ==> s[i] != s[j]
    ensures multiset(s)[x] <= 1
  {
    if s != [] {
      DistinctCountedOnce(s[1..], x);
      assert s == [s[0]] + s[1..];
      if s[0] == x {
        assert x !in s[1..];
      }
    }
  }

  /** The unsorted averages list each used product once. */
  lemma UnsortedDistinct(rows: seq<MachineRecord>, parse: string -> Option<real>, a: MachineAverage)
    ensures multiset(UnsortedAverages(rows, parse))[a] <= 1
  {
    var u := UnsortedAverages(rows, parse);
    var ids := MachineIds(rows, parse);
    forall i, j | 0 <= i < j < |u| ensures u[i] != u[j] {
      assert u[i].machine == ids[i] && u[j].machine == ids[j];
    }
    DistinctCountedOnce(u, a);
  }

  /** The result lists every used product exactly once, with the rounded mean
      of its rows, sorted ascending by that mean, and nothing else. */
  lemma AveragesSpec(rows: seq<MachineRecord>, parse: string -> Option<real>)
    ensures var avgs := MachineAverages(rows, parse);
      && SortedBy(avgs, AvgKey())
      && |avgs| == |MachineIds(rows, parse)|
      && (forall a :: a in avgs <==> a.machine in MachineIds(rows, parse) && a.avgSpeed == AverageOf(rows, parse, a.machine))
      && (forall i, j :: 0 <= i < j < |avgs| ==> avgs[i].machine != avgs[j].machine)
  {
    var avgs := MachineAverages(rows, parse);
    var u := UnsortedAverages(rows, parse);
    var ids := MachineIds(rows, parse);
    assert multiset(avgs) == multiset(u);
    forall a ensures a in avgs <==> a.machine in ids && a.avgSpeed == AverageOf(rows, parse, a.machine) {
      assert a in avgs <==> a in multiset(u);
      if a.machine in ids && a.avgSpeed == AverageOf(rows, parse, a.machine) {
        var k :| 0 <= k < |ids| && ids[k] == a.machine;
        assert u[k] == a;
      }
    }
    forall i, j | 0 <= i < j < |avgs| ensures avgs[i].machine != avgs[j].machine {
      if avgs[i].machine == avgs[j].machine {
        assert avgs[i] in avgs && avgs[j] in avgs;
        assert avgs[i] == avgs[j];
        TwiceCounted(avgs, i, j);
        UnsortedDistinct(rows, parse, avgs[i]);
      }
    }
  }

  /** A skipped row changes no product's average. */
  lemma AverageUnchanged(rows: seq<MachineRecord>, r: MachineRecord, parse: string -> Option<real>, id: string)
    requires !Kept(parse, r)
    ensures AverageOf(rows + [r], parse, id) == AverageOf(rows, parse, id)
  {
    TotalsSnoc(rows, r, parse, id);
  }

  lemma UnsortedUnchanged(rows: seq<MachineRecord>, r: MachineRecord, parse: string -> Option<real>)
    requires !Kept(parse, r)
    ensures UnsortedAverages(rows + [r], parse) == UnsortedAverages(rows, parse)
  {
    IdsSnoc(rows, r, parse);
    var ids := MachineIds(rows, parse);
    var u, u' := UnsortedAverages(rows, parse), UnsortedAverages(rows + [r], parse);
    forall i | 0 <= i < |u| ensures u'[i] == u[i] {
      AverageUnchanged(rows, r, parse, ids[i]);
    }
  }

  /** A row without a product id, without a speed, or whose speed does not
      parse changes nothing. */
  lemma SkippedRowIgnored(rows: seq<MachineRecord>, r: MachineRecord, parse: string -> Option<real>)
    requires !Kept(parse, r)
    ensures MachineAverages(rows + [r], parse) == MachineAverages(rows, parse)
  {
    UnsortedUnchanged(rows, r, parse);
  }

  // ---------------------------------------------------------------------
  // Factory RPM and the stats line

  function SumAverages(avgs: seq<MachineAverage>): int
  {
    if avgs == [] then 0 else SumAverages(avgs[..|avgs| - 1]) + avgs[|avgs| - 1].avgSpeed
  }

  /** `getAverageFactoryRPM`: 0 with no machines, else the rounded mean of the
      machines' averages (not of the rows). */
  function FactoryRpm(avgs: seq<MachineAverage>): int
  {
    if |avgs| == 0 then 0 else Round(SumAverages(avgs) as real / |avgs| as real)
  }

  /** One more term between the bounds keeps the sum between the bounds
      times the number of terms. */
  lemma StepBounds(sum: int, n: nat, x: int, lo: int, hi: int)
    requires lo * n <= sum <= hi * n && lo <= x <= hi
    ensures lo * (n + 1) <= sum + x <= hi * (n + 1)
  {
    assert lo * (n + 1) == lo * n + lo;
    assert hi * (n + 1) == hi * n + hi;
  }

  lemma {:induction false} SumBounds(avgs: seq<MachineAverage>, lo: int, hi: int)
    requires forall a :: a in avgs ==> lo <= a.avgSpeed <= hi
    ensures lo * |avgs| <= SumAverages(avgs) <= hi * |avgs|
  {
    if avgs != [] {
      var init, last := avgs[..|avgs| - 1], avgs[|avgs| - 1];
      assert forall a :: a in init ==> a in avgs;
      SumBounds(init, lo, hi);
      assert last in avgs;
      StepBounds(SumAverages(init), |init|, last.avgSpeed, lo, hi);
    }
  }

  /** The exact mean of `n` integers summing to `sum` lies between their
      bounds. */
  lemma MeanBetween(sum: int, n: nat, lo: int, hi: int)
    requires n > 0 && lo * n <= sum <= hi * n
    ensures lo as real <= sum as real / n as real <= hi as real
  {
    var nr := n as real;
    assert (lo * n) as real == lo as real * nr && (hi * n) as real == hi as real * nr;
    QuotientBounds(sum as real, nr, lo as real, hi as real);
  }

  lemma QuotientBounds(x: real, d: real, lo: real, hi: real)
    requires d > 0.0 && lo * d <= x <= hi * d
    ensures lo <= x / d <= hi
  {
    assert x / d - lo == (x - lo * d) / d;
    assert hi - x / d == (hi * d - x) / d;
  }

  /** The rounded mean of `n` integers that lie between `lo` and `hi`. */
  lemma RoundedMeanBetween(sum: int, n: nat, lo: int, hi: int)
    requires n > 0 && lo * n <= sum <= hi * n
    ensures lo <= Round(sum as real / n as real) <= hi
  {
    MeanBetween(sum, n, lo, hi);
  }

  /** The factory RPM lies between the slowest and the fastest machine. */
  lemma FactoryRpmBetween(avgs: seq<MachineAverage>, lo: int, hi: int)
    requires avgs != []
    requires forall a :: a in avgs ==> lo <= a.avgSpeed <= hi
    ensures lo <= FactoryRpm(avgs) <= hi
  {
    SumBounds(avgs, lo, hi);
    RoundedMeanBetween(SumAverages(avgs), |avgs|, lo, hi);
  }

  /** Two machines averaging 1000 and 2000 rpm give a factory RPM of 1500. */
  lemma TwoMachineRpm()
    ensures FactoryRpm([MachineAverage("A", 1000), MachineAverage("B", 2000)]) == 1500
  {
    var avgs := [MachineAverage("A", 1000), MachineAverage("B", 2000)];
    assert avgs[..1] == [avgs[0]] && [avgs[0]][..0] == [];
    assert SumAverages(avgs) == 3000;
  }

  /** "Total Records", "Total Machines" and "Average Factory RPM". */
  datatype Stats = Stats(totalRecords: nat, totalMachines: nat, factoryRpm: int)

  function StatsOf(rows: seq<MachineRecord>, parse: string -> Option<real>): (s: Stats)
    ensures s.totalMachines <= s.totalRecords
    ensures s.totalMachines == |MachineIds(rows, parse)|
  {
    var avgs := MachineAverages(rows, parse);
    AveragesSpec(rows, parse);
    Stats(|rows|, |avgs|, FactoryRpm(avgs))
  }

  /** Every fetched row is a record, skipped or not: a skipped row adds to
      "Total Records" but not to "Total Machines". */
  lemma SkippedRowCountsAsRecord(rows: seq<MachineRecord>, r: MachineRecord, parse: string -> Option<real>)
    requires !Kept(parse, r)
    ensures StatsOf(rows + [r], parse).totalRecords == StatsOf(rows, parse).totalRecords + 1
    ensures StatsOf(rows + [r], parse).totalMachines == StatsOf(rows, parse).totalMachines
  {
    SkippedRowIgnored(rows, r, parse);
  }

  // ---------------------------------------------------------------------
  // An average of averages

  /** A row carrying only a product id and a speed text. */
  function ExampleRow(id: string, speed: string): MachineRecord
  {
    MachineRecord(id, "", "", "", speed, "", "", "", None, "", "", "", "", "", "", "")
  }

  /** Three rows of product "A" at 1000 rpm, then one of "B" at 2000 rpm. */
  predicate ExampleRows(rows: seq<MachineRecord>)
  {
    |rows| == 4 && rows[0] == rows[1] == rows[2] == ExampleRow("A", "1000") && rows[3] == ExampleRow("B", "2000")
  }

  /** A parser that reads the two example speeds. */
  predicate ParsesExample(parse: string -> Option<real>)
  {
    parse("1000") == Some(1000.0) && parse("2000") == Some(2000.0)
  }

  /** A used row extends a known id list by its id when that id is new. */
  lemma IdsSnocKnown(rows: seq<MachineRecord>, r: MachineRecord, parse: string -> Option<real>, ids: seq<string>)
    requires MachineIds(rows, parse) == ids && Kept(parse, r)
    ensures MachineIds(rows + [r], parse) == if r.productId in ids then ids else ids + [r.productId]
  {
    IdsSnoc(rows, r, parse);
  }

  /** One more used row of a product already listed leaves the ids alone. */
  lemma IdsRepeat(rows: seq<MachineRecord>, k: nat, parse: string -> Option<real>, ids: seq<string>)
    requires k < |rows| && MachineIds(rows[..k], parse) == ids
    requires Kept(parse, rows[k]) && rows[k].productId in ids
    ensures MachineIds(rows[..k + 1], parse) == ids
  {
    TakeSnoc(rows, k);
    IdsSnocKnown(rows[..k], rows[k], parse, ids);
  }

  /** One more used row of a new product appends its id. */
  lemma IdsFresh(rows: seq<MachineRecord>, k: nat, parse: string -> Option<real>, ids: seq<string>)
    requires k < |rows| && MachineIds(rows[..k], parse) == ids
    requires Kept(parse, rows[k]) && rows[k].productId !in ids
    ensures MachineIds(rows[..k + 1], parse) == ids + [rows[k].productId]
  {
    TakeSnoc(rows, k);
    IdsSnocKnown(rows[..k], rows[k], parse, ids);
  }

  /** Three used rows of one product, then one of another: two ids, in
      that order. */
  lemma ThreeThenOneIds(rows: seq<MachineRecord>, a: MachineRecord, b: MachineRecord, parse: string -> Option<real>)
    requires |rows| == 4 && rows[0] == rows[1] == rows[2] == a && rows[3] == b
    requires Kept(parse, a) && Kept(parse, b) && a.productId != b.productId
    ensures MachineIds(rows, parse) == [a.productId, b.productId]
  {
    var x := [a.productId];
    assert rows[..0] == [];
    IdsFresh(rows, 0, parse, []);
    IdsRepeat(rows, 1, parse, x);
    IdsRepeat(rows, 2, parse, x);
    IdsFresh(rows, 3, parse, x);
    assert rows[..4] == rows;
  }

  /** One more row adds to the count and the total of its product only. */
  lemma TotalsStep(rows: seq<MachineRecord>, k: nat, parse: string -> Option<real>, id: string)
    requires k < |rows|
    ensures RowCount(rows[..k + 1], parse, id)
         == RowCount(rows[..k], parse, id) + (if KeptWithId(parse, id)(rows[k]) then 1 else 0)
    ensures SpeedTotal(rows[..k + 1], parse, id)
         == SpeedTotal(rows[..k], parse, id) + (if KeptWithId(parse, id)(rows[k]) then Speed(parse, rows[k]) else 0.0)
  {
    TakeSnoc(rows, k);
    TotalsSnoc(rows[..k], rows[k], parse, id);
  }

  /** The counts and totals of those four rows. */
  lemma ThreeThenOneTotals(rows: seq<MachineRecord>, a: MachineRecord, b: MachineRecord, parse: string -> Option<real>, id: string)
    requires |rows| == 4 && rows[0] == rows[1] == rows[2] == a && rows[3] == b
    requires Kept(parse, a) && Kept(parse, b) && a.productId != b.productId
    ensures RowCount(rows, parse, id)
         == (if id == a.productId then 3 else 0) + (if id == b.productId then 1 else 0)
    ensures SpeedTotal(rows, parse, id)
         == (if id == a.productId then 3.0 * Speed(parse, a) else 0.0) + (if id == b.productId then Speed(parse, b) else 0.0)
  {
    assert rows[..0] == [];
    TotalsStep(rows, 0, parse, id);
    TotalsStep(rows, 1, parse, id);
    TotalsStep(rows, 2, parse, id);
    TotalsStep(rows, 3, parse, id);
    assert rows[..4] == rows;
  }

  lemma ExampleIds(rows: seq<MachineRecord>, parse: string -> Option<real>)
    requires ExampleRows(rows) && ParsesExample(parse)
    ensures MachineIds(rows, parse) == ["A", "B"]
  {
    ThreeThenOneIds(rows, rows[0], rows[3], parse);
  }

  lemma ExampleTotals(rows: seq<MachineRecord>, parse: string -> Option<real>, id: string)
    requires ExampleRows(rows) && ParsesExample(parse)
    ensures RowCount(rows, parse, id) == (if id == "A" then 3 else if id == "B" then 1 else 0)
    ensures SpeedTotal(rows, parse, id) == (if id == "A" then 3000.0 else if id == "B" then 2000.0 else 0.0)
  {
    ThreeThenOneTotals(rows, rows[0], rows[3], parse, id);
  }

  /** The example rows average 1000 rpm for "A" and 2000 rpm for "B". */
  lemma ExampleAverages(rows: seq<MachineRecord>, parse: string -> Option<real>)
    requires ExampleRows(rows) && ParsesExample(parse)
    ensures MachineAverages(rows, parse) == [MachineAverage("A", 1000), MachineAverage("B", 2000)]
  {
    var u := [MachineAverage("A", 1000), MachineAverage("B", 2000)];
    ExampleIds(rows, parse);
    ExampleTotals(rows, parse, "A");
    ExampleTotals(rows, parse, "B");
    assert AverageOf(rows, parse, "A") == 1000;
    assert AverageOf(rows, parse, "B") == 2000;
    var ids := ["A", "B"];
    assert ids[1..] == ["B"] && ids[1..][1..] == [];
    assert UnsortedAverages(rows, parse) == u;
    SortByStrict(u, u, AvgKey());
  }

  /** The factory RPM of the example rows is 1500. */
  lemma ExampleFactoryRpm(rows: seq<MachineRecord>, parse: string -> Option<real>)
    requires ExampleRows(rows) && ParsesExample(parse)
    ensures StatsOf(rows, parse).factoryRpm == 1500
  {
    ExampleAverages(rows, parse);
    TwoMachineRpm();
  }

  /** The mean speed over the four example rows is 1250. */
  lemma ExampleRowMean(rows: seq<MachineRecord>, parse: string -> Option<real>)
    requires ExampleRows(rows) && ParsesExample(parse)
    ensures Round((SpeedTotal(rows, parse, "A") + SpeedTotal(rows, parse, "B"))
                  / (RowCount(rows, parse, "A") + RowCount(rows, parse, "B")) as real) == 1250
  {
    ExampleTotals(rows, parse, "A");
    ExampleTotals(rows, parse, "B");
    assert (3000.0 + 2000.0) / (3 + 1) as real == 1250.0;
  }

  /** The factory RPM averages the machines, not the rows: the example rows
      give 1500, while the mean of their four speeds is 1250. */
  lemma AverageOfAverages(rows: seq<MachineRecord>, parse: string -> Option<real>)
    requires ExampleRows(rows) && ParsesExample(parse)
    ensures MachineIds(rows, parse) == ["A", "B"]
    ensures StatsOf(rows, parse).factoryRpm == 1500
    ensures Round((SpeedTotal(rows, parse, "A") + SpeedTotal(rows, parse, "B"))
                  / (RowCount(rows, parse, "A") + RowCount(rows, parse, "B")) as real) == 1250
  {
    ExampleIds(rows, parse);
    ExampleFactoryRpm(rows, parse);
    ExampleRowMean(rows, parse);
  }

  // ---------------------------------------------------------------------
  // Bar chart

  /** `item.machine.slice(-5)`: the last five characters of the id. */
  function ChartLabel(machine: string): (l: string)
    ensures |l| == Min(5, |machine|)
    ensures l == machine[|machine| - |l|..]
  {
    Slice(machine, -5, |machine|)
  }

  /** The bar heights; an empty chart gets a single 0 bar. */
  function ChartValues(avgs: seq<MachineAverage>): (v: seq<int>)
    ensures avgs == [] ==> v == [0]
    ensures avgs != [] ==> |v| == |avgs| && forall i :: 0 <= i < |avgs| ==> v[i] == avgs[i].avgSpeed
  {
    if |avgs| > 0 then Map(avgs, AvgKey()) else [0]
  }
}
