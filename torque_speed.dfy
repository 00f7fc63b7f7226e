/** The "Torque vs Rotational Speed" bar chart: a fixed table from speed
    ranges such as "501-1000" to a mean torque, listed by the number at the
    start of each range, then split into the chart's labels and bar values. */
module TorqueSpeed {
  import opened Seqs
  import opened Sorting
  import opened Decimals

  /** The table's entries in the order its keys are written, which is the
      order `Object.entries` lists them. The torques are payload here. */
  const Data: seq<(string, real)> := [
    ("2501-3000", 10.575),
    ("0-500", 0.0),
    ("501-1000", 0.0),
    ("2001-2500", 17.496907216494847),
    ("1501-2000", 33.48613575407468),
    ("1001-1500", 47.45964271213967)
  ]

  /** `a[0].split("-")[0]` for an entry `a`: the text of its label before the first "-", or all of it. */
  function BeforeDash(name: string): (r: string)
    ensures r <= name && '-' !in r
    ensures |r| < |name| ==> name[|r|] == '-'
  {
    if name == [] || name[0] == '-' then [] else [name[0]] + BeforeDash(name[1..])
  }

  /** `Number.parseInt(a[0].split("-")[0])`, NaN being `None`. */
  function RangeStart(name: string): Option<nat>
  {
    ParseIntPrefix(BeforeDash(name))
  }

  /** A label written as digits, "-", and anything starts at the value of
      those digits. */
  lemma {:induction false} BeforeDashOfRange(a: string, b: string)
    requires '-' !in a
    ensures BeforeDash(a + "-" + b) == a
  {
    if a != [] {
      assert (a + "-" + b)[1..] == a[1..] + "-" + b;
      BeforeDashOfRange(a[1..], b);
    }
  }

  lemma RangeStartOfDigits(a: string, b: string, name: string)
    requires name == a + "-" + b && a != []
    requires forall i :: 0 <= i < |a| ==> IsDigit(a[i])
    ensures RangeStart(name) == Some(DecimalValue(a))
  {
    assert '-' !in a;
    BeforeDashOfRange(a, b);
    AllDigitsLeading(a);
  }

  /** In particular a label printed from `n` starts at `n`. */
  lemma RangeStartOf(n: nat, b: string)
    ensures RangeStart(DecimalString(n) + "-" + b) == Some(n)
  {
    RangeStartOfDigits(DecimalString(n), b, DecimalString(n) + "-" + b);
    DecimalRoundTrip(n);
  }

  /** Every label of `entries` has a number before its "-"; otherwise the
      comparator would return NaN and the order would be up to the engine. */
  predicate AllStartsParse<V>(entries: seq<(string, V)>)
  {
    forall i :: 0 <= i < |entries| ==> RangeStart(entries[i].0).Some?
  }

  /** The sort key `aStart` of an entry. */
  function StartKey<V>(): ((string, V)) -> int
  {
    (e: (string, V)) => match RangeStart(e.0) case Some(n) => n case None => 0
  }

  /** `sortedEntries`: the entries ordered by the start of their range, with
      `(a, b) => aStart - bStart`. */
  function SortedEntries<V>(entries: seq<(string, V)>): seq<(string, V)>
    requires AllStartsParse(entries)
  {
    SortBy(entries, StartKey())
  }

  /** The sorted entries rise by range start, are a rearrangement of the
      table, pair every label with its own value, and keep entries with the
      same start in table order. */
  lemma SortedEntriesSpec<V(!new)>(entries: seq<(string, V)>, k: int)
    requires AllStartsParse(entries)
    ensures SortedBy(SortedEntries(entries), StartKey())
    ensures multiset(SortedEntries(entries)) == multiset(entries)
    ensures forall e :: e in SortedEntries(entries) <==> e in entries
    ensures Filter(SortedEntries(entries), KeyIs(StartKey(), k)) == Filter(entries, KeyIs(StartKey(), k))
  {
    var r := SortedEntries(entries);
    assert forall e :: e in r <==> e in multiset(r);
    SortByStable(entries, StartKey(), k);
  }

  /** `chartData.labels`. */
  function Labels<V>(sorted: seq<(string, V)>): seq<string>
  {
    Map(sorted, (e: (string, V)) => e.0)
  }

  /** `chartData.datasets[0].data`. */
  function Values<V>(sorted: seq<(string, V)>): seq<V>
  {
    Map(sorted, (e: (string, V)) => e.1)
  }

  /** Labels and bars line up: the `i`-th bar is the value the `i`-th label
      had in the table. */
  lemma ChartAligned<V>(entries: seq<(string, V)>)
    requires AllStartsParse(entries)
    ensures var sorted := SortedEntries(entries);
      |Labels(sorted)| == |Values(sorted)| == |sorted| == |entries| &&
      forall i :: 0 <= i < |sorted| ==> (Labels(sorted)[i], Values(sorted)[i]) in entries
  {
    var sorted := SortedEntries(entries);
    forall i | 0 <= i < |sorted| ensures (Labels(sorted)[i], Values(sorted)[i]) in entries {
      assert sorted[i] in multiset(entries);
    }
  }

  /** The table's ranges in ascending order. */
  const Ordered: seq<(string, real)> := [
    ("0-500", 0.0),
    ("501-1000", 0.0),
    ("1001-1500", 47.45964271213967),
    ("1501-2000", 33.48613575407468),
    ("2001-2500", 17.496907216494847),
    ("2501-3000", 10.575)
  ]

  /** Each label of the table starts at the number written before its dash. */
  lemma Starts0()
    ensures RangeStart("0-500") == Some(0)
  {
    RangeStartOfDigits("0", "500", "0-500");
  }

  lemma Starts501()
    ensures RangeStart("501-1000") == Some(501)
  {
    RangeStartOfDigits("501", "1000", "501-1000");
    DecimalValue3('5', '0', '1');
  }

  lemma Starts1001()
    ensures RangeStart("1001-1500") == Some(1001)
  {
    RangeStartOfDigits("1001", "1500", "1001-1500");
    DecimalValue4('1', '0', '0', '1');
  }

  lemma Starts1501()
    ensures RangeStart("1501-2000") == Some(1501)
  {
    RangeStartOfDigits("1501", "2000", "1501-2000");
    DecimalValue4('1', '5', '0', '1');
  }

  lemma Starts2001()
    ensures RangeStart("2001-2500") == Some(2001)
  {
    RangeStartOfDigits("2001", "2500", "2001-2500");
    DecimalValue4('2', '0', '0', '1');
  }

  lemma Starts2501()
    ensures RangeStart("2501-3000") == Some(2501)
  {
    RangeStartOfDigits("2501", "3000", "2501-3000");
    DecimalValue4('2', '5', '0', '1');
  }

  lemma TableStarts()
    ensures RangeStart("0-500") == Some(0) && RangeStart("501-1000") == Some(501)
    ensures RangeStart("1001-1500") == Some(1001) && RangeStart("1501-2000") == Some(1501)
    ensures RangeStart("2001-2500") == Some(2001) && RangeStart("2501-3000") == Some(2501)
  {
    Starts0();
    Starts501();
    Starts1001();
    Starts1501();
    Starts2001();
    Starts2501();
  }

  /** Six entries whose ranges start at rising numbers are strictly
      ordered by their starts. */
  lemma SixRising(t: seq<(string, real)>, k0: nat, k1: nat, k2: nat, k3: nat, k4: nat, k5: nat)
    requires |t| == 6 && k0 < k1 < k2 < k3 < k4 < k5
    requires RangeStart(t[0].0) == Some(k0) && RangeStart(t[1].0) == Some(k1)
    requires RangeStart(t[2].0) == Some(k2) && RangeStart(t[3].0) == Some(k3)
    requires RangeStart(t[4].0) == Some(k4) && RangeStart(t[5].0) == Some(k5)
    ensures AllStartsParse(t)
    ensures StrictlySortedBy(t, StartKey())
  {
    var key := StartKey<real>();
    var ks := [k0, k1, k2, k3, k4, k5];
    assert forall i :: 0 <= i < 6 ==> RangeStart(t[i].0) == Some(ks[i]);
    assert forall i :: 0 <= i < 6 ==> key(t[i]) == ks[i];
  }

  /** The ranges of `Ordered` start at 0, 501, 1001, 1501, 2001 and 2501. */
  lemma OrderedStrict()
    ensures AllStartsParse(Ordered)
    ensures StrictlySortedBy(Ordered, StartKey())
  {
    TableStarts();
    SixRising(Ordered, 0, 501, 1001, 1501, 2001, 2501);
  }

  /** Whether every label has a start depends only on which entries there
      are. */
  lemma StartsParseSameEntries<V>(t: seq<(string, V)>, u: seq<(string, V)>)
    requires AllStartsParse(u) && multiset(t) == multiset(u)
    ensures AllStartsParse(t)
  {
    forall i | 0 <= i < |t| ensures RangeStart(t[i].0).Some? {
      assert t[i] in multiset(u);
    }
  }

  /** `Ordered` holds the table's entries. */
  lemma SameEntries()
    ensures multiset(Data) == multiset(Ordered)
  {
  }

  /** Entries that can be rearranged into a strictly rising order are sorted
      into exactly that order. */
  lemma SortedIsStrictOrder<V(!new)>(t: seq<(string, V)>, u: seq<(string, V)>)
    requires multiset(t) == multiset(u) && AllStartsParse(u)
    requires StrictlySortedBy(u, StartKey())
    ensures AllStartsParse(t) && SortedEntries(t) == u
  {
    StartsParseSameEntries(t, u);
    SortByStrict(t, u, StartKey());
  }

  /** The chart lists 0-500, 501-1000, 1001-1500, 1501-2000, 2001-2500 and
      2501-3000, each with its own torque. */
  lemma ChartOrder()
    ensures AllStartsParse(Data) && SortedEntries(Data) == Ordered
  {
    SameEntries();
    OrderedStrict();
    SortedIsStrictOrder(Data, Ordered);
  }

  lemma ChartOfSix<V>(t: seq<(string, V)>)
    requires |t| == 6
    ensures Labels(t) == [t[0].0, t[1].0, t[2].0, t[3].0, t[4].0, t[5].0]
    ensures Values(t) == [t[0].1, t[1].1, t[2].1, t[3].1, t[4].1, t[5].1]
  {
  }

  /** The bars, left to right, are the labels 0-500 up to 2501-3000 with
      their own torques. */
  lemma ChartLabels()
    ensures AllStartsParse(Data)
    ensures Labels(SortedEntries(Data)) == ["0-500", "501-1000", "1001-1500", "1501-2000", "2001-2500", "2501-3000"]
    ensures Values(SortedEntries(Data)) == [0.0, 0.0, 47.45964271213967, 33.48613575407468, 17.496907216494847, 10.575]
  {
    ChartOrder();
    ChartOfSix(Ordered);
  }
}
