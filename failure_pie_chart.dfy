/** The "Failure Type Distribution" pie: the rows of the machine data CSV
    file are scanned once, five counters record how many rows carry each
    failure-cause column set to "1", and the pie shows one slice per cause
    in a fixed order and colour. */
module FailurePieChart {
  import opened Seqs
  import opened Machines

  /** One CSV row, reduced to the five upper-case failure columns; a column
      missing from the row is the empty string. */
  datatype CsvRow = CsvRow(twf: string, hdf: string, pwf: string, osf: string, rnf: string)

  function Column(row: CsvRow, f: Flag): string
  {
    match f
    case TWF => row.twf
    case HDF => row.hdf
    case PWF => row.pwf
    case OSF => row.osf
    case RNF => row.rnf
  }

  /** The test `item.F === "1"`. */
  function RaisedIn(f: Flag): CsvRow -> bool
  {
    row => Column(row, f) == "1"
  }

  /** The number of rows whose column `f` is exactly "1". */
  function Tally(rows: seq<CsvRow>, f: Flag): (n: nat)
    ensures n <= |rows|
  {
    |Filter(rows, RaisedIn(f))|
  }

  /** The `counts` object. */
  datatype Counts = Counts(twf: nat, hdf: nat, pwf: nat, osf: nat, rnf: nat)

  function Counter(c: Counts, f: Flag): nat
  {
    match f
    case TWF => c.twf
    case HDF => c.hdf
    case PWF => c.pwf
    case OSF => c.osf
    case RNF => c.rnf
  }

  /** The counts `getFailureCounts` returns for `rows`. */
  function FailureCounts(rows: seq<CsvRow>): (c: Counts)
    ensures forall f :: Counter(c, f) == Tally(rows, f)
  {
    Counts(Tally(rows, TWF), Tally(rows, HDF), Tally(rows, PWF), Tally(rows, OSF), Tally(rows, RNF))
  }

  /** The body of the `forEach`: five independent tests, each bumping its
      own counter. */
  method CountRow(c: Counts, row: CsvRow) returns (c': Counts)
    ensures c'.twf == c.twf + (if row.twf == "1" then 1 else 0)
    ensures c'.hdf == c.hdf + (if row.hdf == "1" then 1 else 0)
    ensures c'.pwf == c.pwf + (if row.pwf == "1" then 1 else 0)
    ensures c'.osf == c.osf + (if row.osf == "1" then 1 else 0)
    ensures c'.rnf == c.rnf + (if row.rnf == "1" then 1 else 0)
  {
    c' := c;
    if row.twf == "1" { c' := c'.(twf := c'.twf + 1); }
    if row.hdf == "1" { c' := c'.(hdf := c'.hdf + 1); }
    if row.pwf == "1" { c' := c'.(pwf := c'.pwf + 1); }
    if row.osf == "1" { c' := c'.(osf := c'.osf + 1); }
    if row.rnf == "1" { c' := c'.(rnf := c'.rnf + 1); }
  }

  /** One more row adds to each tally whose column in it is "1". */
  lemma TallySnoc(rows: seq<CsvRow>, row: CsvRow)
    ensures forall f :: Tally(rows + [row], f) == Tally(rows, f) + (if RaisedIn(f)(row) then 1 else 0)
  {
    forall f ensures Tally(rows + [row], f) == Tally(rows, f) + (if RaisedIn(f)(row) then 1 else 0) {
      FilterSnoc(rows, row, RaisedIn(f));
    }
  }

  /** Two counts agreeing on every counter are the same counts. */
  lemma CountersDetermine(c: Counts, d: Counts)
    requires forall f :: Counter(c, f) == Counter(d, f)
    ensures c == d
  {
    assert Counter(c, TWF) == Counter(d, TWF) && Counter(c, HDF) == Counter(d, HDF);
    assert Counter(c, PWF) == Counter(d, PWF) && Counter(c, OSF) == Counter(d, OSF);
    assert Counter(c, RNF) == Counter(d, RNF);
  }

  /** `getFailureCounts`: all counters start at 0 and the rows are scanned
      once; each counter ends as the number of rows with its column "1". */
  method GetFailureCounts(rows: seq<CsvRow>) returns (counts: Counts)
    ensures counts == FailureCounts(rows)
  {
    counts := Counts(0, 0, 0, 0, 0);
    var i := 0;
    while i < |rows|
      invariant 0 <= i <= |rows|
      invariant forall f :: Counter(counts, f) == Tally(rows[..i], f)
    {
      counts := CountRow(counts, rows[i]);
      TallySnoc(rows[..i], rows[i]);
      TakeSnoc(rows, i);
      i := i + 1;
    }
    assert rows[..|rows|] == rows;
    CountersDetermine(counts, FailureCounts(rows));
  }

  /** Counting two batches of rows adds their counts. */
  lemma TallyAppend(rows: seq<CsvRow>, more: seq<CsvRow>, f: Flag)
    ensures Tally(rows + more, f) == Tally(rows, f) + Tally(more, f)
  {
    FilterAppend(rows, more, RaisedIn(f));
  }

  /** Only the exact text "1" counts: a row whose columns are "0", empty,
      "1.0", " 1" or anything else but "1" changes no counter. */
  lemma OnlyExactOneCounts(rows: seq<CsvRow>, row: CsvRow)
    requires forall f :: Column(row, f) != "1"
    ensures FailureCounts(rows + [row]) == FailureCounts(rows)
  {
    TallySnoc(rows, row);
    CountersDetermine(FailureCounts(rows + [row]), FailureCounts(rows));
  }

  /** A row is counted once under each of its causes, so one row failing in
      all five ways adds five to the sum of the counters. */
  lemma SumCanExceedRows()
    ensures var c := FailureCounts([CsvRow("1", "1", "1", "1", "1")]);
      c == Counts(1, 1, 1, 1, 1) && c.twf + c.hdf + c.pwf + c.osf + c.rnf > 1
  {
    TallySnoc([], CsvRow("1", "1", "1", "1", "1"));
    assert [] + [CsvRow("1", "1", "1", "1", "1")] == [CsvRow("1", "1", "1", "1", "1")];
  }

  // ---------------------------------------------------------------------
  // The pie

  datatype PieSlice = PieSlice(name: string, population: nat, color: string, legendFontColor: string, legendFontSize: nat)

  function SliceColor(f: Flag): string
  {
    match f
    case TWF => "#FF5733"
    case HDF => "#33FF57"
    case PWF => "#3357FF"
    case OSF => "#FF33F1"
    case RNF => "#F1FF33"
  }

  /** Each cause has its own colour. */
  lemma SliceColorsDistinct(f: Flag, g: Flag)
    requires f != g
    ensures SliceColor(f) != SliceColor(g)
  {
  }

  /** `chartData`: always five slices, TWF, HDF, PWF, OSF, RNF in that order,
      each as large as its counter, with a white 12-point legend. */
  function ChartData(c: Counts): (d: seq<PieSlice>)
    ensures |d| == |AllFlags|
    ensures forall i :: 0 <= i < |d| ==>
      d[i] == PieSlice(FlagName(AllFlags[i]), Counter(c, AllFlags[i]), SliceColor(AllFlags[i]), "#FFFFFF", 12)
  {
    Map(AllFlags, f => PieSlice(FlagName(f), Counter(c, f), SliceColor(f), "#FFFFFF", 12))
  }

  /** The card shows "Loading data..." until there is at least one row. */
  datatype PieView = LoadingData | Pie(slices: seq<PieSlice>)

  function View(rows: seq<CsvRow>): (v: PieView)
    ensures v.LoadingData? <==> rows == []
    ensures v.Pie? ==> |v.slices| == |AllFlags|
    ensures v.Pie? ==> forall i :: 0 <= i < |AllFlags| ==> v.slices[i].population == Tally(rows, AllFlags[i])
  {
    if |rows| > 0 then Pie(ChartData(FailureCounts(rows))) else LoadingData
  }
}
