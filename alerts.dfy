/** The alerts screen: which machines raise alerts, the alert each raised
    failure flag produces, the stable sort by severity, and the "load more"
    paging of the feed (screens/AlertsScreen.tsx). */
module Alerts {
  import opened Seqs
  import opened Machines
  import opened Sorting

  /** The alert severities, written "HIGH", "MEDIUM" and "LOW" on the badge. */
  datatype Severity = High | Medium | Low

  /** `severityOrder`: HIGH sorts first, LOW last. */
  function Rank(s: Severity): int
  {
    match s
    case High => 0
    case Medium => 1
    case Low => 2
  }

  /** The border and badge colour of each severity. */
  function SeverityColor(s: Severity): string
  {
    match s
    case High => "#FF4B4B"
    case Medium => "#FFB84B"
    case Low => "#4CAF50"
  }

  datatype Alert = Alert(
    machine: string,
    severity: Severity,
    message: string,
    details: string,
    time: string,
    borderColor: string)

  function AlertRank(a: Alert): int
  {
    Rank(a.severity)
  }

  const PageSize: nat := 10

  // ---------------------------------------------------------------------
  // Which machines raise alerts, and which alerts

  /** Only machines of type "H" or "M" raise alerts. */
  predicate HeavyOrMedium(m: MachineRecord)
  {
    m.machineType == "H" || m.machineType == "M"
  }

  /** The screen's filter: type "H" or "M" and at least one flag "1". */
  predicate Eligible(m: MachineRecord)
  {
    && HeavyOrMedium(m)
    && (m.twf == "1" || m.hdf == "1" || m.pwf == "1" || m.osf == "1" || m.rnf == "1")
  }

  function EligibleTest(): MachineRecord -> bool
  {
    (m: MachineRecord) => Eligible(m)
  }

  function HeavyOrMediumTest(): MachineRecord -> bool
  {
    (m: MachineRecord) => HeavyOrMedium(m)
  }

  function MachineLabel(m: MachineRecord): string
  {
    m.machineType + " Machine " + m.productId + " (Floor " + m.floor + ", Area " + m.area + ")"
  }

  function FlagSeverity(f: Flag): Severity
  {
    match f
    case TWF => High
    case HDF => Medium
    case PWF => High
    case OSF => Medium
    case RNF => Low
  }

  function FlagMessage(f: Flag): string
  {
    match f
    case TWF => "Tool Wear Failure (TWF) Detected"
    case HDF => "Heat Dissipation Failure (HDF) Alert"
    case PWF => "Power Failure (PWF) Warning"
    case OSF => "Overstrain Failure (OSF) Warning"
    case RNF => "Random Failure (RNF) Notice"
  }

  function FlagDetails(m: MachineRecord, f: Flag): string
  {
    match f
    case TWF =>
      "Abnormal tool wear detected. Current wear: " + m.toolWear + " min, Speed: " + m.rotationalSpeed + " rpm"
    case HDF =>
      "Temperature critical: Air temp " + m.airTemperature + "K, Process temp " + m.processTemperature + "K"
    case PWF =>
      "Emergency power issue detected. Torque: " + m.torque + "Nm at " + m.rotationalSpeed + " rpm"
    case OSF =>
      "Machine overstrain detected. Current torque: " + m.torque + "Nm exceeds normal range"
    case RNF =>
      "Unexpected behavior detected. Maintenance inspection required"
  }

  /** The alert one raised flag of one machine produces. */
  function FlagAlert(m: MachineRecord, f: Flag): Alert
  {
    var sev := FlagSeverity(f);
    Alert(MachineLabel(m), sev, FlagMessage(f), FlagDetails(m, f), "2 minutes ago", SeverityColor(sev))
  }

  function FlagAlertOf(m: MachineRecord): Flag -> Alert
  {
    (f: Flag) => FlagAlert(m, f)
  }

  function RaisedTest(m: MachineRecord): Flag -> bool
  {
    (f: Flag) => Raised(m, f)
  }

  function AlertIf(m: MachineRecord, f: Flag): seq<Alert>
  {
    if Raised(m, f) then [FlagAlert(m, f)] else []
  }

  /** The alerts of one machine for the flags `flags`, scanned in order:
      one conditional push per flag. */
  function AlertsFor(m: MachineRecord, flags: seq<Flag>): seq<Alert>
  {
    if flags == [] then [] else AlertsFor(m, flags[..|flags| - 1]) + AlertIf(m, flags[|flags| - 1])
  }

  /** The five `if (machine.xxf === "1") newAlerts.push(...)` of one machine,
      in the order twf, hdf, pwf, osf, rnf. */
  function MachineAlerts(m: MachineRecord): seq<Alert>
  {
    AlertsFor(m, AllFlags)
  }

  /** One more conditional push extends the scan by one flag. */
  lemma PushStep(base: seq<Alert>, before: seq<Alert>, after: seq<Alert>, m: MachineRecord, flags: seq<Flag>, f: Flag)
    requires before == base + AlertsFor(m, flags)
    requires after == before + AlertIf(m, f)
    ensures after == base + AlertsFor(m, flags + [f])
  {
    assert (flags + [f])[..|flags|] == flags;
  }

  function MachineAlertsOf(): MachineRecord -> seq<Alert>
  {
    (m: MachineRecord) => MachineAlerts(m)
  }

  /** The alerts of `ms`, machine after machine. */
  function FanOut(ms: seq<MachineRecord>): seq<Alert>
  {
    FlatMap(ms, MachineAlertsOf())
  }

  /** `newAlerts` before the sort. */
  function GeneratedAlerts(machines: seq<MachineRecord>): seq<Alert>
  {
    FanOut(Filter(machines, EligibleTest()))
  }

  /** The feed the screen shows: the generated alerts after the stable
      severity sort. */
  function SortedAlerts(machines: seq<MachineRecord>): seq<Alert>
  {
    SortBy(GeneratedAlerts(machines), AlertRank)
  }

  /** One alert per raised flag, in flag order, never merged: the alerts
      for `flags` are its raised flags, each mapped to its alert. */
  lemma {:induction false} AlertsForRaisedFlags(m: MachineRecord, flags: seq<Flag>)
    ensures AlertsFor(m, flags) == Map(Filter(flags, RaisedTest(m)), FlagAlertOf(m))
  {
    if flags != [] {
      var init, last := flags[..|flags| - 1], flags[|flags| - 1];
      AlertsForRaisedFlags(m, init);
      FilterLast(flags, RaisedTest(m));
      MapAppend(Filter(init, RaisedTest(m)), if Raised(m, last) then [last] else [], FlagAlertOf(m));
    }
  }

  /** A machine yields exactly as many alerts as it has flags equal to "1",
      one per flag in the order twf, hdf, pwf, osf, rnf. */
  lemma MachineAlertsAreRaisedFlags(m: MachineRecord)
    ensures MachineAlerts(m) == Map(Filter(AllFlags, RaisedTest(m)), FlagAlertOf(m))
    ensures |MachineAlerts(m)| == |Filter(AllFlags, RaisedTest(m))|
  {
    AlertsForRaisedFlags(m, AllFlags);
  }

  lemma {:induction false} AlertsForMembership(m: MachineRecord, flags: seq<Flag>, a: Alert)
    ensures a in AlertsFor(m, flags) <==> exists f :: f in flags && Raised(m, f) && a == FlagAlert(m, f)
  {
    if flags != [] {
      AlertsForMembership(m, flags[..|flags| - 1], a);
      assert flags == flags[..|flags| - 1] + [flags[|flags| - 1]];
    }
  }

  lemma EveryFlagListed(f: Flag)
    ensures f in AllFlags
  {
    match f
    case TWF => assert AllFlags[0] == f;
    case HDF => assert AllFlags[1] == f;
    case PWF => assert AllFlags[2] == f;
    case OSF => assert AllFlags[3] == f;
    case RNF => assert AllFlags[4] == f;
  }

  /** The alerts of one machine are the flag alerts of its raised flags. */
  lemma MachineAlertsMembership(m: MachineRecord, a: Alert)
    ensures a in MachineAlerts(m) <==> exists f :: Raised(m, f) && a == FlagAlert(m, f)
  {
    AlertsForMembership(m, AllFlags, a);
    if exists f :: Raised(m, f) && a == FlagAlert(m, f) {
      var f :| Raised(m, f) && a == FlagAlert(m, f);
      EveryFlagListed(f);
    }
  }

  /** The alerts of a machine list are, exactly, the flag alerts of its
      machines for the flags they raise. */
  lemma FanOutMembership(ms: seq<MachineRecord>, a: Alert)
    ensures a in FanOut(ms) <==> exists m, f :: m in ms && Raised(m, f) && a == FlagAlert(m, f)
  {
    FlatMapMembership(ms, MachineAlertsOf(), a);
    if a in FanOut(ms) {
      var m :| m in ms && a in MachineAlerts(m);
      MachineAlertsMembership(m, a);
    }
    if exists m, f :: m in ms && Raised(m, f) && a == FlagAlert(m, f) {
      var m, f :| m in ms && Raised(m, f) && a == FlagAlert(m, f);
      MachineAlertsMembership(m, a);
    }
  }

  /** Some flag is raised exactly when the filter's flag test holds. */
  lemma SomeFlagRaised(m: MachineRecord)
    ensures (exists f :: Raised(m, f)) <==> (m.twf == "1" || m.hdf == "1" || m.pwf == "1" || m.osf == "1" || m.rnf == "1")
  {
    if m.twf == "1" { assert Raised(m, TWF); }
    if m.hdf == "1" { assert Raised(m, HDF); }
    if m.pwf == "1" { assert Raised(m, PWF); }
    if m.osf == "1" { assert Raised(m, OSF); }
    if m.rnf == "1" { assert Raised(m, RNF); }
  }

  /** A machine with no raised flag produces no alert. */
  lemma NoFlagNoAlerts(m: MachineRecord)
    requires !(m.twf == "1" || m.hdf == "1" || m.pwf == "1" || m.osf == "1" || m.rnf == "1")
    ensures MachineAlerts(m) == []
  {
    SomeFlagRaised(m);
    if MachineAlerts(m) != [] {
      MachineAlertsMembership(m, MachineAlerts(m)[0]);
    }
  }

  lemma FanOutSnoc(ms: seq<MachineRecord>, m: MachineRecord)
    ensures FanOut(ms + [m]) == FanOut(ms) + MachineAlerts(m)
  {
    FlatMapAppend(ms, [m], MachineAlertsOf());
    assert [m][..0] == [];
  }

  /** Generating alerts for two lists one after the other is generating them
      for the joined list. */
  lemma GeneratedAlertsAppend(s: seq<MachineRecord>, t: seq<MachineRecord>)
    ensures GeneratedAlerts(s + t) == GeneratedAlerts(s) + GeneratedAlerts(t)
  {
    FilterAppend(s, t, EligibleTest());
    FlatMapAppend(Filter(s, EligibleTest()), Filter(t, EligibleTest()), MachineAlertsOf());
  }

  lemma GeneratedAlertsSingle(m: MachineRecord)
    ensures GeneratedAlerts([m]) == if Eligible(m) then MachineAlerts(m) else []
  {
    FilterSnoc([], m, EligibleTest());
    assert [] + [m] == [m];
    FanOutSnoc([], m);
  }

  /** Appending a machine to the fetched list appends its alerts, before the
      sort, when it is eligible, and nothing otherwise. */
  lemma GeneratedAlertsSnoc(ms: seq<MachineRecord>, m: MachineRecord)
    ensures GeneratedAlerts(ms + [m])
         == GeneratedAlerts(ms) + (if Eligible(m) then MachineAlerts(m) else [])
  {
    GeneratedAlertsAppend(ms, [m]);
    GeneratedAlertsSingle(m);
  }

  /** The flag half of the eligibility filter changes nothing: filtering by
      type alone yields the same alerts in the same order. */
  lemma {:induction false} FlagTestRedundant(ms: seq<MachineRecord>)
    ensures GeneratedAlerts(ms) == FanOut(Filter(ms, HeavyOrMediumTest()))
  {
    if ms != [] {
      var init, last := ms[..|ms| - 1], ms[|ms| - 1];
      FlagTestRedundant(init);
      assert ms == init + [last];
      GeneratedAlertsSnoc(init, last);
      FilterSnoc(init, last, HeavyOrMediumTest());
      var h := Filter(init, HeavyOrMediumTest());
      if HeavyOrMedium(last) {
        FanOutSnoc(h, last);
        if !Eligible(last) {
          NoFlagNoAlerts(last);
        }
      } else {
        assert h + [] == h;
      }
    }
  }

  /** Exactly the flag alerts of "H"/"M" machines for their raised flags are
      generated; every other type, "L" included, raises none. */
  lemma GeneratedAlertsMembership(ms: seq<MachineRecord>, a: Alert)
    ensures a in GeneratedAlerts(ms) <==>
            exists m, f :: m in ms && HeavyOrMedium(m) && Raised(m, f) && a == FlagAlert(m, f)
  {
    var hm := Filter(ms, HeavyOrMediumTest());
    FlagTestRedundant(ms);
    FanOutMembership(hm, a);
    if a in GeneratedAlerts(ms) {
      var m, f :| m in hm && Raised(m, f) && a == FlagAlert(m, f);
      FilterMembership(ms, HeavyOrMediumTest(), m);
    }
    if exists m, f :: m in ms && HeavyOrMedium(m) && Raised(m, f) && a == FlagAlert(m, f) {
      var m, f :| m in ms && HeavyOrMedium(m) && Raised(m, f) && a == FlagAlert(m, f);
      FilterMembership(ms, HeavyOrMediumTest(), m);
    }
  }

  /** Each alert's border colour is the colour of its severity, and its
      severity is the one its flag fixes. */
  lemma {:induction false} AlertColorsMatchSeverity(ms: seq<MachineRecord>, a: Alert)
    requires a in GeneratedAlerts(ms)
    ensures a.borderColor == SeverityColor(a.severity)
    ensures exists f :: a.severity == FlagSeverity(f) && a.message == FlagMessage(f)
  {
    GeneratedAlertsMembership(ms, a);
  }

  lemma LabelIgnoresFailure(m: MachineRecord, v: string)
    ensures MachineLabel(m.(machineFailure := v)) == MachineLabel(m)
  {
  }

  lemma DetailsIgnoreFailure(m: MachineRecord, v: string, f: Flag)
    ensures FlagDetails(m.(machineFailure := v), f) == FlagDetails(m, f)
  {
  }

  lemma {:induction false} AlertsForIgnoreFailure(m: MachineRecord, v: string, flags: seq<Flag>)
    ensures AlertsFor(m.(machineFailure := v), flags) == AlertsFor(m, flags)
  {
    if flags != [] {
      AlertsForIgnoreFailure(m, v, flags[..|flags| - 1]);
      LabelIgnoresFailure(m, v);
      DetailsIgnoreFailure(m, v, flags[|flags| - 1]);
    }
  }

  /** Alerts never look at `machineFailure`: changing it in any record
      changes no alert. */
  lemma FailureFieldIgnored(ms: seq<MachineRecord>, i: nat, v: string)
    requires i < |ms|
    ensures GeneratedAlerts(ms[i := ms[i].(machineFailure := v)]) == GeneratedAlerts(ms)
  {
    var x, x' := ms[i], ms[i].(machineFailure := v);
    var pre, post := ms[..i], ms[i + 1..];
    assert ms == pre + [x] + post;
    assert ms[i := x'] == pre + [x'] + post;
    GeneratedAlertsAppend(pre + [x], post);
    GeneratedAlertsAppend(pre + [x'], post);
    GeneratedAlertsSnoc(pre, x);
    GeneratedAlertsSnoc(pre, x');
    AlertsForIgnoreFailure(x, v, AllFlags);
  }

  // ---------------------------------------------------------------------
  // The severity sort

  /** The alerts of rank `k`, in generation order. */
  function OfRank(s: seq<Alert>, k: int): seq<Alert>
  {
    Filter(s, KeyIs(AlertRank, k))
  }

  /** What the stable sort by severity must return: the HIGH alerts, then the
      MEDIUM ones, then the LOW ones, each group in generation order. */
  function BySeverity(s: seq<Alert>): seq<Alert>
  {
    OfRank(s, 0) + OfRank(s, 1) + OfRank(s, 2)
  }

  lemma RankRange(a: Alert)
    ensures 0 <= AlertRank(a) <= 2
  {
  }

  lemma BySeveritySorted(s: seq<Alert>)
    ensures SortedBy(BySeverity(s), AlertRank)
  {
    var a, b, c := OfRank(s, 0), OfRank(s, 1), OfRank(s, 2);
    var t := a + b + c;
    forall i, j | 0 <= i < j < |t|
      ensures AlertRank(t[i]) <= AlertRank(t[j])
    {
      if j < |a| {
        assert t[i] == a[i] && t[j] == a[j];
      } else if j < |a| + |b| {
        assert t[j] == b[j - |a|];
        if i < |a| { assert t[i] == a[i]; } else { assert t[i] == b[i - |a|]; }
      } else {
        assert t[j] == c[j - |a| - |b|];
        RankRange(t[i]);
      }
    }
  }

  /** Filtering one rank group by another rank keeps all or nothing. */
  lemma ClassOfRankGroup(s: seq<Alert>, j: int, k: int)
    ensures Filter(OfRank(s, j), KeyIs(AlertRank, k)) == if j == k then OfRank(s, k) else []
  {
    var g := OfRank(s, j);
    if j == k {
      FilterAll(g, KeyIs(AlertRank, k));
    } else {
      forall x | x in g ensures !KeyIs(AlertRank, k)(x) {
        FilterMembership(s, KeyIs(AlertRank, j), x);
      }
      FilterNone(g, KeyIs(AlertRank, k));
    }
  }

  /** The grouping keeps every class of equal severity in input order. */
  lemma BySeverityStable(s: seq<Alert>, k: int)
    ensures Filter(BySeverity(s), KeyIs(AlertRank, k)) == Filter(s, KeyIs(AlertRank, k))
  {
    var p := KeyIs(AlertRank, k);
    FilterAppend(OfRank(s, 0) + OfRank(s, 1), OfRank(s, 2), p);
    FilterAppend(OfRank(s, 0), OfRank(s, 1), p);
    ClassOfRankGroup(s, 0, k);
    ClassOfRankGroup(s, 1, k);
    ClassOfRankGroup(s, 2, k);
    if k != 0 && k != 1 && k != 2 {
      forall x | x in s ensures !p(x) {
        RankRange(x);
      }
      FilterNone(s, p);
    }
  }

  /** The comparator sort of the screen, being stable, returns exactly the
      three severity groups in order, and loses and adds no alert. */
  lemma SortIsBySeverity(s: seq<Alert>)
    ensures SortBy(s, AlertRank) == BySeverity(s)
    ensures multiset(BySeverity(s)) == multiset(s)
  {
    BySeveritySorted(s);
    forall k ensures Filter(BySeverity(s), KeyIs(AlertRank, k)) == Filter(SortBy(s, AlertRank), KeyIs(AlertRank, k)) {
      BySeverityStable(s, k);
      SortByStable(s, AlertRank, k);
    }
    SortedClassesDetermine(BySeverity(s), SortBy(s, AlertRank), AlertRank);
  }

  lemma OfRankStep(s: seq<Alert>, i: nat, k: int)
    requires i < |s|
    ensures OfRank(s[..i + 1], k) == OfRank(s[..i], k) + (if AlertRank(s[i]) == k then [s[i]] else [])
  {
    FilterLast(s[..i + 1], KeyIs(AlertRank, k));
    assert s[..i + 1][..i] == s[..i];
  }

  /** One pass over the array gathers its HIGH, MEDIUM and LOW alerts. */
  method GatherBySeverity(a: array<Alert>) returns (high: seq<Alert>, medium: seq<Alert>, low: seq<Alert>)
    ensures high == OfRank(a[..], 0) && medium == OfRank(a[..], 1) && low == OfRank(a[..], 2)
  {
    high, medium, low := [], [], [];
    var i := 0;
    while i < a.Length
      invariant 0 <= i <= a.Length
      invariant high == OfRank(a[..i], 0)
      invariant medium == OfRank(a[..i], 1)
      invariant low == OfRank(a[..i], 2)
    {
      OfRankStep(a[..], i, 0);
      OfRankStep(a[..], i, 1);
      OfRankStep(a[..], i, 2);
      match a[i].severity {
        case High => high := high + [a[i]];
        case Medium => medium := medium + [a[i]];
        case Low => low := low + [a[i]];
      }
      i := i + 1;
    }
    assert a[..i] == a[..];
  }

  /** Overwrites the array with `sorted`, element by element. */
  method WriteBack(a: array<Alert>, sorted: seq<Alert>)
    requires |sorted| == a.Length
    modifies a
    ensures a[..] == sorted
  {
    var j := 0;
    while j < a.Length
      invariant 0 <= j <= a.Length
      invariant a[..j] == sorted[..j]
    {
      a[j] := sorted[j];
      j := j + 1;
    }
    assert a[..] == a[..j];
  }

  /** `newAlerts.sort(...)` in place: the three severity groups are gathered,
      then written back in order. */
  method SortBySeverity(a: array<Alert>)
    modifies a
    ensures a[..] == SortBy(old(a[..]), AlertRank)
  {
    var high, medium, low := GatherBySeverity(a);
    SortIsBySeverity(a[..]);
    WriteBack(a, high + medium + low);
  }

  /** One `if (machine.xxf === "1") newAlerts.push(...)`. */
  method PushIfRaised(alerts: seq<Alert>, m: MachineRecord, f: Flag) returns (pushed: seq<Alert>)
    ensures pushed == alerts + AlertIf(m, f)
  {
    if FlagValue(m, f) == "1" {
      pushed := alerts + [FlagAlert(m, f)];
    } else {
      pushed := alerts;
    }
  }

  /** The `forEach` callback: the five conditional pushes for one machine. */
  method PushMachineAlerts(alerts: seq<Alert>, m: MachineRecord) returns (pushed: seq<Alert>)
    ensures pushed == alerts + MachineAlerts(m)
  {
    ghost var done: seq<Flag> := [];
    ghost var before := alerts;
    pushed := PushIfRaised(alerts, m, TWF);
    PushStep(alerts, before, pushed, m, done, TWF);
    before, done := pushed, done + [TWF];
    pushed := PushIfRaised(pushed, m, HDF);
    PushStep(alerts, before, pushed, m, done, HDF);
    before, done := pushed, done + [HDF];
    pushed := PushIfRaised(pushed, m, PWF);
    PushStep(alerts, before, pushed, m, done, PWF);
    before, done := pushed, done + [PWF];
    pushed := PushIfRaised(pushed, m, OSF);
    PushStep(alerts, before, pushed, m, done, OSF);
    before, done := pushed, done + [OSF];
    pushed := PushIfRaised(pushed, m, RNF);
    PushStep(alerts, before, pushed, m, done, RNF);
    assert done + [RNF] == AllFlags;
  }

  /** `fetchMachineData` after the response: filter, push each raised flag's
      alert machine by machine, then sort by severity. */
  method GenerateAlerts(machines: seq<MachineRecord>) returns (alerts: seq<Alert>)
    ensures alerts == SortedAlerts(machines)
  {
    var filtered := Filter(machines, EligibleTest());
    var newAlerts: seq<Alert> := [];
    var i := 0;
    while i < |filtered|
      invariant 0 <= i <= |filtered|
      invariant newAlerts == FanOut(filtered[..i])
    {
      newAlerts := PushMachineAlerts(newAlerts, filtered[i]);
      TakeSnoc(filtered, i);
      FanOutSnoc(filtered[..i], filtered[i]);
      i := i + 1;
    }
    assert filtered[..i] == filtered;
    var buffer := new Alert[|newAlerts|](k requires 0 <= k < |newAlerts| => newAlerts[k]);
    assert buffer[..] == newAlerts;
    SortBySeverity(buffer);
    alerts := buffer[..];
  }

  // ---------------------------------------------------------------------
  // The feed and its "load more" paging

  /** The first `page * PAGE_SIZE` alerts: `alerts.slice(0, page * PAGE_SIZE)`. */
  function VisibleAlerts(alerts: seq<Alert>, page: int): (r: seq<Alert>)
    requires page >= 1
    ensures |r| == Min(|alerts|, page * PageSize)
    ensures r == alerts[..|r|]
  {
    Slice(alerts, 0, page * PageSize)
  }

  /** Loading more never hides an alert already shown. */
  lemma VisibleGrows(alerts: seq<Alert>, p: int, q: int)
    requires 1 <= p <= q
    ensures VisibleAlerts(alerts, p) == VisibleAlerts(alerts, q)[..|VisibleAlerts(alerts, p)|]
  {
    var v, w := VisibleAlerts(alerts, p), VisibleAlerts(alerts, q);
    assert |v| <= |w|;
    assert w[..|v|] == alerts[..|v|];
  }

  /** Once enough pages are loaded, every alert is shown. */
  lemma AllVisibleEventually(alerts: seq<Alert>, page: int)
    requires page >= 1 && |alerts| <= page * PageSize
    ensures VisibleAlerts(alerts, page) == alerts
  {
  }

  /** The screen's three states: loading, a list with its footer, or none. */
  datatype Screen = Loading | NoAlerts | Feed(items: seq<Alert>, moreFooter: bool)

  class AlertsScreen {
    var alerts: seq<Alert>
    var isLoading: bool
    var page: int
    var hasMore: bool

    ghost predicate Valid()
      reads this
    {
      page >= 1
    }

    /** The state on mount: no alerts, loading, page 1, more expected. */
    constructor ()
      ensures Valid()
      ensures alerts == [] && isLoading && page == 1 && hasMore
    {
      alerts := [];
      isLoading := true;
      page := 1;
      hasMore := true;
    }

    /** A fetch starts: only the loading flag changes. */
    method BeginFetch()
      requires Valid()
      modifies this
      ensures Valid()
      ensures isLoading
      ensures alerts == old(alerts) && page == old(page) && hasMore == old(hasMore)
    {
      isLoading := true;
    }

    /** A fetch ends: on a response the alerts are replaced and `hasMore`
        becomes "more than one page"; on an error nothing but the loading
        flag changes. The page is never reset. */
    method FetchCompleted(response: Option<seq<MachineRecord>>)
      requires Valid()
      modifies this
      ensures Valid()
      ensures !isLoading
      ensures page == old(page)
      ensures response.Some? ==> alerts == SortedAlerts(response.value) && hasMore == (|alerts| > PageSize)
      ensures response.None? ==> alerts == old(alerts) && hasMore == old(hasMore)
    {
      if response.Some? {
        var newAlerts := GenerateAlerts(response.value);
        alerts := newAlerts;
        hasMore := |newAlerts| > PageSize;
      }
      isLoading := false;
    }

    /** `loadMoreAlerts`: one more page when more are expected. */
    method LoadMore()
      requires Valid()
      modifies this
      ensures Valid()
      ensures page == if old(hasMore) then old(page) + 1 else old(page)
      ensures alerts == old(alerts) && hasMore == old(hasMore) && isLoading == old(isLoading)
    {
      if hasMore {
        page := page + 1;
      }
    }

    function View(): (v: Screen)
      requires Valid()
      reads this
      ensures v.Loading? <==> isLoading
      ensures v.NoAlerts? <==> !isLoading && alerts == []
      ensures v.Feed? ==> v.items == VisibleAlerts(alerts, page) && v.moreFooter == hasMore
    {
      if isLoading then Loading
      else if |alerts| > 0 then Feed(VisibleAlerts(alerts, page), hasMore)
      else NoAlerts
    }
  }

  lemma OfRankSingle(x: Alert, k: int)
    ensures OfRank([x], k) == if AlertRank(x) == k then [x] else []
  {
  }

  lemma OfRankOfFour(a1: Alert, a2: Alert, a3: Alert, a4: Alert, k: int)
    ensures OfRank([a1, a2, a3, a4], k) == OfRank([a1], k) + OfRank([a2], k) + OfRank([a3], k) + OfRank([a4], k)
  {
    var p := KeyIs(AlertRank, k);
    assert [a1, a2, a3, a4] == [a1] + [a2] + [a3] + [a4];
    FilterAppend([a1] + [a2] + [a3], [a4], p);
    FilterAppend([a1] + [a2], [a3], p);
    FilterAppend([a1], [a2], p);
  }

  lemma ExampleHigh(a1: Alert, a2: Alert, a3: Alert, a4: Alert)
    requires a1.severity == Low && a2.severity == High && a3.severity == Medium && a4.severity == High
    ensures OfRank([a1, a2, a3, a4], 0) == [a2, a4]
  {
    OfRankOfFour(a1, a2, a3, a4, 0);
    OfRankSingle(a1, 0); OfRankSingle(a2, 0); OfRankSingle(a3, 0); OfRankSingle(a4, 0);
  }

  lemma ExampleMedium(a1: Alert, a2: Alert, a3: Alert, a4: Alert)
    requires a1.severity == Low && a2.severity == High && a3.severity == Medium && a4.severity == High
    ensures OfRank([a1, a2, a3, a4], 1) == [a3]
  {
    OfRankOfFour(a1, a2, a3, a4, 1);
    OfRankSingle(a1, 1); OfRankSingle(a2, 1); OfRankSingle(a3, 1); OfRankSingle(a4, 1);
  }

  lemma ExampleLow(a1: Alert, a2: Alert, a3: Alert, a4: Alert)
    requires a1.severity == Low && a2.severity == High && a3.severity == Medium && a4.severity == High
    ensures OfRank([a1, a2, a3, a4], 2) == [a1]
  {
    OfRankOfFour(a1, a2, a3, a4, 2);
    OfRankSingle(a1, 2); OfRankSingle(a2, 2); OfRankSingle(a3, 2); OfRankSingle(a4, 2);
  }

  /** The order the sort gives four alerts LOW, HIGH, MEDIUM, HIGH: the two
      HIGH alerts in their input order, then MEDIUM, then LOW. */
  lemma SortExample(a1: Alert, a2: Alert, a3: Alert, a4: Alert)
    requires a1.severity == Low && a2.severity == High && a3.severity == Medium && a4.severity == High
    ensures SortBy([a1, a2, a3, a4], AlertRank) == [a2, a4, a3, a1]
  {
    SortIsBySeverity([a1, a2, a3, a4]);
    GroupsExample(a1, a2, a3, a4);
  }

  lemma GroupsExample(a1: Alert, a2: Alert, a3: Alert, a4: Alert)
    requires a1.severity == Low && a2.severity == High && a3.severity == Medium && a4.severity == High
    ensures BySeverity([a1, a2, a3, a4]) == [a2, a4, a3, a1]
  {
    ExampleHigh(a1, a2, a3, a4);
    ExampleMedium(a1, a2, a3, a4);
    ExampleLow(a1, a2, a3, a4);
  }
}
