/** The "Machines Details" sheet opened from an area of the factory map: the
    area's machines shown five to a page with Previous and Next buttons, a
    status badge per machine and one coloured dot per failure-cause flag. */
module MachineDetails {
  import opened Seqs
  import opened Machines

  const ItemsPerPage: nat := 5

  /** `Colors.accent`, the green of a healthy status or a clear flag. */
  const Accent: string := "#42B72A"
  const Red: string := "red"

  // ---------------------------------------------------------------------
  // Pages

  /** `Math.ceil(n / ITEMS_PER_PAGE)`: the fewest pages of five that hold
      `n` machines (none for an empty list). */
  function TotalPages(n: nat): (t: nat)
    ensures t * ItemsPerPage >= n
    ensures t > 0 ==> (t - 1) * ItemsPerPage < n
  {
    (n + ItemsPerPage - 1) / ItemsPerPage
  }

  /** The machines listed on page `p`:
      `machines.slice((p - 1) * ITEMS_PER_PAGE, p * ITEMS_PER_PAGE)`. */
  function PageItems<T>(ms: seq<T>, p: int): seq<T>
  {
    Slice(ms, (p - 1) * ItemsPerPage, p * ItemsPerPage)
  }

  /** Page `p >= 1` is the run of at most five machines starting at position
      `5 * (p - 1)`, in list order, cut short by the end of the list. */
  lemma PageIsRun<T>(ms: seq<T>, p: int)
    requires p >= 1
    ensures (p - 1) * ItemsPerPage <= |ms| ==>
      PageItems(ms, p) == ms[(p - 1) * ItemsPerPage .. Min(p * ItemsPerPage, |ms|)]
    ensures (p - 1) * ItemsPerPage >= |ms| ==> PageItems(ms, p) == []
    ensures |PageItems(ms, p)| <= ItemsPerPage
  {
  }

  /** Page 0, reachable only with an empty list, shows nothing whatever the
      list: its slice ends at position 0. */
  lemma PageZeroEmpty<T>(ms: seq<T>)
    ensures PageItems(ms, 0) == []
  {
  }

  /** A page at or after the first shows something exactly when its number is
      at most the page count. */
  lemma PageNonEmptyIff<T>(ms: seq<T>, p: int)
    requires p >= 1
    ensures PageItems(ms, p) != [] <==> p <= TotalPages(|ms|)
  {
    PageIsRun(ms, p);
  }

  /** Every machine is on exactly one page: the machine at position `i` is
      item `i % 5` of page `i / 5 + 1`, and no other page lists position `i`. */
  lemma MachineOnPage<T>(ms: seq<T>, i: nat)
    requires i < |ms|
    ensures var p := i / ItemsPerPage + 1;
      p <= TotalPages(|ms|) && i % ItemsPerPage < |PageItems(ms, p)| &&
      PageItems(ms, p)[i % ItemsPerPage] == ms[i]
  {
    var p := i / ItemsPerPage + 1;
    PageIsRun(ms, p);
  }

  /** The first `k` pages, one after the other. */
  function PagesUpTo<T>(ms: seq<T>, k: nat): seq<T>
  {
    if k == 0 then [] else PagesUpTo(ms, k - 1) + PageItems(ms, k)
  }

  /** The first `k` pages concatenate to the first `5 * k` machines: pages
      follow one another with no gap and no overlap. */
  lemma {:induction false} PagesUpToIsPrefix<T>(ms: seq<T>, k: nat)
    ensures PagesUpTo(ms, k) == ms[..Min(k * ItemsPerPage, |ms|)]
  {
    if k > 0 {
      PagesUpToIsPrefix(ms, k - 1);
      PageIsRun(ms, k);
      var a, b := Min((k - 1) * ItemsPerPage, |ms|), Min(k * ItemsPerPage, |ms|);
      assert ms[..b] == ms[..a] + ms[a..b];
    }
  }

  /** Paging through every page shows the whole list, in order, once. */
  lemma PagesCoverList<T>(ms: seq<T>)
    ensures PagesUpTo(ms, TotalPages(|ms|)) == ms
  {
    PagesUpToIsPrefix(ms, TotalPages(|ms|));
  }

  /** Pages never share a position: slot `i` of page `p` shows the machine
      at position `5 * (p - 1) + i`, and every slot of a later page `q` shows
      one at a later position. */
  lemma PagesDisjoint<T>(ms: seq<T>, p: int, q: int, i: nat, j: nat)
    requires 1 <= p < q
    requires i < |PageItems(ms, p)| && j < |PageItems(ms, q)|
    ensures (p - 1) * ItemsPerPage + i < (q - 1) * ItemsPerPage + j < |ms|
    ensures PageItems(ms, p)[i] == ms[(p - 1) * ItemsPerPage + i]
    ensures PageItems(ms, q)[j] == ms[(q - 1) * ItemsPerPage + j]
  {
    PageIsRun(ms, p);
    PageIsRun(ms, q);
  }

  /** The last page holds between one and five machines. */
  lemma LastPageSize<T>(ms: seq<T>)
    requires ms != []
    ensures 1 <= |PageItems(ms, TotalPages(|ms|))| <= ItemsPerPage
    ensures |PageItems(ms, TotalPages(|ms|))| == |ms| - (TotalPages(|ms|) - 1) * ItemsPerPage
  {
    PageIsRun(ms, TotalPages(|ms|));
  }

  /** Twelve machines make three pages, the third holding two of them. */
  lemma TwelveMachines<T>(ms: seq<T>)
    requires |ms| == 12
    ensures TotalPages(|ms|) == 3
    ensures PageItems(ms, 1) == ms[..5] && PageItems(ms, 3) == ms[10..]
  {
    PageIsRun(ms, 3);
  }

  // ---------------------------------------------------------------------
  // Previous and Next

  datatype Button = Previous | Next

  /** A button is disabled on the page where it would have no effect:
      Previous on page 1, Next on page `totalPages`. */
  predicate Disabled(b: Button, page: int, totalPages: nat)
  {
    match b
    case Previous => page == 1
    case Next => page == totalPages
  }

  /** The page after pressing `b`: a disabled button does nothing, Previous
      sets `Math.max(1, page - 1)`, Next sets `Math.min(totalPages, page + 1)`. */
  function Press(page: int, totalPages: nat, b: Button): int
  {
    if Disabled(b, page, totalPages) then page
    else match b
      case Previous => Max(1, page - 1)
      case Next => Min(totalPages, page + 1)
  }

  /** The pages the sheet can be on: one of the real pages, or, with no
      machines at all, page 1 (the start) or page 0. */
  predicate Reachable(page: int, totalPages: nat)
  {
    if totalPages == 0 then page == 0 || page == 1 else 1 <= page <= totalPages
  }

  /** Pressing either button keeps the page reachable. */
  lemma PressKeepsReachable(page: int, totalPages: nat, b: Button)
    requires Reachable(page, totalPages)
    ensures Reachable(Press(page, totalPages, b), totalPages)
  {
  }

  /** On a list with machines an enabled button moves exactly one page. */
  lemma PressMovesOnePage(page: int, totalPages: nat, b: Button)
    requires totalPages > 0 && Reachable(page, totalPages) && !Disabled(b, page, totalPages)
    ensures Press(page, totalPages, b) == if b == Next then page + 1 else page - 1
  {
  }

  /** With no machines the Next button is enabled on page 1 and moves to
      page 0 ("Page 0 of 0"); from there Previous goes back to page 1. */
  lemma EmptyListNext()
    ensures !Disabled(Next, 1, TotalPages(0)) && Press(1, TotalPages(0), Next) == 0
    ensures !Disabled(Previous, 0, 0) && Press(0, 0, Previous) == 1
    ensures Disabled(Next, 0, 0)
  {
  }

  /** The page after a run of presses. */
  function PressAll(page: int, totalPages: nat, bs: seq<Button>): int
    decreases |bs|
  {
    if bs == [] then page else PressAll(Press(page, totalPages, bs[0]), totalPages, bs[1..])
  }

  /** No run of presses from the first page leaves the reachable pages. */
  lemma {:induction false} PressAllReachable(page: int, totalPages: nat, bs: seq<Button>)
    requires Reachable(page, totalPages)
    ensures Reachable(PressAll(page, totalPages, bs), totalPages)
    decreases |bs|
  {
    if bs != [] {
      PressKeepsReachable(page, totalPages, bs[0]);
      PressAllReachable(Press(page, totalPages, bs[0]), totalPages, bs[1..]);
    }
  }

  /** `k` presses of Next from page `page` of a non-empty list stop at the
      last page: every page is reached, and none beyond. */
  lemma {:induction false} NextPresses(page: int, totalPages: nat, k: nat)
    requires totalPages > 0 && 1 <= page <= totalPages
    ensures PressAll(page, totalPages, seq(k, _ => Next)) == Min(page + k, totalPages)
    decreases k
  {
    if k > 0 {
      var next := Press(page, totalPages, Next);
      assert seq(k, _ => Next)[1..] == seq(k - 1, _ => Next);
      NextPresses(next, totalPages, k - 1);
    }
  }

  /** The sheet's pager: the list of the area's machines and the page shown. */
  class MachinePager {
    const machines: seq<MachineRecord>
    var currentPage: int

    ghost predicate Valid()
      reads this
    {
      Reachable(currentPage, TotalPages(|machines|))
    }

    /** `useState(1)`. */
    constructor (machines: seq<MachineRecord>)
      ensures this.machines == machines && currentPage == 1 && Valid()
    {
      this.machines := machines;
      currentPage := 1;
    }

    function Pages(): nat
      reads this
    {
      TotalPages(|machines|)
    }

    /** `paginatedMachines`. */
    function Shown(): seq<MachineRecord>
      reads this
    {
      PageItems(machines, currentPage)
    }

    method PressPrevious()
      requires Valid()
      modifies this
      ensures Valid()
      ensures currentPage == Press(old(currentPage), Pages(), Previous)
    {
      if currentPage != 1 {
        currentPage := Max(1, currentPage - 1);
      }
    }

    method PressNext()
      requires Valid()
      modifies this
      ensures Valid()
      ensures currentPage == Press(old(currentPage), Pages(), Next)
    {
      if currentPage != TotalPages(|machines|) {
        currentPage := Min(TotalPages(|machines|), currentPage + 1);
      }
    }
  }

  // ---------------------------------------------------------------------
  // Status badge and flag dots

  /** `renderMachineStatus(item.machineFailure || "0")`: a missing or empty
      failure field is shown as "0". */
  function StatusShown(m: MachineRecord): string
  {
    if m.machineFailure == "" then "0" else m.machineFailure
  }

  function StatusColor(status: string): string
  {
    if status == "0" then Accent else Red
  }

  function StatusIcon(status: string): string
  {
    if status == "0" then "checkmark-circle" else "alert-circle"
  }

  /** The badge is green with a check mark exactly when the failure field is
      "0" or missing; any other text, "1" or not, shows red with an alert. */
  lemma StatusHealthyIff(m: MachineRecord)
    ensures StatusColor(StatusShown(m)) == Accent <==> m.machineFailure == "0" || m.machineFailure == ""
    ensures StatusIcon(StatusShown(m)) == "checkmark-circle" <==> StatusColor(StatusShown(m)) == Accent
  {
  }

  /** `FailureIndicator`: the dot of one flag, green only for exactly "0". */
  function IndicatorColor(value: string): string
  {
    if value == "0" then Accent else Red
  }

  /** The five dots in the order TWF, HDF, PWF, OSF, RNF, each a label and a
      colour. */
  function Indicators(m: MachineRecord): (r: seq<(string, string)>)
    ensures |r| == |AllFlags|
    ensures forall i :: 0 <= i < |r| ==>
      r[i].0 == FlagName(AllFlags[i]) && (r[i].1 == Accent <==> FlagValue(m, AllFlags[i]) == "0")
  {
    Map(AllFlags, f => (FlagName(f), IndicatorColor(FlagValue(m, f))))
  }

  /** A raised flag always shows a red dot, and so does a missing one, even
      though a missing failure field shows a green badge. */
  lemma RaisedOrMissingShowsRed(m: MachineRecord, f: Flag)
    requires Raised(m, f) || FlagValue(m, f) == ""
    ensures IndicatorColor(FlagValue(m, f)) == Red
  {
  }

  /** The badge and the dots disagree on a record with no fields at all. */
  lemma MissingFieldsDisagree(m: MachineRecord)
    requires m.machineFailure == "" && m.twf == ""
    ensures StatusColor(StatusShown(m)) == Accent && IndicatorColor(FlagValue(m, TWF)) == Red
  {
  }
}
