/** The user page's helpers (js/main.js): date rendering, the quantity stepper,
    the merge and sort of `loadTools`, the optimistic update of
    `handleBorrowSubmit`, the card's action button and the status badge class. */
module ToolPage {
  import opened SheetRows
  import opened Text

  // ---------------------------------------------------------------------------
  // Dates
  // ---------------------------------------------------------------------------

  /** The parts of a JavaScript Date that the page reads: `getFullYear()`,
      the zero-based `getMonth()` and `getDate()`. */
  datatype CalendarDate = CalendarDate(year: int, month0: int, day: int)

  predicate ValidDate(d: CalendarDate)
  {
    0 <= d.month0 < 12 && 1 <= d.day <= 31
  }

  /** `String(n).padStart(2, '0')` for a non-negative number. */
  function Pad2(n: nat): string
  {
    PadStart2(NatToString(n))
  }

  /** `formatDate`: `YYYY-MM-DD`, month and day padded to two digits. */
  function FormatDate(d: CalendarDate): string
    requires ValidDate(d)
  {
    IntToString(d.year) + "-" + Pad2(d.month0 + 1) + "-" + Pad2(d.day)
  }

  /** Reads a `YYYY-MM-DD` string back, from its fixed-width tail. */
  function ParseIsoDate(s: string): CalendarDate
    requires |s| >= 6
  {
    CalendarDate(ParseNat(s[..|s| - 6]), ParseNat(s[|s| - 5..|s| - 3]) - 1, ParseNat(s[|s| - 2..]))
  }

  /** `formatDate` puts the separators in place and loses nothing: the year,
      month and day read back from the text are the date's own. */
  lemma FormatDateRoundTrip(d: CalendarDate)
    requires ValidDate(d) && d.year >= 0
    ensures var s := FormatDate(d);
      |s| >= 7 && s[|s| - 3] == '-' && s[|s| - 6] == '-' && ParseIsoDate(s) == d
  {
    Pad2RoundTrip(d.month0 + 1);
    Pad2RoundTrip(d.day);
    ParseNatToString(d.year);
    DashFields(NatToString(d.year), Pad2(d.month0 + 1), Pad2(d.day));
  }

  /** A text followed by two two-character fields, each after a '-', splits back
      into its three parts from the end. */
  lemma DashFields(y: string, m: string, dd: string)
    requires |y| >= 1 && |m| == 2 && |dd| == 2
    ensures var s := y + "-" + m + "-" + dd;
      |s| >= 7 && s[|s| - 3] == '-' && s[|s| - 6] == '-' &&
      s[..|s| - 6] == y && s[|s| - 5..|s| - 3] == m && s[|s| - 2..] == dd
  {
  }

  /** `formatDisplayDate`: `DD/MM/YY`, the year cut to its last two characters. */
  function FormatDisplayDate(d: CalendarDate): string
    requires ValidDate(d) && d.year >= 0
  {
    Pad2(d.day) + "/" + Pad2(d.month0 + 1) + "/" + LastTwo(NatToString(d.year))
  }

  function ParseDisplayDate(s: string): CalendarDate
    requires |s| == 8
  {
    CalendarDate(ParseNat(s[6..]), ParseNat(s[3..5]) - 1, ParseNat(s[..2]))
  }

  /** For a year of two digits or more, the display text is eight characters
      and reads back as the day, the month and the year modulo 100. */
  lemma FormatDisplayDateRoundTrip(d: CalendarDate)
    requires ValidDate(d) && d.year >= 10
    ensures var s := FormatDisplayDate(d);
      |s| == 8 && s[2] == '/' && s[5] == '/' &&
      ParseDisplayDate(s) == CalendarDate(d.year % 100, d.month0, d.day)
  {
    Pad2RoundTrip(d.month0 + 1);
    Pad2RoundTrip(d.day);
    LastTwoDigits(d.year);
    SlashFields(Pad2(d.day), Pad2(d.month0 + 1), LastTwo(NatToString(d.year)));
  }

  /** Three two-character fields joined by '/' sit at offsets 0, 3 and 6. */
  lemma SlashFields(a: string, b: string, c: string)
    requires |a| == 2 && |b| == 2 && |c| == 2
    ensures var s := a + "/" + b + "/" + c;
      |s| == 8 && s[2] == '/' && s[5] == '/' && s[..2] == a && s[3..5] == b && s[6..] == c
  {
  }

  // ---------------------------------------------------------------------------
  // The quantity stepper
  // ---------------------------------------------------------------------------

  /** `adjustQuantity`: the input's value plus `change`, clamped into
      [min, max], where a missing or zero `min` attribute counts as 1. */
  function AdjustQuantity(current: int, change: int, maxValue: int, minAttr: Option<int>): (r: int)
    ensures var lo := if minAttr.None? || minAttr.value == 0 then 1 else minAttr.value;
      var v := current + change;
      r >= lo &&
      (lo <= maxValue ==> r <= maxValue) &&
      (lo <= v <= maxValue ==> r == v) &&
      (v < lo || maxValue < lo ==> r == lo) &&
      (lo <= maxValue < v ==> r == maxValue)
  {
    var minValue := if minAttr.None? || minAttr.value == 0 then 1 else minAttr.value;
    var newValue := current + change;
    var capped := if newValue < maxValue then newValue else maxValue;
    if minValue > capped then minValue else capped
  }

  /** Pressing the stepper again with a zero step changes nothing: the clamp is idempotent. */
  lemma AdjustQuantityIdempotent(current: int, change: int, maxValue: int, minAttr: Option<int>)
    ensures var r := AdjustQuantity(current, change, maxValue, minAttr);
      AdjustQuantity(r, 0, maxValue, minAttr) == r
  {
  }

  // ---------------------------------------------------------------------------
  // Tools on the page
  // ---------------------------------------------------------------------------

  /** A tool as `getTools` delivers it. */
  datatype FetchedTool = FetchedTool(toolId: string, toolName: string, availableQty: Avail,
                                     location: string, status: string, unit: string, imageUrl: string)

  /** One entry of the user's active borrows. */
  datatype MyBorrow = MyBorrow(toolId: string, quantity: int)

  /** A tool as the page holds it: the fetched fields and `myBorrowedQty`. */
  datatype PageTool = PageTool(info: FetchedTool, myBorrowedQty: int)

  /** `myBorrows.find(b => b.toolId === id)`. */
  function FindBorrow(borrows: seq<MyBorrow>, id: string): Option<nat>
  {
    FirstFrom(borrows, (b: MyBorrow) => b.toolId == id, 0)
  }

  /** The `map` of `loadTools`. */
  function Merge(fetched: seq<FetchedTool>, borrows: seq<MyBorrow>): (r: seq<PageTool>)
    ensures |r| == |fetched|
    ensures forall k :: 0 <= k < |r| ==> r[k].info == fetched[k]
  {
    seq(|fetched|, k requires 0 <= k < |fetched| =>
      var b := FindBorrow(borrows, fetched[k].toolId);
      PageTool(fetched[k], if b.Some? then borrows[b.value].quantity else 0))
  }

  /** Each tool's `myBorrowedQty` is the quantity of the user's first borrow of
      that tool, and 0 when the user has none. */
  lemma MergeBorrowedQty(fetched: seq<FetchedTool>, borrows: seq<MyBorrow>, k: nat)
    requires k < |fetched|
    ensures var q := Merge(fetched, borrows)[k].myBorrowedQty;
      (forall j :: 0 <= j < |borrows| ==> borrows[j].toolId != fetched[k].toolId) ==> q == 0
    ensures forall j :: 0 <= j < |borrows| && borrows[j].toolId == fetched[k].toolId &&
                        (forall i :: 0 <= i < j ==> borrows[i].toolId != fetched[k].toolId) ==>
      Merge(fetched, borrows)[k].myBorrowedQty == borrows[j].quantity
  {
  }

  /** The sort's comparator: a tool the user holds comes before one the user does not. */
  function Compare(a: PageTool, b: PageTool): int
  {
    if a.myBorrowedQty > 0 && b.myBorrowedQty <= 0 then -1
    else if a.myBorrowedQty <= 0 && b.myBorrowedQty > 0 then 1
    else 0
  }

  predicate Mine(t: PageTool)
  {
    t.myBorrowedQty > 0
  }

  /** The tools of `s` that the user holds (or does not), in their order. */
  function FilterMine(s: seq<PageTool>, mine: bool): (r: seq<PageTool>)
    ensures |r| <= |s|
    ensures forall k :: 0 <= k < |r| ==> Mine(r[k]) == mine
  {
    if s == [] then []
    else
      var t := s[|s| - 1];
      FilterMine(s[..|s| - 1], mine) + (if Mine(t) == mine then [t] else [])
  }

  /** `tools.sort(compare)`: a stable sort, since ECMAScript 2019 requires
      `Array.prototype.sort` to keep equal elements in their original order;
      with this comparator that is the user's tools first, each group in its
      original order. */
  function SortMineFirst(s: seq<PageTool>): seq<PageTool>
  {
    FilterMine(s, true) + FilterMine(s, false)
  }

  lemma {:induction false} FilterMineSplits(s: seq<PageTool>)
    ensures multiset(FilterMine(s, true)) + multiset(FilterMine(s, false)) == multiset(s)
  {
    if s != [] {
      var init := s[..|s| - 1];
      FilterMineSplits(init);
      assert s == init + [s[|s| - 1]];
    }
  }

  /** The sorted list is a permutation of the input, is in comparator order (no
      pair is out of order), and keeps each group's original order. */
  lemma SortMineFirstIsStableSort(s: seq<PageTool>)
    ensures multiset(SortMineFirst(s)) == multiset(s)
    ensures forall i, j :: 0 <= i < j < |SortMineFirst(s)| ==> Compare(SortMineFirst(s)[i], SortMineFirst(s)[j]) <= 0
    ensures FilterMine(SortMineFirst(s), true) == FilterMine(s, true)
    ensures FilterMine(SortMineFirst(s), false) == FilterMine(s, false)
  {
    FilterMineSplits(s);
    var a := FilterMine(s, true);
    var b := FilterMine(s, false);
    FilterOfGroup(a, true);
    FilterOfGroup(b, false);
    FilterMineAppend(a, b, true);
    FilterMineAppend(a, b, false);
  }

  /** Filtering a group by its own side keeps it, and by the other side empties it. */
  lemma {:induction false} FilterOfGroup(g: seq<PageTool>, mine: bool)
    requires forall k :: 0 <= k < |g| ==> Mine(g[k]) == mine
    ensures FilterMine(g, mine) == g && FilterMine(g, !mine) == []
  {
    if g != [] {
      var init, t := g[..|g| - 1], g[|g| - 1];
      FilterOfGroup(init, mine);
      assert FilterMine(g, mine) == FilterMine(init, mine) + [t];
      assert FilterMine(g, !mine) == FilterMine(init, !mine);
      assert g == init + [t];
    }
  }

  lemma {:induction false} FilterMineAppend(a: seq<PageTool>, b: seq<PageTool>, mine: bool)
    ensures FilterMine(a + b, mine) == FilterMine(a, mine) + FilterMine(b, mine)
    decreases |b|
  {
    if b == [] {
      assert a + b == a;
    } else {
      var init, t := b[..|b| - 1], b[|b| - 1];
      var tail := if Mine(t) == mine then [t] else [];
      FilterMineAppend(a, init, mine);
      assert (a + b)[..|a + b| - 1] == a + init;
      assert (a + b)[|a + b| - 1] == t;
      assert FilterMine(a + b, mine) == FilterMine(a + init, mine) + tail;
      assert FilterMine(b, mine) == FilterMine(init, mine) + tail;
    }
  }

  /** The optimistic update of `handleBorrowSubmit`: the first tool with the id
      gains `quantity` in `myBorrowedQty` and loses it from a counted stock. A
      counted tool's stock plus the user's holding is therefore unchanged. */
  function OptimisticBorrow(tools: seq<PageTool>, toolId: string, quantity: int): (r: seq<PageTool>)
    ensures |r| == |tools|
    ensures forall k :: 0 <= k < |r| ==> r[k].info.toolId == tools[k].info.toolId
    ensures forall k :: 0 <= k < |r| && tools[k].info.availableQty.Finite? ==>
      r[k].info.availableQty.Finite? &&
      r[k].info.availableQty.n + r[k].myBorrowedQty == tools[k].info.availableQty.n + tools[k].myBorrowedQty
    ensures forall k :: 0 <= k < |r| && tools[k].info.availableQty.Many? ==> r[k].info.availableQty.Many?
    ensures forall k :: 0 <= k < |r| && Some(k) != FindPageTool(tools, toolId) ==> r[k] == tools[k]
    ensures forall i :: FindPageTool(tools, toolId) == Some(i) ==>
      r[i].myBorrowedQty == tools[i].myBorrowedQty + quantity &&
      r[i].info == tools[i].info.(availableQty := r[i].info.availableQty) &&
      (tools[i].info.availableQty.Finite? ==> r[i].info.availableQty == Finite(tools[i].info.availableQty.n - quantity))
  {
    match FindPageTool(tools, toolId)
    case None => tools
    case Some(i) =>
      var t := tools[i];
      var a := match t.info.availableQty
               case Many => Many
               case Finite(n) => Finite(n - quantity);
      tools[i := PageTool(t.info.(availableQty := a), t.myBorrowedQty + quantity)]
  }

  /** `tools.findIndex(t => t.toolId === toolId)`. */
  function FindPageTool(tools: seq<PageTool>, id: string): Option<nat>
  {
    FirstFrom(tools, (t: PageTool) => t.info.toolId == id, 0)
  }

  /** The page's global `tools` array. */
  class ToolsPage {
    var tools: seq<PageTool>

    constructor ()
      ensures tools == []
    {
      tools := [];
    }

    /** `loadTools`: merge the user's borrows into the fetched list, then sort. */
    method LoadTools(fetched: seq<FetchedTool>, borrows: seq<MyBorrow>)
      modifies this
      ensures tools == SortMineFirst(Merge(fetched, borrows))
    {
      tools := Merge(fetched, borrows);
      tools := SortMineFirst(tools);
    }

    /** The optimistic part of `handleBorrowSubmit`. */
    method BorrowSubmitted(toolId: string, quantity: int)
      modifies this
      ensures tools == OptimisticBorrow(old(tools), toolId, quantity)
    {
      var borrowedToolIndex := FindPageTool(tools, toolId);
      if borrowedToolIndex.Some? {
        var i := borrowedToolIndex.value;
        tools := tools[i := tools[i].(myBorrowedQty := tools[i].myBorrowedQty + quantity)];
        if tools[i].info.availableQty.Finite? {
          tools := tools[i := tools[i].(info := tools[i].info.(availableQty := Finite(tools[i].info.availableQty.n - quantity)))];
        }
      }
    }
  }

  // ---------------------------------------------------------------------------
  // The card
  // ---------------------------------------------------------------------------

  datatype CardAction = ReturnButton | BorrowButton | OutOfStock

  /** The button `createToolCard` shows. */
  function ChooseAction(loggedIn: bool, t: PageTool): (a: CardAction)
    ensures a == ReturnButton <==> loggedIn && Mine(t)
  {
    if loggedIn && t.myBorrowedQty > 0 then ReturnButton
    else if t.info.availableQty.Many? || t.info.availableQty.n > 0 then BorrowButton
    else OutOfStock
  }

  /** A tool the user does not hold can be borrowed exactly when the backend's
      `getTools` calls it "Available". */
  lemma BorrowButtonMeansAvailable(loggedIn: bool, t: PageTool)
    requires !(loggedIn && Mine(t))
    ensures ChooseAction(loggedIn, t) == BorrowButton <==> DerivedStatus(t.info.availableQty) == "Available"
    ensures ChooseAction(loggedIn, t) == OutOfStock <==> DerivedStatus(t.info.availableQty) == "Borrowed"
  {
  }

  /** `getStatusClass`: the badge class of a status, compared without letter
      case; anything but "borrowed" and "overdue" shows as "available". */
  function StatusClass(status: string): (c: string)
    ensures c == "available" || c == "borrowed" || c == "overdue"
    ensures Lower(status) == "borrowed" ==> c == "borrowed"
    ensures Lower(status) == "overdue" ==> c == "overdue"
    ensures Lower(status) != "borrowed" && Lower(status) != "overdue" ==> c == "available"
  {
    var s := Lower(status);
    if s == "borrowed" then "borrowed"
    else if s == "overdue" then "overdue"
    else "available"
  }

  lemma {:induction false} LowerIdempotent(s: string)
    ensures Lower(Lower(s)) == Lower(s)
  {
    assert forall i :: 0 <= i < |s| ==> LowerChar(LowerChar(s[i])) == LowerChar(s[i]);
  }

  /** Every status a tool carries on the page (the backends' "Available" and
      "Borrowed", and the mock's "Overdue") gets the class spelled as the
      status in lower case. */
  lemma StatusClassOfToolStatus(a: Avail)
    ensures StatusClass(DerivedStatus(a)) == Lower(DerivedStatus(a))
    ensures StatusClass("Overdue") == "overdue"
  {
    if DerivedStatus(a) == "Available" {
      AvailableClass();
    } else {
      BorrowedClass();
    }
    OverdueClass();
  }

  lemma AvailableClass()
    ensures Lower("Available") == "available" && StatusClass("Available") == "available"
  {
    LowerWord("Available", "available");
  }

  lemma BorrowedClass()
    ensures Lower("Borrowed") == "borrowed" && StatusClass("Borrowed") == "borrowed"
  {
    LowerWord("Borrowed", "borrowed");
  }

  lemma OverdueClass()
    ensures Lower("Overdue") == "overdue" && StatusClass("Overdue") == "overdue"
  {
    LowerWord("Overdue", "overdue");
  }

  /** The class ignores letter case. */
  lemma StatusClassIgnoresCase(status: string)
    ensures StatusClass(Lower(status)) == StatusClass(status)
  {
    LowerIdempotent(status);
  }
}
