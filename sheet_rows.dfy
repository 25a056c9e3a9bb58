/** The rows of the three spreadsheet tables the backends work on (Inventory,
    Transactions, Users), and the first-match / last-match row scans they all use.
    Row indices are 0-based data rows: the header row of each sheet is left out. */
module SheetRows {

  datatype Option<T> = None | Some(value: T)

  /** An "Available Qty" or "Total Qty" cell: a number, or the text "จำนวนมาก"
      ("plenty"), which marks stock that is not counted. */
  datatype Avail = Finite(n: int) | Many

  /** A row of the Inventory sheet. */
  datatype ToolRow = ToolRow(
    toolId: string, toolName: string, totalQty: Avail, availableQty: Avail,
    unit: string, location: string, imageUrl: string)

  /** The "Action" column of a transaction: "Borrow" or "Return (Unmatched)". */
  datatype TxAction = Borrow | ReturnUnmatched

  /** The "Status" column of a transaction. `ReturnedProcessing` is the
      "Returned_Processing" marker that the batch return writes only into its
      in-memory copy of the sheet, never into the sheet itself. */
  datatype TxStatus = Borrowed | Overdue | Returned | ReturnedProcessing

  /** A row of the Transactions sheet. Date cells that may hold an empty string
      or text that is not a date are `Option<int>`; `None` behaves like an
      invalid JavaScript Date, for which every comparison is false. */
  datatype TxRow = TxRow(
    txId: string, toolId: string, userId: string, action: TxAction, qty: int,
    reason: string, expectedReturn: Option<int>, actualReturn: Option<int>,
    status: TxStatus, timestamp: int, condition: string, notes: string,
    borrowImage: string, returnImage: string)

  /** A row of the Users sheet. */
  datatype UserRow = UserRow(
    userId: string, fullName: string, department: string, cohort: string,
    registered: int, role: string, pin: string)

  /** A loan that a return can still close: status "Borrowed" or "Overdue". */
  predicate IsOpen(s: TxStatus)
  {
    s == Borrowed || s == Overdue
  }

  /** The text the sheet holds for a status. */
  function StatusText(s: TxStatus): string
  {
    match s
    case Borrowed => "Borrowed"
    case Overdue => "Overdue"
    case Returned => "Returned"
    case ReturnedProcessing => "Returned_Processing"
  }

  /** The `status` that `getTools` derives for a tool from its available cell:
      "Available" when the cell is "จำนวนมาก" or a positive number, else "Borrowed". */
  function DerivedStatus(a: Avail): string
  {
    if a.Many? || a.n > 0 then "Available" else "Borrowed"
  }

  /** A forward scan `for (i = from; i < s.length; i++) if (p(s[i])) break;`. */
  function FirstFrom<T>(s: seq<T>, p: T -> bool, from: nat): (r: Option<nat>)
    requires from <= |s|
    decreases |s| - from
    ensures r.Some? ==> from <= r.value < |s| && p(s[r.value])
    ensures r.Some? ==> forall j :: from <= j < r.value ==> !p(s[j])
    ensures r.None? ==> forall j :: from <= j < |s| ==> !p(s[j])
  {
    if from == |s| then None
    else if p(s[from]) then Some(from)
    else FirstFrom(s, p, from + 1)
  }

  /** A backward scan over the indices below `below`, newest row first. */
  function LastBelow<T>(s: seq<T>, p: T -> bool, below: nat): (r: Option<nat>)
    requires below <= |s|
    ensures r.Some? ==> r.value < below && p(s[r.value])
    ensures r.Some? ==> forall j :: r.value < j < below ==> !p(s[j])
    ensures r.None? ==> forall j :: 0 <= j < below ==> !p(s[j])
  {
    if below == 0 then None
    else if p(s[below - 1]) then Some(below - 1)
    else LastBelow(s, p, below - 1)
  }

  predicate HasToolId(t: ToolRow, id: string)
  {
    t.toolId == id
  }

  /** The first Inventory row whose Tool ID is `id`. */
  function FindTool(inv: seq<ToolRow>, id: string): (r: Option<nat>)
    ensures r.Some? ==> r.value < |inv| && inv[r.value].toolId == id
    ensures r.Some? ==> forall j :: 0 <= j < r.value ==> inv[j].toolId != id
    ensures r.None? ==> forall j :: 0 <= j < |inv| ==> inv[j].toolId != id
  {
    FirstFrom(inv, t => HasToolId(t, id), 0)
  }

  /** The first Users row whose User ID is `id`. */
  function FindUser(users: seq<UserRow>, id: string): (r: Option<nat>)
    ensures r.Some? ==> r.value < |users| && users[r.value].userId == id
    ensures r.Some? ==> forall j :: 0 <= j < r.value ==> users[j].userId != id
    ensures r.None? ==> forall j :: 0 <= j < |users| ==> users[j].userId != id
  {
    FirstFrom(users, (u: UserRow) => u.userId == id, 0)
  }

  /** A transaction row that a return of `toolId` by `userId` can close. */
  predicate IsOpenLoan(t: TxRow, toolId: string, userId: string)
  {
    t.toolId == toolId && t.userId == userId && IsOpen(t.status)
  }

  /** The newest open loan of `toolId` by `userId`, scanning from the last row backwards. */
  function LastOpenLoan(tx: seq<TxRow>, toolId: string, userId: string): (r: Option<nat>)
    ensures r.Some? ==> r.value < |tx| && IsOpenLoan(tx[r.value], toolId, userId)
    ensures r.Some? ==> forall j :: r.value < j < |tx| ==> !IsOpenLoan(tx[j], toolId, userId)
    ensures r.None? ==> forall j :: 0 <= j < |tx| ==> !IsOpenLoan(tx[j], toolId, userId)
  {
    LastBelow(tx, t => IsOpenLoan(t, toolId, userId), |tx|)
  }

  /** The rows of `tx` that are open loans of `userId`, in sheet order (the
      filter of `getUserActiveBorrows`). */
  function OpenLoansOf(tx: seq<TxRow>, userId: string): (r: seq<TxRow>)
    ensures |r| <= |tx|
  {
    if tx == [] then []
    else
      var t := tx[|tx| - 1];
      OpenLoansOf(tx[..|tx| - 1], userId) + (if t.userId == userId && IsOpen(t.status) then [t] else [])
  }

  /** A row is listed iff it is a row of the sheet that belongs to the user and
      is still open. */
  lemma {:induction false} OpenLoansOfMeaning(tx: seq<TxRow>, userId: string)
    ensures forall t :: t in OpenLoansOf(tx, userId) <==> t in tx && t.userId == userId && IsOpen(t.status)
  {
    if tx != [] {
      var prefix := tx[..|tx| - 1];
      OpenLoansOfMeaning(prefix, userId);
      assert tx == prefix + [tx[|tx| - 1]];
    }
  }

  /** The newest `cap` entries of `s`, newest first. */
  function NewestFirst<T>(s: seq<T>, cap: nat): (r: seq<T>)
    ensures |r| == if |s| < cap then |s| else cap
    ensures forall k :: 0 <= k < |r| ==> r[k] == s[|s| - 1 - k]
  {
    if |s| == 0 || cap == 0 then [] else [s[|s| - 1]] + NewestFirst(s[..|s| - 1], cap - 1)
  }
}
