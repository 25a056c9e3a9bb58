/** What `borrowToolBatch` and `returnToolBatch` of the batch backend
    (Reference/google_apps_script_v2_batch.js) compute, as functions of the sheet
    contents they read, and the properties of those functions. The handlers
    themselves, with their loops, are in module BatchBackend. */
module BatchSpec {
  import opened SheetRows

  // ---------------------------------------------------------------------------
  // Batch borrow
  // ---------------------------------------------------------------------------

  /** One entry of `items` in a borrow request; `imageUrl` is the URL that the
      Drive upload gave (or its "Upload Error: ..." text, or "" without image). */
  datatype BorrowLine = BorrowLine(toolId: string, quantity: int, imageUrl: string)

  /** The two errors of the validation phase. */
  datatype BorrowError = ToolNotFound(toolId: string) | NotEnoughStock(toolId: string)

  /** An entry of `inventoryUpdates`: take `qty` off the available cell of `row`. */
  datatype Deduction = Deduction(row: nat, qty: int)

  /** `inventoryUpdates` once the validation phase has accepted every line of
      `lines`: one deduction per line whose tool row is counted (not "จำนวนมาก"). */
  function Deductions(inv: seq<ToolRow>, lines: seq<BorrowLine>): (r: seq<Deduction>)
    ensures forall k :: 0 <= k < |r| ==> r[k].row < |inv| && inv[r[k].row].availableQty.Finite?
  {
    if lines == [] then []
    else
      var prior := Deductions(inv, lines[..|lines| - 1]);
      var line := lines[|lines| - 1];
      match FindTool(inv, line.toolId)
      case None => prior
      case Some(i) => if inv[i].availableQty.Many? then prior else prior + [Deduction(i, line.quantity)]
  }

  /** `pendingDeduction`: the quantities in `updates` that fall on `row`, summed. */
  function Pending(updates: seq<Deduction>, row: nat): int
  {
    if updates == [] then 0
    else
      var u := updates[|updates| - 1];
      Pending(updates[..|updates| - 1], row) + (if u.row == row then u.qty else 0)
  }

  /** The validation of line `k`, after the lines before it have passed. */
  function CheckLine(inv: seq<ToolRow>, lines: seq<BorrowLine>, k: nat): Option<BorrowError>
    requires k < |lines|
  {
    var line := lines[k];
    match FindTool(inv, line.toolId)
    case None => Some(ToolNotFound(line.toolId))
    case Some(i) =>
      match inv[i].availableQty
      case Many => None
      case Finite(n) =>
        if n - Pending(Deductions(inv, lines[..k]), i) < line.quantity
        then Some(NotEnoughStock(line.toolId))
        else None
  }

  /** The validation phase: the error of the first line that fails, if any. */
  function Validate(inv: seq<ToolRow>, lines: seq<BorrowLine>): Option<BorrowError>
  {
    if lines == [] then None
    else
      var prior := Validate(inv, lines[..|lines| - 1]);
      if prior.Some? then prior else CheckLine(inv, lines, |lines| - 1)
  }

  /** The execution phase on the Inventory sheet: each deduction in turn is
      taken off the current value of its cell. */
  function ApplyDeductions(inv: seq<ToolRow>, updates: seq<Deduction>): (r: seq<ToolRow>)
    ensures |r| == |inv|
  {
    if updates == [] then inv
    else
      var prior := ApplyDeductions(inv, updates[..|updates| - 1]);
      var u := updates[|updates| - 1];
      if u.row < |prior| && prior[u.row].availableQty.Finite?
      then prior[u.row := prior[u.row].(availableQty := Finite(prior[u.row].availableQty.n - u.qty))]
      else prior
  }

  /** The total quantity that `lines` ask of tool `id`. */
  function SumQty(lines: seq<BorrowLine>, id: string): int
  {
    if lines == [] then 0
    else
      var line := lines[|lines| - 1];
      SumQty(lines[..|lines| - 1], id) + (if line.toolId == id then line.quantity else 0)
  }

  /** The Transactions row appended for one borrowed line. */
  function BorrowRow(line: BorrowLine, txId: string, userId: string, reason: string,
                     expected: Option<int>, timestamp: int): TxRow
  {
    TxRow(txId, line.toolId, userId, Borrow, line.quantity, reason, expected, None,
          Borrowed, timestamp, "", "", line.imageUrl, "")
  }

  /** The rows appended by a successful batch borrow, one per line, in line order;
      `txIds` are the UUIDs drawn for them. */
  function BorrowRows(lines: seq<BorrowLine>, txIds: seq<string>, userId: string, reason: string,
                      expected: Option<int>, timestamp: int): (r: seq<TxRow>)
    requires |txIds| == |lines|
    ensures |r| == |lines|
    ensures forall k :: 0 <= k < |r| ==>
      r[k].toolId == lines[k].toolId && r[k].qty == lines[k].quantity && r[k].userId == userId &&
      r[k].action == Borrow && r[k].status == Borrowed && r[k].reason == reason &&
      r[k].expectedReturn == expected && r[k].actualReturn == None &&
      r[k].condition == "" && r[k].notes == "" && r[k].returnImage == ""
  {
    seq(|lines|, k requires 0 <= k < |lines| => BorrowRow(lines[k], txIds[k], userId, reason, expected, timestamp))
  }

  // --- lemmas about the batch borrow -----------------------------------------

  /** The deductions pending on a counted row are exactly the quantities of the
      lines for that row's tool. */
  lemma {:induction false} PendingIsSumOfLines(inv: seq<ToolRow>, lines: seq<BorrowLine>, i: nat)
    requires i < |inv| && inv[i].availableQty.Finite? && FindTool(inv, inv[i].toolId) == Some(i)
    ensures Pending(Deductions(inv, lines), i) == SumQty(lines, inv[i].toolId)
  {
    if lines != [] {
      var prefix := lines[..|lines| - 1];
      var line := lines[|lines| - 1];
      var prior := Deductions(inv, prefix);
      PendingIsSumOfLines(inv, prefix, i);
      match FindTool(inv, line.toolId)
      case None =>
        assert line.toolId != inv[i].toolId;
      case Some(j) =>
        if !inv[j].availableQty.Many? {
          var d := Deduction(j, line.quantity);
          assert (prior + [d])[..|prior|] == prior;
          assert j == i <==> line.toolId == inv[i].toolId;
        } else {
          assert j != i;
          assert line.toolId != inv[i].toolId;
        }
    }
  }

  /** No deduction falls on a row that is "จำนวนมาก" or that is not the first
      row carrying its Tool ID. */
  lemma {:induction false} PendingOnUncountedRow(inv: seq<ToolRow>, lines: seq<BorrowLine>, i: nat)
    requires i < |inv|
    requires inv[i].availableQty.Many? || FindTool(inv, inv[i].toolId) != Some(i)
    ensures Pending(Deductions(inv, lines), i) == 0
  {
    if lines != [] {
      var prefix := lines[..|lines| - 1];
      var line := lines[|lines| - 1];
      var prior := Deductions(inv, prefix);
      PendingOnUncountedRow(inv, prefix, i);
      match FindTool(inv, line.toolId)
      case None =>
      case Some(j) =>
        if !inv[j].availableQty.Many? {
          var d := Deduction(j, line.quantity);
          assert (prior + [d])[..|prior|] == prior;
        }
    }
  }

  /** Applying deductions takes from each counted row exactly what is pending on
      it, and changes nothing else. */
  lemma {:induction false} ApplyDeductionsAt(inv: seq<ToolRow>, updates: seq<Deduction>, i: nat)
    requires i < |inv|
    ensures ApplyDeductions(inv, updates)[i] ==
      match inv[i].availableQty
      case Many => inv[i]
      case Finite(n) => inv[i].(availableQty := Finite(n - Pending(updates, i)))
  {
    if updates != [] {
      ApplyDeductionsAt(inv, updates[..|updates| - 1], i);
    }
  }

  /** Line `k` of a batch borrow fails iff its tool is unknown, or its row is
      counted and the row's available quantity minus what the earlier lines ask
      of the same tool is less than the line's quantity. */
  lemma CheckLineMeaning(inv: seq<ToolRow>, lines: seq<BorrowLine>, k: nat)
    requires k < |lines|
    ensures FindTool(inv, lines[k].toolId).None? ==> CheckLine(inv, lines, k) == Some(ToolNotFound(lines[k].toolId))
    ensures FindTool(inv, lines[k].toolId).Some? ==>
      var a := inv[FindTool(inv, lines[k].toolId).value].availableQty;
      (CheckLine(inv, lines, k).None? <==> a.Many? || a.n - SumQty(lines[..k], lines[k].toolId) >= lines[k].quantity) &&
      (CheckLine(inv, lines, k).Some? ==> CheckLine(inv, lines, k) == Some(NotEnoughStock(lines[k].toolId)))
  {
    var f := FindTool(inv, lines[k].toolId);
    if f.Some? && inv[f.value].availableQty.Finite? {
      PendingIsSumOfLines(inv, lines[..k], f.value);
    }
  }

  /** Validating a longer request does not change the verdict on an earlier line. */
  lemma CheckLinePrefix(inv: seq<ToolRow>, lines: seq<BorrowLine>, m: nat, k: nat)
    requires k < m <= |lines|
    ensures CheckLine(inv, lines[..m], k) == CheckLine(inv, lines, k)
  {
    assert lines[..m][..k] == lines[..k];
  }

  /** Once a prefix of the request has failed, the whole request fails with
      that prefix's error: validation stops at the first failing line. */
  lemma {:induction false} ValidateStopsAtFirstError(inv: seq<ToolRow>, lines: seq<BorrowLine>, m: nat)
    requires m <= |lines| && Validate(inv, lines[..m]).Some?
    ensures Validate(inv, lines) == Validate(inv, lines[..m])
  {
    if m < |lines| {
      var n := |lines| - 1;
      assert lines[..n][..m] == lines[..m];
      ValidateStopsAtFirstError(inv, lines[..n], m);
    } else {
      assert lines[..m] == lines;
    }
  }

  /** Validating one more line: once the lines before it have passed, the
      request's verdict is that line's, and a counted tool row adds one
      deduction for it. */
  lemma ValidateStep(inv: seq<ToolRow>, lines: seq<BorrowLine>, k: nat)
    requires k < |lines| && Validate(inv, lines[..k]).None?
    ensures Validate(inv, lines[..k + 1]) == CheckLine(inv, lines, k)
    ensures Deductions(inv, lines[..k + 1]) ==
      match FindTool(inv, lines[k].toolId)
      case None => Deductions(inv, lines[..k])
      case Some(i) =>
        if inv[i].availableQty.Many? then Deductions(inv, lines[..k])
        else Deductions(inv, lines[..k]) + [Deduction(i, lines[k].quantity)]
  {
    assert lines[..k + 1][..k] == lines[..k];
    CheckLinePrefix(inv, lines, k + 1, k);
  }

  /** The batch passes validation iff every line passes; when it fails, the
      error is that of the first failing line. */
  lemma {:induction false} ValidateMeaning(inv: seq<ToolRow>, lines: seq<BorrowLine>)
    ensures Validate(inv, lines).None? <==> forall k :: 0 <= k < |lines| ==> CheckLine(inv, lines, k).None?
    ensures Validate(inv, lines).Some? ==>
      exists k :: 0 <= k < |lines| && CheckLine(inv, lines, k) == Validate(inv, lines) &&
        forall j :: 0 <= j < k ==> CheckLine(inv, lines, j).None?
  {
    if lines != [] {
      var n := |lines| - 1;
      var prefix := lines[..n];
      ValidateMeaning(inv, prefix);
      forall k | 0 <= k < n
        ensures CheckLine(inv, prefix, k) == CheckLine(inv, lines, k)
      {
        CheckLinePrefix(inv, lines, n, k);
      }
    }
  }

  /** After a successful batch borrow every counted row has lost exactly the sum
      of the quantities asked of its tool; "จำนวนมาก" rows, rows that repeat an
      earlier Tool ID, and all other cells keep their values. */
  lemma BorrowStockEffect(inv: seq<ToolRow>, lines: seq<BorrowLine>, i: nat)
    requires i < |inv|
    ensures |ApplyDeductions(inv, Deductions(inv, lines))| == |inv|
    ensures ApplyDeductions(inv, Deductions(inv, lines))[i] ==
      if inv[i].availableQty.Finite? && FindTool(inv, inv[i].toolId) == Some(i)
      then inv[i].(availableQty := Finite(inv[i].availableQty.n - SumQty(lines, inv[i].toolId)))
      else inv[i]
  {
    ApplyDeductionsAt(inv, Deductions(inv, lines), i);
    if inv[i].availableQty.Finite? && FindTool(inv, inv[i].toolId) == Some(i) {
      PendingIsSumOfLines(inv, lines, i);
    } else {
      PendingOnUncountedRow(inv, lines, i);
    }
  }

  /** A batch that passes validation never takes a counted row below zero:
      whatever its lines ask of a tool, in total, was available. */
  lemma {:induction false} BorrowNeverOversells(inv: seq<ToolRow>, lines: seq<BorrowLine>, i: nat, k: nat)
    requires Validate(inv, lines).None?
    requires i < |inv| && inv[i].availableQty.Finite? && FindTool(inv, inv[i].toolId) == Some(i)
    requires k < |lines| && lines[k].toolId == inv[i].toolId
    ensures inv[i].availableQty.n - SumQty(lines, inv[i].toolId) >= 0
  {
    var n := |lines| - 1;
    var prefix := lines[..n];
    CheckLineMeaning(inv, lines, n);
    if k < n {
      assert prefix[k] == lines[k];
      BorrowNeverOversells(inv, prefix, i, k);
    }
  }

  /** A batch of one line (the legacy `borrowTool`) passes iff its tool is known
      and its row is "จำนวนมาก" or holds at least the quantity asked. */
  lemma SingleLineBorrow(inv: seq<ToolRow>, line: BorrowLine)
    ensures Validate(inv, [line]).None? <==>
      FindTool(inv, line.toolId).Some? &&
      (inv[FindTool(inv, line.toolId).value].availableQty.Many? ||
       inv[FindTool(inv, line.toolId).value].availableQty.n >= line.quantity)
  {
    assert [line][..0] == [];
    CheckLineMeaning(inv, [line], 0);
  }

  // ---------------------------------------------------------------------------
  // Batch return
  // ---------------------------------------------------------------------------

  /** One entry of `items` in a return request; `imageUrl` is the upload's result. */
  datatype ReturnLine = ReturnLine(toolId: string, condition: string, notes: string, imageUrl: string)

  /** The state a batch return works on: the live Inventory and Transactions
      sheets, and `memo`, its in-memory copy of the Transactions sheet in which
      matched rows are marked "Returned_Processing". */
  datatype ReturnState = ReturnState(inv: seq<ToolRow>, sheet: seq<TxRow>, memo: seq<TxRow>)

  predicate IsCountedRowOf(t: ToolRow, id: string)
  {
    t.toolId == id && t.availableQty.Finite?
  }

  /** The first Inventory row with Tool ID `id` whose cell is not "จำนวนมาก". */
  function FindCountedTool(inv: seq<ToolRow>, id: string): (r: Option<nat>)
    ensures r.Some? ==> r.value < |inv| && IsCountedRowOf(inv[r.value], id)
    ensures r.Some? ==> forall j :: 0 <= j < r.value ==> !IsCountedRowOf(inv[j], id)
    ensures r.None? ==> forall j :: 0 <= j < |inv| ==> !IsCountedRowOf(inv[j], id)
  {
    FirstFrom(inv, t => IsCountedRowOf(t, id), 0)
  }

  /** A transaction row once a return has closed it. */
  function CloseLoan(t: TxRow, line: ReturnLine, timestamp: int): TxRow
  {
    t.(actualReturn := Some(timestamp), status := Returned, condition := line.condition,
       notes := line.notes, returnImage := line.imageUrl)
  }

  /** A counted inventory row with `qty` put back, without any cap. */
  function Restock(t: ToolRow, qty: int): ToolRow
  {
    match t.availableQty
    case Finite(n) => t.(availableQty := Finite(n + qty))
    case Many => t
  }

  predicate Aligned(snapshot: seq<ToolRow>, st: ReturnState)
  {
    |st.inv| == |snapshot| && |st.sheet| == |st.memo|
  }

  /** One line of a batch return. `snapshot` is the Inventory read at the start
      of the request, in which the tool's row is looked up. */
  function ReturnStep(snapshot: seq<ToolRow>, st: ReturnState, line: ReturnLine,
                      userId: string, timestamp: int): (r: ReturnState)
    requires Aligned(snapshot, st)
    ensures Aligned(snapshot, r) && |r.memo| == |st.memo|
    ensures LastOpenLoan(st.memo, line.toolId, userId).None? ==> r == st
    ensures LastOpenLoan(st.memo, line.toolId, userId).Some? ==>
      var m := LastOpenLoan(st.memo, line.toolId, userId).value;
      r.memo[m].status == ReturnedProcessing &&
      r.sheet[m] == CloseLoan(st.sheet[m], line, timestamp) &&
      (forall j :: 0 <= j < |st.memo| && j != m ==> r.memo[j] == st.memo[j] && r.sheet[j] == st.sheet[j])
  {
    match LastOpenLoan(st.memo, line.toolId, userId)
    case None => st
    case Some(m) =>
      var qty := st.memo[m].qty;
      var inv := match FindCountedTool(snapshot, line.toolId)
                 case None => st.inv
                 case Some(j) => st.inv[j := Restock(st.inv[j], qty)];
      ReturnState(inv, st.sheet[m := CloseLoan(st.sheet[m], line, timestamp)],
                  st.memo[m := st.memo[m].(status := ReturnedProcessing)])
  }

  /** The lines of a batch return, applied in order. */
  function ReturnAll(snapshot: seq<ToolRow>, st: ReturnState, lines: seq<ReturnLine>,
                     userId: string, timestamp: int): (r: ReturnState)
    requires Aligned(snapshot, st)
    ensures Aligned(snapshot, r) && |r.memo| == |st.memo|
  {
    if lines == [] then st
    else ReturnStep(snapshot, ReturnAll(snapshot, st, lines[..|lines| - 1], userId, timestamp),
                    lines[|lines| - 1], userId, timestamp)
  }

  // --- lemmas about the batch return -----------------------------------------

  /** A matched return puts the loan's recorded quantity back on the first
      counted row of the tool, uncapped, and touches no other inventory row;
      an unmatched line changes nothing at all. */
  lemma ReturnStepStock(snapshot: seq<ToolRow>, st: ReturnState, line: ReturnLine,
                        userId: string, timestamp: int, i: nat)
    requires Aligned(snapshot, st) && i < |st.inv|
    ensures var r := ReturnStep(snapshot, st, line, userId, timestamp);
      r.inv[i] ==
        if LastOpenLoan(st.memo, line.toolId, userId).Some? && FindCountedTool(snapshot, line.toolId) == Some(i)
        then Restock(st.inv[i], st.memo[LastOpenLoan(st.memo, line.toolId, userId).value].qty)
        else st.inv[i]
  {
  }

  /** Two backward scans agree when the rows they see agree. */
  lemma {:induction false} LastBelowSame(s: seq<TxRow>, t: seq<TxRow>, p: TxRow -> bool, below: nat)
    requires below <= |s| && below <= |t|
    requires forall j :: 0 <= j < below ==> p(s[j]) == p(t[j])
    ensures LastBelow(s, p, below) == LastBelow(t, p, below)
  {
    if below > 0 {
      LastBelowSame(s, t, p, below - 1);
    }
  }

  /** A backward scan passes over rows that do not match. */
  lemma {:induction false} LastBelowSkip(s: seq<TxRow>, p: TxRow -> bool, below: nat, m: nat)
    requires m <= below <= |s|
    requires forall j :: m <= j < below ==> !p(s[j])
    ensures LastBelow(s, p, below) == LastBelow(s, p, m)
  {
    if below > m {
      LastBelowSkip(s, p, below - 1, m);
    }
  }

  /** Marking the matched row in memory makes a later line for the same tool
      and user match the next-older open loan, so two lines close two loans. */
  lemma NextLineMatchesOlderLoan(snapshot: seq<ToolRow>, st: ReturnState, line: ReturnLine,
                                 userId: string, timestamp: int)
    requires Aligned(snapshot, st)
    requires LastOpenLoan(st.memo, line.toolId, userId).Some?
    ensures var m := LastOpenLoan(st.memo, line.toolId, userId).value;
      var r := ReturnStep(snapshot, st, line, userId, timestamp);
      LastOpenLoan(r.memo, line.toolId, userId) ==
        LastBelow(st.memo, t => IsOpenLoan(t, line.toolId, userId), m)
  {
    var m := LastOpenLoan(st.memo, line.toolId, userId).value;
    var r := ReturnStep(snapshot, st, line, userId, timestamp);
    var p := (t: TxRow) => IsOpenLoan(t, line.toolId, userId);
    LastBelowSkip(r.memo, p, |r.memo|, m);
    LastBelowSame(r.memo, st.memo, p, m);
  }

  /** The sheet and its in-memory copy agree on which rows are open loans. */
  predicate OpenAgrees(st: ReturnState)
  {
    |st.sheet| == |st.memo| &&
    forall j :: 0 <= j < |st.memo| ==> IsOpen(st.sheet[j].status) == IsOpen(st.memo[j].status)
  }

  /** No row of the sheet holds the in-memory marker. */
  predicate MarkerFree(rows: seq<TxRow>)
  {
    forall j :: 0 <= j < |rows| ==> rows[j].status != ReturnedProcessing
  }

  /** A batch return keeps the sheet free of the "Returned_Processing" marker,
      and keeps the sheet and its in-memory copy in agreement on open loans, so
      every row it closes in the sheet was an open loan there. */
  lemma {:induction false} ReturnAllKeepsSheet(snapshot: seq<ToolRow>, st: ReturnState, lines: seq<ReturnLine>,
                                               userId: string, timestamp: int)
    requires Aligned(snapshot, st) && OpenAgrees(st) && MarkerFree(st.sheet)
    ensures var r := ReturnAll(snapshot, st, lines, userId, timestamp);
      OpenAgrees(r) && MarkerFree(r.sheet)
  {
    if lines != [] {
      ReturnAllKeepsSheet(snapshot, st, lines[..|lines| - 1], userId, timestamp);
    }
  }
}
