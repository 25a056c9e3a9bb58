/** The batch backend (Reference/google_apps_script_v2_batch.js): the workbook's
    Inventory, Transactions, Users and ActivityLogs sheets, and the handlers that
    change them. Each handler runs under the script lock in the source; here it is
    one method over the sheets. The read-only handlers work on the snapshot that
    `getDataRange().getValues()` returns, so they take the sheet as a value. */
module BatchBackend {
  import opened SheetRows
  import opened BatchSpec

  /** A row of the ActivityLogs sheet, and an entry of `getAdminLogs`. */
  datatype LogRow = LogRow(time: int, action: string, user: string)

  /** A handler's JSON reply: `{success: true}` (with a `message` where the
      handler sends one, else "") or `{error: ...}`. */
  datatype Reply = Ok(message: string) | Err(error: string)

  /** The error text of a failed batch borrow. */
  function BorrowErrorText(e: BorrowError): string
  {
    match e
    case ToolNotFound(id) => "Tool ID not found: " + id
    case NotEnoughStock(id) => "Not enough stock for tool ID: " + id
  }

  class Workbook {
    var inventory: seq<ToolRow>
    var transactions: seq<TxRow>
    var users: seq<UserRow>
    var logs: seq<LogRow>

    constructor (inventory: seq<ToolRow>, transactions: seq<TxRow>, users: seq<UserRow>, logs: seq<LogRow>)
      ensures this.inventory == inventory && this.transactions == transactions
      ensures this.users == users && this.logs == logs
    {
      this.inventory := inventory;
      this.transactions := transactions;
      this.users := users;
      this.logs := logs;
    }

    /** `borrowToolBatch`: validate every line against the Inventory read at the
        start (a line's stock is reduced by what earlier lines of the same request
        take from the same row), and only if all pass, deduct the stock and append
        one "Borrow" row per line. `txIds` are the UUIDs drawn for the new rows. */
    method BorrowToolBatch(userId: string, reason: string, expected: Option<int>,
                           lines: seq<BorrowLine>, txIds: seq<string>, timestamp: int)
      returns (r: Reply)
      requires |txIds| == |lines|
      modifies this
      ensures Validate(old(inventory), lines).Some? ==>
        r == Err(BorrowErrorText(Validate(old(inventory), lines).value)) &&
        inventory == old(inventory) && transactions == old(transactions)
      ensures Validate(old(inventory), lines).None? ==>
        r == Ok("") &&
        inventory == ApplyDeductions(old(inventory), Deductions(old(inventory), lines)) &&
        transactions == old(transactions) + BorrowRows(lines, txIds, userId, reason, expected, timestamp)
      ensures users == old(users) && logs == old(logs)
    {
      var invData := inventory;
      // 1. Validation phase
      var failure, itemsToProcess, inventoryUpdates := ValidateBorrowLines(invData, lines);
      if failure.Some? {
        return Err(BorrowErrorText(failure.value));
      }

      // 2. Execution phase
      ApplyInventoryUpdates(inventoryUpdates);
      AppendBorrowRows(userId, reason, expected, itemsToProcess, txIds, timestamp);
      return Ok("");
    }

    /** The execution phase of `borrowToolBatch` on the Inventory sheet: each
        update takes its quantity off the current value of its cell. */
    method ApplyInventoryUpdates(inventoryUpdates: seq<Deduction>)
      requires forall k :: 0 <= k < |inventoryUpdates| ==>
        inventoryUpdates[k].row < |inventory| && inventory[inventoryUpdates[k].row].availableQty.Finite?
      modifies this
      ensures inventory == ApplyDeductions(old(inventory), inventoryUpdates)
      ensures transactions == old(transactions) && users == old(users) && logs == old(logs)
    {
      ghost var invData := inventory;
      var u := 0;
      while u < |inventoryUpdates|
        invariant 0 <= u <= |inventoryUpdates|
        invariant inventory == ApplyDeductions(invData, inventoryUpdates[..u])
        invariant transactions == old(transactions) && users == old(users) && logs == old(logs)
      {
        var update := inventoryUpdates[u];
        assert inventoryUpdates[..u + 1][..u] == inventoryUpdates[..u];
        ApplyDeductionsAt(invData, inventoryUpdates[..u], update.row);
        var cell := inventory[update.row].availableQty.n;
        inventory := inventory[update.row := inventory[update.row].(availableQty := Finite(cell - update.qty))];
        u := u + 1;
      }
      assert inventoryUpdates[..|inventoryUpdates|] == inventoryUpdates;
    }

    /** The execution phase of `borrowToolBatch` on the Transactions sheet: one
        "Borrow" row per line, in line order. */
    method AppendBorrowRows(userId: string, reason: string, expected: Option<int>,
                            itemsToProcess: seq<BorrowLine>, txIds: seq<string>, timestamp: int)
      requires |txIds| == |itemsToProcess|
      modifies this
      ensures transactions == old(transactions) + BorrowRows(itemsToProcess, txIds, userId, reason, expected, timestamp)
      ensures inventory == old(inventory) && users == old(users) && logs == old(logs)
    {
      var t := 0;
      while t < |itemsToProcess|
        invariant 0 <= t <= |itemsToProcess|
        invariant |transactions| == |old(transactions)| + t
        invariant transactions[..|old(transactions)|] == old(transactions)
        invariant forall j :: 0 <= j < t ==>
          transactions[|old(transactions)| + j] == BorrowRow(itemsToProcess[j], txIds[j], userId, reason, expected, timestamp)
        invariant inventory == old(inventory) && users == old(users) && logs == old(logs)
      {
        var item := itemsToProcess[t];
        transactions := transactions + [BorrowRow(item, txIds[t], userId, reason, expected, timestamp)];
        t := t + 1;
      }
    }

    /** `returnToolBatch`: for each line, close the newest open loan of that tool
        by the user (marking it in the in-memory copy, so that a later line for the
        same tool finds the next-older loan), put its recorded quantity back on the
        tool's first counted row, and record the return on that transaction row.
        A line without an open loan is skipped. */
    method ReturnToolBatch(userId: string, lines: seq<ReturnLine>, timestamp: int) returns (r: Reply)
      modifies this
      ensures r == Ok("")
      ensures var st := ReturnAll(old(inventory), ReturnState(old(inventory), old(transactions), old(transactions)),
                                  lines, userId, timestamp);
        inventory == st.inv && transactions == st.sheet
      ensures users == old(users) && logs == old(logs)
    {
      var transData := transactions;
      var invData := inventory;
      ghost var start := ReturnState(invData, transData, transData);
      var k := 0;
      while k < |lines|
        invariant 0 <= k <= |lines|
        invariant ReturnState(inventory, transactions, transData) == ReturnAll(invData, start, lines[..k], userId, timestamp)
        invariant |inventory| == |invData| && |transactions| == |transData|
        invariant forall j :: 0 <= j < |invData| ==> inventory[j].availableQty.Finite? == invData[j].availableQty.Finite?
        invariant users == old(users) && logs == old(logs)
      {
        var item := lines[k];
        assert lines[..k + 1][..k] == lines[..k];
        transData := ReturnOneLine(invData, transData, item, userId, timestamp);
        k := k + 1;
      }
      assert lines[..|lines|] == lines;
      return Ok("");
    }

    /** One line of `returnToolBatch`: find the newest open loan in the in-memory
        copy `transData`, mark it there, restock the tool's first counted row of
        the Inventory read at the start, and record the return on the sheet.
        Returns the updated in-memory copy. */
    method ReturnOneLine(invData: seq<ToolRow>, transData: seq<TxRow>, item: ReturnLine,
                         userId: string, timestamp: int) returns (memo: seq<TxRow>)
      requires |inventory| == |invData| && |transactions| == |transData|
      requires forall j :: 0 <= j < |invData| ==> inventory[j].availableQty.Finite? == invData[j].availableQty.Finite?
      modifies this
      ensures ReturnState(inventory, transactions, memo) ==
        ReturnStep(invData, ReturnState(old(inventory), old(transactions), transData), item, userId, timestamp)
      ensures forall j :: 0 <= j < |invData| ==> inventory[j].availableQty.Finite? == invData[j].availableQty.Finite?
      ensures users == old(users) && logs == old(logs)
    {
      memo := transData;
      // Search backwards for the latest open loan
      var transRow := FindOpenLoan(transData, item.toolId, userId);
      if transRow != -1 {
        var borrowedQty := transData[transRow].qty;
        memo := transData[transRow := transData[transRow].(status := ReturnedProcessing)];
        // Update Inventory: the first row of the tool that is not "จำนวนมาก"
        var j := FindCountedRow(invData, item.toolId);
        if j != -1 {
          var currentVal := inventory[j].availableQty.n;
          inventory := inventory[j := inventory[j].(availableQty := Finite(currentVal + borrowedQty))];
        }
        // Update Transaction
        transactions := transactions[transRow := transactions[transRow].(
          actualReturn := Some(timestamp), status := Returned, condition := item.condition,
          notes := item.notes, returnImage := item.imageUrl)];
      }
    }

    /** The legacy `borrowTool`: a batch of one line. */
    method BorrowTool(userId: string, toolId: string, quantity: int, imageUrl: string, reason: string,
                      expected: Option<int>, txId: string, timestamp: int) returns (r: Reply)
      modifies this
      ensures var line := BorrowLine(toolId, quantity, imageUrl);
        var f := FindTool(old(inventory), toolId);
        if f.None? then
          r == Err("Tool ID not found: " + toolId) && inventory == old(inventory) && transactions == old(transactions)
        else if old(inventory)[f.value].availableQty.Finite? && old(inventory)[f.value].availableQty.n < quantity then
          r == Err("Not enough stock for tool ID: " + toolId) && inventory == old(inventory) && transactions == old(transactions)
        else
          r == Ok("") &&
          inventory == ApplyDeductions(old(inventory), Deductions(old(inventory), [line])) &&
          transactions == old(transactions) + [BorrowRow(line, txId, userId, reason, expected, timestamp)]
      ensures users == old(users) && logs == old(logs)
    {
      var line := BorrowLine(toolId, quantity, imageUrl);
      SingleLineBorrow(inventory, line);
      assert [line][..0] == [];
      CheckLineMeaning(inventory, [line], 0);
      r := BorrowToolBatch(userId, reason, expected, [line], [txId], timestamp);
    }

    /** The legacy `returnTool`: a batch of one line. */
    method ReturnTool(userId: string, toolId: string, condition: string, notes: string,
                      imageUrl: string, timestamp: int) returns (r: Reply)
      modifies this
      ensures r == Ok("")
      ensures var st := ReturnStep(old(inventory), ReturnState(old(inventory), old(transactions), old(transactions)),
                                   ReturnLine(toolId, condition, notes, imageUrl), userId, timestamp);
        inventory == st.inv && transactions == st.sheet
      ensures users == old(users) && logs == old(logs)
    {
      var line := ReturnLine(toolId, condition, notes, imageUrl);
      assert [line][..0] == [];
      r := ReturnToolBatch(userId, [line], timestamp);
    }

    /** `registerUser`: an existing user gets the new name, department and cohort
        and keeps role and PIN; a new user is appended with role "user" and no PIN. */
    method RegisterUser(userId: string, fullName: string, department: string, cohort: string, now: int)
      returns (r: Reply)
      modifies this
      ensures FindUser(old(users), userId).Some? ==>
        var i := FindUser(old(users), userId).value;
        r == Ok("Profile updated") &&
        users == old(users)[i := old(users)[i].(fullName := fullName, department := department, cohort := cohort)]
      ensures FindUser(old(users), userId).None? ==>
        r == Ok("") && users == old(users) + [UserRow(userId, fullName, department, cohort, now, "user", "")]
      ensures inventory == old(inventory) && transactions == old(transactions) && logs == old(logs)
    {
      var i := 0;
      while i < |users|
        invariant 0 <= i <= |users|
        invariant forall j :: 0 <= j < i ==> users[j].userId != userId
      {
        if users[i].userId == userId {
          users := users[i := users[i].(fullName := fullName, department := department, cohort := cohort)];
          return Ok("Profile updated");
        }
        i := i + 1;
      }
      users := users + [UserRow(userId, fullName, department, cohort, now, "user", "")];
      return Ok("");
    }

    /** `addTool`: refuse an existing Tool ID; otherwise append a row whose
        available quantity is its total. */
    method AddTool(toolId: string, toolName: string, totalQty: Avail, unit: string,
                   location: string, imageUrl: string) returns (r: Reply)
      modifies this
      ensures FindTool(old(inventory), toolId).Some? ==>
        r == Err("Tool ID already exists") && inventory == old(inventory)
      ensures FindTool(old(inventory), toolId).None? ==>
        r == Ok("") && inventory == old(inventory) + [ToolRow(toolId, toolName, totalQty, totalQty, unit, location, imageUrl)]
      ensures transactions == old(transactions) && users == old(users) && logs == old(logs)
    {
      var i := 0;
      while i < |inventory|
        invariant 0 <= i <= |inventory|
        invariant forall j :: 0 <= j < i ==> inventory[j].toolId != toolId
      {
        if inventory[i].toolId == toolId {
          return Err("Tool ID already exists");
        }
        i := i + 1;
      }
      inventory := inventory + [ToolRow(toolId, toolName, totalQty, totalQty, unit, location, imageUrl)];
      return Ok("");
    }

    /** `updateTool`: overwrite every column but the Tool ID of the first row
        with that ID. */
    method UpdateTool(toolId: string, toolName: string, totalQty: Avail, availableQty: Avail,
                      unit: string, location: string, imageUrl: string) returns (r: Reply)
      modifies this
      ensures FindTool(old(inventory), toolId).None? ==>
        r == Err("Tool not found") && inventory == old(inventory)
      ensures FindTool(old(inventory), toolId).Some? ==>
        r == Ok("") &&
        inventory == old(inventory)[FindTool(old(inventory), toolId).value :=
                                    ToolRow(toolId, toolName, totalQty, availableQty, unit, location, imageUrl)]
      ensures transactions == old(transactions) && users == old(users) && logs == old(logs)
    {
      var i := 0;
      while i < |inventory| && inventory[i].toolId != toolId
        invariant 0 <= i <= |inventory|
        invariant forall j :: 0 <= j < i ==> inventory[j].toolId != toolId
      {
        i := i + 1;
      }
      if i == |inventory| {
        return Err("Tool not found");
      }
      inventory := inventory[i := ToolRow(inventory[i].toolId, toolName, totalQty, availableQty, unit, location, imageUrl)];
      return Ok("");
    }

    /** `deleteTool`: remove the first row with that Tool ID. */
    method DeleteTool(toolId: string) returns (r: Reply)
      modifies this
      ensures FindTool(old(inventory), toolId).None? ==>
        r == Err("Tool not found") && inventory == old(inventory)
      ensures FindTool(old(inventory), toolId).Some? ==>
        var i := FindTool(old(inventory), toolId).value;
        r == Ok("") && inventory == old(inventory)[..i] + old(inventory)[i + 1..]
      ensures transactions == old(transactions) && users == old(users) && logs == old(logs)
    {
      var i := 0;
      while i < |inventory|
        invariant 0 <= i <= |inventory|
        invariant forall j :: 0 <= j < i ==> inventory[j].toolId != toolId
      {
        if inventory[i].toolId == toolId {
          inventory := inventory[..i] + inventory[i + 1..];
          return Ok("");
        }
        i := i + 1;
      }
      return Err("Tool not found");
    }

    /** `updateUserPin`: set the PIN of the first user with that ID. */
    method UpdateUserPin(userId: string, pin: string) returns (r: Reply)
      modifies this
      ensures FindUser(old(users), userId).None? ==> r == Err("User not found") && users == old(users)
      ensures FindUser(old(users), userId).Some? ==>
        var i := FindUser(old(users), userId).value;
        r == Ok("") && users == old(users)[i := old(users)[i].(pin := pin)]
      ensures inventory == old(inventory) && transactions == old(transactions) && logs == old(logs)
    {
      var i := 0;
      while i < |users|
        invariant 0 <= i <= |users|
        invariant forall j :: 0 <= j < i ==> users[j].userId != userId
      {
        if users[i].userId == userId {
          users := users[i := users[i].(pin := pin)];
          return Ok("");
        }
        i := i + 1;
      }
      return Err("User not found");
    }
  }

  /** The validation phase of `borrowToolBatch`: for each line in turn, find the
      first row of its tool and check the line's quantity against that row's
      available quantity less what earlier lines have already claimed from it.
      Stops at the first failing line. */
  method ValidateBorrowLines(invData: seq<ToolRow>, lines: seq<BorrowLine>)
    returns (failure: Option<BorrowError>, itemsToProcess: seq<BorrowLine>, inventoryUpdates: seq<Deduction>)
    ensures failure == Validate(invData, lines)
    ensures failure.None? ==> itemsToProcess == lines && inventoryUpdates == Deductions(invData, lines)
  {
    failure := None;
    itemsToProcess := [];
    inventoryUpdates := [];
    var k := 0;
    while k < |lines| && failure.None?
      invariant 0 <= k <= |lines|
      invariant failure.None? ==>
        Validate(invData, lines[..k]).None? && inventoryUpdates == Deductions(invData, lines[..k]) &&
        itemsToProcess == lines[..k]
      invariant failure.Some? ==> Validate(invData, lines[..k]) == failure
    {
      var item := lines[k];
      var err, i := CheckBorrowLine(invData, lines, k, inventoryUpdates);
      if err.Some? {
        // the source returns this error at once
        failure := err;
      } else {
        if invData[i].availableQty.Finite? {
          inventoryUpdates := inventoryUpdates + [Deduction(i, item.quantity)];
        }
        assert inventoryUpdates == Deductions(invData, lines[..k + 1]);
        itemsToProcess := itemsToProcess + [item];
        assert itemsToProcess == lines[..k + 1];
      }
      k := k + 1;
    }
    if failure.Some? {
      ValidateStopsAtFirstError(invData, lines, k);
    } else {
      assert lines[..|lines|] == lines;
    }
  }

  /** The check of line `k` in the validation phase: the tool's first row, and
      its available quantity less what earlier lines claim from that row. */
  method CheckBorrowLine(invData: seq<ToolRow>, lines: seq<BorrowLine>, k: nat, inventoryUpdates: seq<Deduction>)
    returns (err: Option<BorrowError>, row: int)
    requires k < |lines| && Validate(invData, lines[..k]).None?
    requires inventoryUpdates == Deductions(invData, lines[..k])
    ensures err == CheckLine(invData, lines, k) == Validate(invData, lines[..k + 1])
    ensures err.None? ==>
      0 <= row < |invData| && FindTool(invData, lines[k].toolId) == Some(row) &&
      Deductions(invData, lines[..k + 1]) ==
        inventoryUpdates + (if invData[row].availableQty.Finite? then [Deduction(row, lines[k].quantity)] else [])
  {
    ValidateStep(invData, lines, k);
    var item := lines[k];
    row := FindToolRow(invData, item.toolId);
    if row == -1 {
      return Some(ToolNotFound(item.toolId)), row;
    }
    err := None;
    if invData[row].availableQty.Finite? {
      var pendingDeduction := Pending(inventoryUpdates, row);
      var currentAvail := invData[row].availableQty.n - pendingDeduction;
      if currentAvail < item.quantity {
        err := Some(NotEnoughStock(item.toolId));
      }
    }
  }

  /** The Inventory scan of the validation phase: the first row with that
      Tool ID, or -1. */
  method FindToolRow(invData: seq<ToolRow>, toolId: string) returns (i: int)
    ensures -1 <= i < |invData|
    ensures i == -1 <==> FindTool(invData, toolId).None?
    ensures i >= 0 ==> FindTool(invData, toolId) == Some(i)
  {
    i := 0;
    while i < |invData| && invData[i].toolId != toolId
      invariant 0 <= i <= |invData|
      invariant forall j :: 0 <= j < i ==> invData[j].toolId != toolId
    {
      i := i + 1;
    }
    if i == |invData| {
      i := -1;
    }
  }

  /** The backward scan of `returnToolBatch`: the newest open loan of `toolId`
      by `userId` in the in-memory copy, or -1. */
  method FindOpenLoan(transData: seq<TxRow>, toolId: string, userId: string) returns (transRow: int)
    ensures -1 <= transRow < |transData|
    ensures transRow == -1 <==> LastOpenLoan(transData, toolId, userId).None?
    ensures transRow >= 0 ==> LastOpenLoan(transData, toolId, userId) == Some(transRow)
  {
    var i := |transData|;
    while i > 0 && !IsOpenLoan(transData[i - 1], toolId, userId)
      invariant 0 <= i <= |transData|
      invariant forall j :: i <= j < |transData| ==> !IsOpenLoan(transData[j], toolId, userId)
    {
      i := i - 1;
    }
    transRow := i - 1;
  }

  /** The inventory scan of `returnToolBatch`: the first row of `toolId` whose
      cell is not "จำนวนมาก", or -1. */
  method FindCountedRow(invData: seq<ToolRow>, toolId: string) returns (row: int)
    ensures -1 <= row < |invData|
    ensures row == -1 <==> FindCountedTool(invData, toolId).None?
    ensures row >= 0 ==> FindCountedTool(invData, toolId) == Some(row)
  {
    var j := 0;
    while j < |invData| && !(invData[j].toolId == toolId && invData[j].availableQty.Finite?)
      invariant 0 <= j <= |invData|
      invariant forall l :: 0 <= l < j ==> !IsCountedRowOf(invData[l], toolId)
    {
      j := j + 1;
    }
    row := if j < |invData| then j else -1;
  }

  // ---------------------------------------------------------------------------
  // Read-only handlers, over the snapshot of a sheet
  // ---------------------------------------------------------------------------

  /** An entry of `getTools`: the row's cells and the derived status. */
  datatype ToolView = ToolView(
    toolId: string, toolName: string, totalQty: Avail, availableQty: Avail,
    unit: string, location: string, imageUrl: string, status: string)

  /** `getTools`: every Inventory row in sheet order; a tool is "Available" iff
      its cell is "จำนวนมาก" or a positive number, else "Borrowed". */
  method GetTools(inv: seq<ToolRow>) returns (tools: seq<ToolView>)
    ensures |tools| == |inv|
    ensures forall k :: 0 <= k < |inv| ==>
      tools[k].toolId == inv[k].toolId && tools[k].toolName == inv[k].toolName &&
      tools[k].totalQty == inv[k].totalQty && tools[k].availableQty == inv[k].availableQty &&
      tools[k].unit == inv[k].unit && tools[k].location == inv[k].location &&
      tools[k].imageUrl == inv[k].imageUrl
    ensures forall k :: 0 <= k < |inv| ==>
      (tools[k].status == "Available" <==> inv[k].availableQty.Many? || inv[k].availableQty.n > 0) &&
      (tools[k].status == "Available" || tools[k].status == "Borrowed")
  {
    tools := [];
    var i := 0;
    while i < |inv|
      invariant 0 <= i <= |inv|
      invariant |tools| == i
      invariant forall k :: 0 <= k < i ==>
        tools[k] == ToolView(inv[k].toolId, inv[k].toolName, inv[k].totalQty, inv[k].availableQty,
                             inv[k].unit, inv[k].location, inv[k].imageUrl, DerivedStatus(inv[k].availableQty))
    {
      var row := inv[i];
      tools := tools + [ToolView(row.toolId, row.toolName, row.totalQty, row.availableQty,
                                 row.unit, row.location, row.imageUrl, DerivedStatus(row.availableQty))];
      i := i + 1;
    }
  }

  /** An entry of `getUserActiveBorrows`. */
  datatype ActiveBorrow = ActiveBorrow(toolId: string, quantity: int, status: TxStatus)

  function AsActiveBorrow(t: TxRow): ActiveBorrow
  {
    ActiveBorrow(t.toolId, t.qty, t.status)
  }

  /** `getUserActiveBorrows`: the user's "Borrowed" and "Overdue" rows, in sheet order. */
  method GetUserActiveBorrows(tx: seq<TxRow>, userId: string) returns (borrows: seq<ActiveBorrow>)
    ensures |borrows| == |OpenLoansOf(tx, userId)|
    ensures forall k :: 0 <= k < |borrows| ==> borrows[k] == AsActiveBorrow(OpenLoansOf(tx, userId)[k])
  {
    borrows := [];
    var i := 0;
    while i < |tx|
      invariant 0 <= i <= |tx|
      invariant |borrows| == |OpenLoansOf(tx[..i], userId)|
      invariant forall k :: 0 <= k < |borrows| ==> borrows[k] == AsActiveBorrow(OpenLoansOf(tx[..i], userId)[k])
    {
      assert tx[..i + 1][..i] == tx[..i];
      if tx[i].userId == userId && (tx[i].status == Borrowed || tx[i].status == Overdue) {
        borrows := borrows + [AsActiveBorrow(tx[i])];
      }
      i := i + 1;
    }
    assert tx[..|tx|] == tx;
  }

  /** `getAdminLogs`: the newest 50 ActivityLogs rows, newest first. */
  method GetAdminLogs(logs: seq<LogRow>) returns (r: seq<LogRow>)
    ensures |r| == if |logs| < 50 then |logs| else 50
    ensures forall k :: 0 <= k < |r| ==> r[k] == logs[|logs| - 1 - k]
  {
    r := [];
    var start := if |logs| > 50 then |logs| - 50 else 0;
    var i := |logs|;
    while i > start
      invariant start <= i <= |logs|
      invariant |r| == |logs| - i
      invariant forall k :: 0 <= k < |r| ==> r[k] == logs[|logs| - 1 - k]
    {
      r := r + [logs[i - 1]];
      i := i - 1;
    }
  }
}
