/** The single-item backend (Reference/google_apps_script.js): `borrowTool`,
    `returnTool` and the `checkOverdue` sweep over the Inventory and Transactions
    sheets. Its return policy differs from the batch backend's: a return without
    an open loan still puts 1 back and is recorded as "Return (Unmatched)". */
module SingleBackend {
  import opened SheetRows
  import BatchSpec

  /** A handler's JSON reply: `{success: true}` or `{error: ...}`. */
  datatype Reply = Ok | Err(error: string)

  /** The reply of a handler and the two sheets after it. */
  datatype Effect = Effect(reply: Reply, inv: seq<ToolRow>, tx: seq<TxRow>)

  /** The row `borrowTool` appends (its sheet has ten columns; the others stay empty). */
  function BorrowRow(txId: string, toolId: string, userId: string, quantity: int, reason: string,
                     expected: Option<int>, now: int): TxRow
  {
    TxRow(txId, toolId, userId, Borrow, quantity, reason, expected, None, Borrowed, now, "", "", "", "")
  }

  /** `borrowTool`: find the tool's first row; a counted row must hold at least
      `quantity`, and loses it; a "จำนวนมาก" row is left alone; then one "Borrow"
      row is appended. */
  function BorrowEffect(inv: seq<ToolRow>, tx: seq<TxRow>, userId: string, toolId: string, quantity: int,
                        reason: string, expected: Option<int>, txId: string, now: int): (e: Effect)
    ensures e.reply.Err? ==> e.inv == inv && e.tx == tx
    ensures FindTool(inv, toolId).None? ==> e.reply == Err("Tool not found")
    ensures FindTool(inv, toolId).Some? ==>
      var a := inv[FindTool(inv, toolId).value].availableQty;
      (e.reply == Err("Not enough stock") <==> a.Finite? && a.n < quantity)
    ensures e.reply == Ok ==>
      var i := FindTool(inv, toolId).value;
      e.tx == tx + [BorrowRow(txId, toolId, userId, quantity, reason, expected, now)] &&
      e.inv == (if inv[i].availableQty.Many? then inv
                else inv[i := inv[i].(availableQty := Finite(inv[i].availableQty.n - quantity))])
  {
    match FindTool(inv, toolId)
    case None => Effect(Err("Tool not found"), inv, tx)
    case Some(i) =>
      var tx' := tx + [BorrowRow(txId, toolId, userId, quantity, reason, expected, now)];
      match inv[i].availableQty
      case Many => Effect(Ok, inv, tx')
      case Finite(n) =>
        if n < quantity then Effect(Err("Not enough stock"), inv, tx)
        else Effect(Ok, inv[i := inv[i].(availableQty := Finite(n - quantity))], tx')
  }

  /** The row an unmatched `returnTool` appends: quantity 1, status "Returned",
      the notes (or "Force Return") as reason. */
  function UnmatchedRow(txId: string, toolId: string, userId: string, notes: string, now: int): TxRow
  {
    TxRow(txId, toolId, userId, ReturnUnmatched, 1, if notes == "" then "Force Return" else notes,
          None, Some(now), Returned, now, "", "", "", "")
  }

  /** `returnTool`: the newest open loan of (tool, user) gives the quantity to
      put back (1 without one); the tool's first row, unless "จำนวนมาก", gets it
      back uncapped; then the loan is closed, or an unmatched return is recorded. */
  function ReturnEffect(inv: seq<ToolRow>, tx: seq<TxRow>, userId: string, toolId: string, notes: string,
                        txId: string, now: int): (e: Effect)
    ensures FindTool(inv, toolId).None? ==> e == Effect(Err("Tool not found"), inv, tx)
    ensures FindTool(inv, toolId).Some? ==>
      var i := FindTool(inv, toolId).value;
      var m := LastOpenLoan(tx, toolId, userId);
      var qty := if m.Some? then tx[m.value].qty else 1;
      e.reply == Ok &&
      e.inv == (if inv[i].availableQty.Many? then inv
                else inv[i := inv[i].(availableQty := Finite(inv[i].availableQty.n + qty))]) &&
      e.tx == (if m.Some? then tx[m.value := tx[m.value].(actualReturn := Some(now), status := Returned)]
               else tx + [UnmatchedRow(txId, toolId, userId, notes, now)])
  {
    var m := LastOpenLoan(tx, toolId, userId);
    var borrowedQty := if m.Some? then tx[m.value].qty else 1;
    match FindTool(inv, toolId)
    case None => Effect(Err("Tool not found"), inv, tx)
    case Some(i) =>
      var inv' := match inv[i].availableQty
                  case Many => inv
                  case Finite(n) => inv[i := inv[i].(availableQty := Finite(n + borrowedQty))];
      match m
      case Some(t) => Effect(Ok, inv', tx[t := tx[t].(actualReturn := Some(now), status := Returned)])
      case None => Effect(Ok, inv', tx + [UnmatchedRow(txId, toolId, userId, notes, now)])
  }

  /** `expectedReturn < now` on JavaScript dates: false for an invalid date. */
  predicate Before(d: Option<int>, now: int)
  {
    d.Some? && d.value < now
  }

  /** The row after the `checkOverdue` sweep. */
  function MarkRow(t: TxRow, now: int): TxRow
  {
    if t.status == Borrowed && Before(t.expectedReturn, now) then t.(status := Overdue) else t
  }

  /** `checkOverdue`: exactly the "Borrowed" rows whose expected return is before
      `now` become "Overdue"; every other row, "Returned" ones included, is kept. */
  function MarkOverdue(tx: seq<TxRow>, now: int): (r: seq<TxRow>)
    ensures |r| == |tx|
    ensures forall i :: 0 <= i < |tx| ==>
      r[i] == (if tx[i].status == Borrowed && Before(tx[i].expectedReturn, now) then tx[i].(status := Overdue) else tx[i])
  {
    seq(|tx|, i requires 0 <= i < |tx| => MarkRow(tx[i], now))
  }

  class Spreadsheet {
    var inventory: seq<ToolRow>
    var transactions: seq<TxRow>
    var users: seq<UserRow>

    constructor (inventory: seq<ToolRow>, transactions: seq<TxRow>, users: seq<UserRow>)
      ensures this.inventory == inventory && this.transactions == transactions && this.users == users
    {
      this.inventory := inventory;
      this.transactions := transactions;
      this.users := users;
    }

    /** `registerUser`: always appends a row (five columns: no role, no PIN),
        even when the User ID is already registered. */
    method RegisterUser(userId: string, fullName: string, department: string, cohort: string, now: int)
      modifies this
      ensures users == old(users) + [UserRow(userId, fullName, department, cohort, now, "", "")]
      ensures inventory == old(inventory) && transactions == old(transactions)
    {
      users := users + [UserRow(userId, fullName, department, cohort, now, "", "")];
    }

    /** `borrowTool`. */
    method BorrowTool(userId: string, toolId: string, quantity: int, reason: string,
                      expected: Option<int>, txId: string, now: int) returns (r: Reply)
      modifies this
      ensures Effect(r, inventory, transactions) ==
        BorrowEffect(old(inventory), old(transactions), userId, toolId, quantity, reason, expected, txId, now)
    {
      var invData := inventory;
      var toolRowIndex := -1;
      var i := 0;
      while i < |invData| && invData[i].toolId != toolId
        invariant 0 <= i <= |invData|
        invariant forall j :: 0 <= j < i ==> invData[j].toolId != toolId
      {
        i := i + 1;
      }
      if i < |invData| {
        toolRowIndex := i;
        if invData[i].availableQty.Finite? {
          var currentAvailable := invData[i].availableQty.n;
          if currentAvailable < quantity {
            return Err("Not enough stock");
          }
          inventory := inventory[i := inventory[i].(availableQty := Finite(currentAvailable - quantity))];
        }
      }
      if toolRowIndex == -1 {
        return Err("Tool not found");
      }
      transactions := transactions + [BorrowRow(txId, toolId, userId, quantity, reason, expected, now)];
      return Ok;
    }

    /** `returnTool`. */
    method ReturnTool(userId: string, toolId: string, notes: string, txId: string, now: int) returns (r: Reply)
      modifies this
      ensures Effect(r, inventory, transactions) ==
        ReturnEffect(old(inventory), old(transactions), userId, toolId, notes, txId, now)
    {
      // 1. The newest open loan, for the quantity to put back
      var transData := transactions;
      var transRowIndex := -1;
      var borrowedQty := 1;
      var t := |transData|;
      while t > 0 && !IsOpenLoan(transData[t - 1], toolId, userId)
        invariant 0 <= t <= |transData|
        invariant forall j :: t <= j < |transData| ==> !IsOpenLoan(transData[j], toolId, userId)
      {
        t := t - 1;
      }
      if t > 0 {
        transRowIndex := t - 1;
        borrowedQty := transData[t - 1].qty;
        assert LastOpenLoan(transData, toolId, userId) == Some(t - 1);
      }
      // 2. The inventory
      var invData := inventory;
      var i := 0;
      while i < |invData| && invData[i].toolId != toolId
        invariant 0 <= i <= |invData|
        invariant forall j :: 0 <= j < i ==> invData[j].toolId != toolId
      {
        i := i + 1;
      }
      if i == |invData| {
        return Err("Tool not found");
      }
      if invData[i].availableQty.Finite? {
        inventory := inventory[i := inventory[i].(availableQty := Finite(invData[i].availableQty.n + borrowedQty))];
      }
      // 3. The transaction
      if transRowIndex != -1 {
        transactions := transactions[transRowIndex := transactions[transRowIndex].(actualReturn := Some(now), status := Returned)];
      } else {
        transactions := transactions + [UnmatchedRow(txId, toolId, userId, notes, now)];
      }
      return Ok;
    }

    /** `checkOverdue`. */
    method CheckOverdue(now: int)
      modifies this
      ensures transactions == MarkOverdue(old(transactions), now)
      ensures inventory == old(inventory)
    {
      var i := 0;
      while i < |transactions|
        invariant 0 <= i <= |transactions| == |old(transactions)|
        invariant forall j :: 0 <= j < i ==> transactions[j] == MarkRow(old(transactions)[j], now)
        invariant forall j :: i <= j < |transactions| ==> transactions[j] == old(transactions)[j]
        invariant inventory == old(inventory)
      {
        var row := transactions[i];
        if row.status == Borrowed && Before(row.expectedReturn, now) {
          transactions := transactions[i := row.(status := Overdue)];
        }
        i := i + 1;
      }
    }
  }

  /** An entry of this backend's `getTools` (its Inventory sheet has no Unit column). */
  datatype ToolView = ToolView(toolId: string, toolName: string, totalQty: Avail, availableQty: Avail,
                               location: string, imageUrl: string, status: string)

  /** `getTools`: every Inventory row in sheet order; "Available" iff the cell
      is "จำนวนมาก" or a positive number, else "Borrowed". */
  method GetTools(inv: seq<ToolRow>) returns (tools: seq<ToolView>)
    ensures |tools| == |inv|
    ensures forall k :: 0 <= k < |inv| ==>
      tools[k].toolId == inv[k].toolId && tools[k].toolName == inv[k].toolName &&
      tools[k].totalQty == inv[k].totalQty && tools[k].availableQty == inv[k].availableQty &&
      tools[k].location == inv[k].location && tools[k].imageUrl == inv[k].imageUrl
    ensures forall k :: 0 <= k < |inv| ==>
      (tools[k].status == "Available" <==> inv[k].availableQty.Many? || inv[k].availableQty.n > 0) &&
      (tools[k].status == "Available" || tools[k].status == "Borrowed")
  {
    tools := [];
    var i := 0;
    while i < |inv|
      invariant 0 <= i <= |inv|
      invariant |tools| == i
      invariant forall k :: 0 <= k < i ==>
        tools[k] == ToolView(inv[k].toolId, inv[k].toolName, inv[k].totalQty, inv[k].availableQty,
                             inv[k].location, inv[k].imageUrl, DerivedStatus(inv[k].availableQty))
    {
      var row := inv[i];
      tools := tools + [ToolView(row.toolId, row.toolName, row.totalQty, row.availableQty,
                                 row.location, row.imageUrl, DerivedStatus(row.availableQty))];
      i := i + 1;
    }
  }

  /** The profile `checkUser` reports. */
  datatype Profile = Profile(userId: string, fullName: string, department: string, cohort: string)

  /** `checkUser`: the profile of the first Users row with the User ID, if any. */
  method CheckUser(users: seq<UserRow>, userId: string) returns (found: bool, user: Profile)
    ensures found <==> exists j :: 0 <= j < |users| && users[j].userId == userId
    ensures found ==>
      var u := users[FindUser(users, userId).value];
      user == Profile(u.userId, u.fullName, u.department, u.cohort)
  {
    var i := 0;
    while i < |users|
      invariant 0 <= i <= |users|
      invariant forall j :: 0 <= j < i ==> users[j].userId != userId
    {
      if users[i].userId == userId {
        return true, Profile(users[i].userId, users[i].fullName, users[i].department, users[i].cohort);
      }
      i := i + 1;
    }
    return false, Profile("", "", "", "");
  }

  /** An entry of `getUserActiveBorrows` in this backend. */
  datatype ActiveBorrow = ActiveBorrow(toolId: string, quantity: int, borrowDate: int)

  /** `getUserActiveBorrows`: the user's "Borrowed" and "Overdue" rows, in sheet order. */
  method GetUserActiveBorrows(tx: seq<TxRow>, userId: string) returns (borrows: seq<ActiveBorrow>)
    ensures |borrows| == |OpenLoansOf(tx, userId)|
    ensures forall k :: 0 <= k < |borrows| ==>
      var t := OpenLoansOf(tx, userId)[k];
      borrows[k] == ActiveBorrow(t.toolId, t.qty, t.timestamp)
  {
    borrows := [];
    var i := 0;
    while i < |tx|
      invariant 0 <= i <= |tx|
      invariant |borrows| == |OpenLoansOf(tx[..i], userId)|
      invariant forall k :: 0 <= k < |borrows| ==>
        var t := OpenLoansOf(tx[..i], userId)[k];
        borrows[k] == ActiveBorrow(t.toolId, t.qty, t.timestamp)
    {
      assert tx[..i + 1][..i] == tx[..i];
      var row := tx[i];
      if row.userId == userId && (row.status == Borrowed || row.status == Overdue) {
        borrows := borrows + [ActiveBorrow(row.toolId, row.qty, row.timestamp)];
      }
      i := i + 1;
    }
    assert tx[..|tx|] == tx;
  }

  // ---------------------------------------------------------------------------
  // Properties
  // ---------------------------------------------------------------------------

  /** The sweep is idempotent: a second run with the same clock changes nothing. */
  lemma MarkOverdueIdempotent(tx: seq<TxRow>, now: int)
    ensures MarkOverdue(MarkOverdue(tx, now), now) == MarkOverdue(tx, now)
  {
    var once := MarkOverdue(tx, now);
    assert forall i :: 0 <= i < |once| ==> MarkRow(once[i], now) == once[i];
  }

  /** The sweep never reopens or closes a loan: a row is open after it iff it
      was open before. */
  lemma MarkOverdueKeepsOpenLoans(tx: seq<TxRow>, now: int, toolId: string, userId: string)
    ensures LastOpenLoan(MarkOverdue(tx, now), toolId, userId) == LastOpenLoan(tx, toolId, userId)
  {
    var marked := MarkOverdue(tx, now);
    var p := (t: TxRow) => IsOpenLoan(t, toolId, userId);
    assert forall j :: 0 <= j < |tx| ==> p(marked[j]) == p(tx[j]);
    BatchSpec.LastBelowSame(marked, tx, p, |tx|);
  }

  /** The batch backend's legacy `borrowTool` (a batch of one line) accepts
      exactly the requests this backend's `borrowTool` accepts, and leaves the
      Inventory in the same state. */
  lemma BorrowAgreesWithBatchOfOne(inv: seq<ToolRow>, tx: seq<TxRow>, userId: string, toolId: string,
                                   quantity: int, reason: string, expected: Option<int>, txId: string, now: int)
    ensures var e := BorrowEffect(inv, tx, userId, toolId, quantity, reason, expected, txId, now);
      var line := BatchSpec.BorrowLine(toolId, quantity, "");
      (e.reply == Ok <==> BatchSpec.Validate(inv, [line]).None?) &&
      (e.reply == Ok ==> e.inv == BatchSpec.ApplyDeductions(inv, BatchSpec.Deductions(inv, [line])))
  {
    var line := BatchSpec.BorrowLine(toolId, quantity, "");
    BatchSpec.SingleLineBorrow(inv, line);
    var f := FindTool(inv, toolId);
    if f.Some? {
      var i := f.value;
      var after := BatchSpec.ApplyDeductions(inv, BatchSpec.Deductions(inv, [line]));
      var e := BorrowEffect(inv, tx, userId, toolId, quantity, reason, expected, txId, now);
      forall j | 0 <= j < |inv|
        ensures e.reply == Ok ==> after[j] == e.inv[j]
      {
        BatchSpec.BorrowStockEffect(inv, [line], j);
        assert [line][..0] == [];
        if inv[j].toolId == toolId {
          assert j >= i;
        }
      }
    }
  }

  /** When a loan matches and the tool has a single row, this backend's
      `returnTool` and the batch backend's `returnTool` leave the Inventory in
      the same state; they differ only on returns without an open loan. */
  lemma ReturnAgreesWithBatchWhenMatched(inv: seq<ToolRow>, tx: seq<TxRow>, userId: string, toolId: string,
                                         notes: string, txId: string, now: int)
    requires LastOpenLoan(tx, toolId, userId).Some?
    requires FindTool(inv, toolId).Some?
    requires forall j :: 0 <= j < |inv| && inv[j].toolId == toolId ==> j == FindTool(inv, toolId).value
    ensures var e := ReturnEffect(inv, tx, userId, toolId, notes, txId, now);
      var line := BatchSpec.ReturnLine(toolId, "", notes, "");
      var b := BatchSpec.ReturnStep(inv, BatchSpec.ReturnState(inv, tx, tx), line, userId, now);
      e.inv == b.inv
  {
    var i := FindTool(inv, toolId).value;
    if inv[i].availableQty.Finite? {
      assert BatchSpec.FindCountedTool(inv, toolId) == Some(i);
    } else {
      assert BatchSpec.FindCountedTool(inv, toolId) == None;
    }
  }
}
