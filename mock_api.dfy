/** The in-browser mock backend (`callMockApi` in js/api.js) and the legacy
    single-item wrappers. The mock keeps its own policy: a batch is applied line
    by line, so a line that throws leaves the earlier lines' effects in place,
    and a return always puts back exactly 1. */
module MockApi {
  import opened SheetRows

  /** An entry of `mockTools`. */
  datatype MockTool = MockTool(toolId: string, toolName: string, availableQty: Avail,
                               location: string, status: string, unit: string)

  /** An entry of `mockTransactions`. */
  datatype MockTx = MockTx(toolId: string, userId: string, quantity: int, status: string, timestamp: int)

  /** An entry of `mockUsers`; `role` and `pin` may be absent. */
  datatype MockUser = MockUser(userId: string, fullName: string, department: string, cohort: string,
                               role: Option<string>, pin: Option<string>)

  /** The handler's reply: `{success: true}`, `{success: false, error}`, or a thrown Error. */
  datatype MockReply = Success | Failure(error: string) | Thrown(message: string)

  // ---------------------------------------------------------------------------
  // Payloads and the legacy wrappers
  // ---------------------------------------------------------------------------

  datatype BorrowItem = BorrowItem(toolId: string, quantity: int)

  /** A borrow request: a batch carries `items`; a legacy request carries
      `toolId` and `quantity` at the top level. */
  datatype BorrowPayload = BorrowPayload(userId: string, reason: string, expectedReturnDate: Option<int>,
                                         items: Option<seq<BorrowItem>>, toolId: string, quantity: int)

  datatype ReturnItem = ReturnItem(toolId: string, condition: string, notes: string)

  datatype ReturnPayload = ReturnPayload(userId: string, items: Option<seq<ReturnItem>>,
                                         toolId: string, condition: string, notes: string)

  /** `payload.items || [{...payload}]` (an empty `items` array is kept: it is truthy). */
  function BorrowItems(p: BorrowPayload): seq<BorrowItem>
  {
    if p.items.Some? then p.items.value else [BorrowItem(p.toolId, p.quantity)]
  }

  function ReturnItems(p: ReturnPayload): seq<ReturnItem>
  {
    if p.items.Some? then p.items.value else [ReturnItem(p.toolId, p.condition, p.notes)]
  }

  /** The `borrowTool` wrapper: a batch of one item carrying the request's fields. */
  function WrapBorrow(p: BorrowPayload): (b: BorrowPayload)
    ensures b.items == Some([BorrowItem(p.toolId, p.quantity)])
    ensures b.userId == p.userId && b.reason == p.reason && b.expectedReturnDate == p.expectedReturnDate
  {
    BorrowPayload(p.userId, p.reason, p.expectedReturnDate, Some([BorrowItem(p.toolId, p.quantity)]), "", 0)
  }

  /** The `returnTool` wrapper. */
  function WrapReturn(p: ReturnPayload): (b: ReturnPayload)
    ensures b.items == Some([ReturnItem(p.toolId, p.condition, p.notes)])
    ensures b.userId == p.userId
  {
    ReturnPayload(p.userId, Some([ReturnItem(p.toolId, p.condition, p.notes)]), "", "", "")
  }

  /** A legacy request and its wrapped batch reach the same line list, so the
      mock treats both alike. */
  lemma WrappersNormaliseAlike(b: BorrowPayload, r: ReturnPayload)
    requires b.items.None? && r.items.None?
    ensures BorrowItems(WrapBorrow(b)) == BorrowItems(b) && |BorrowItems(b)| == 1
    ensures ReturnItems(WrapReturn(r)) == ReturnItems(r) && |ReturnItems(r)| == 1
  {
  }

  // ---------------------------------------------------------------------------
  // Borrow and return, line by line
  // ---------------------------------------------------------------------------

  /** The mock's tables and whether a line threw. */
  datatype Outcome = Outcome(tools: seq<MockTool>, txs: seq<MockTx>, thrown: Option<string>)

  /** `mockTools.findIndex(t => t.toolId === id)`. */
  function FindMockTool(tools: seq<MockTool>, id: string): Option<nat>
  {
    FirstFrom(tools, (t: MockTool) => t.toolId == id, 0)
  }

  /** One borrow line: an unknown tool throws; a counted tool with fewer than
      `quantity` throws; otherwise it is decremented and its status recomputed,
      and a "Borrowed" transaction is pushed. "จำนวนมาก" stock is untouched. */
  function BorrowOne(tools: seq<MockTool>, txs: seq<MockTx>, userId: string, item: BorrowItem, now: int): (o: Outcome)
    ensures |o.tools| == |tools| && forall j :: 0 <= j < |tools| ==> o.tools[j].toolId == tools[j].toolId
    ensures var f := FindMockTool(tools, item.toolId);
      o.thrown.Some? <==>
        f.None? || (tools[f.value].availableQty.Finite? && tools[f.value].availableQty.n < item.quantity)
    ensures o.thrown.Some? ==> o.tools == tools && o.txs == txs
    ensures o.thrown.None? ==>
      o.txs == txs + [MockTx(item.toolId, userId, item.quantity, "Borrowed", now)] &&
      forall j :: 0 <= j < |tools| && Some(j) != FindMockTool(tools, item.toolId) ==> o.tools[j] == tools[j]
    ensures var f := FindMockTool(tools, item.toolId);
      o.thrown.None? ==>
        var t := tools[f.value];
        if t.availableQty.Many? then o.tools[f.value] == t
        else
          var left := t.availableQty.n - item.quantity;
          left >= 0 && o.tools[f.value].availableQty == Finite(left) &&
          (o.tools[f.value].status == "Available" <==> left > 0) &&
          (o.tools[f.value].status == "Available" || o.tools[f.value].status == "Borrowed")
  {
    match FindMockTool(tools, item.toolId)
    case None => Outcome(tools, txs, Some("Tool not found: " + item.toolId))
    case Some(i) =>
      var txs' := txs + [MockTx(item.toolId, userId, item.quantity, "Borrowed", now)];
      match tools[i].availableQty
      case Many => Outcome(tools, txs', None)
      case Finite(n) =>
        if n < item.quantity then Outcome(tools, txs, Some("Not enough stock for " + item.toolId))
        else
          var left := n - item.quantity;
          Outcome(tools[i := tools[i].(availableQty := Finite(left),
                                       status := if left > 0 then "Available" else "Borrowed")], txs', None)
  }

  /** The transactions a batch pushes when no line throws, in line order. */
  function PushedTxs(userId: string, items: seq<BorrowItem>, now: int): (r: seq<MockTx>)
    ensures |r| == |items|
  {
    if items == [] then [] else [MockTx(items[0].toolId, userId, items[0].quantity, "Borrowed", now)] + PushedTxs(userId, items[1..], now)
  }

  /** The borrow loop: the first line that throws ends the batch, with the
      earlier lines' effects kept. */
  function BorrowAll(tools: seq<MockTool>, txs: seq<MockTx>, userId: string, items: seq<BorrowItem>, now: int): (o: Outcome)
    decreases |items|
    ensures |o.tools| == |tools| && forall j :: 0 <= j < |tools| ==> o.tools[j].toolId == tools[j].toolId
  {
    if items == [] then Outcome(tools, txs, None)
    else
      var o := BorrowOne(tools, txs, userId, items[0], now);
      if o.thrown.Some? then o else BorrowAll(o.tools, o.txs, userId, items[1..], now)
  }

  /** A batch that does not throw pushes one "Borrowed" transaction per line,
      in line order, after the existing ones. */
  lemma {:induction false} BorrowAllPushes(tools: seq<MockTool>, txs: seq<MockTx>, userId: string,
                                           items: seq<BorrowItem>, now: int)
    ensures var o := BorrowAll(tools, txs, userId, items, now);
      o.thrown.None? ==> o.txs == txs + PushedTxs(userId, items, now)
    decreases |items|
  {
    if items != [] {
      var o := BorrowOne(tools, txs, userId, items[0], now);
      if o.thrown.None? {
        var rest := PushedTxs(userId, items[1..], now);
        BorrowAllPushes(o.tools, o.txs, userId, items[1..], now);
        BorrowOnePushes(tools, txs, userId, items[0], now);
        var x := MockTx(items[0].toolId, userId, items[0].quantity, "Borrowed", now);
        assert PushedTxs(userId, items, now) == [x] + rest;
        assert (txs + [x]) + rest == txs + ([x] + rest);
      }
    }
  }

  /** A line that does not throw pushes its "Borrowed" transaction. */
  lemma BorrowOnePushes(tools: seq<MockTool>, txs: seq<MockTx>, userId: string, item: BorrowItem, now: int)
    ensures var o := BorrowOne(tools, txs, userId, item, now);
      o.thrown.None? ==> o.txs == txs + [MockTx(item.toolId, userId, item.quantity, "Borrowed", now)]
  {
  }

  /** A transaction that a return of `toolId` by `userId` closes. */
  predicate OpenMockTx(t: MockTx, toolId: string, userId: string)
  {
    t.toolId == toolId && t.userId == userId && t.status == "Borrowed"
  }

  /** `mockTransactions.findIndex(...)`: the oldest "Borrowed" transaction of the tool by the user. */
  function FindBorrowedTx(txs: seq<MockTx>, toolId: string, userId: string): (r: Option<nat>)
    ensures r.Some? ==> r.value < |txs| && OpenMockTx(txs[r.value], toolId, userId)
    ensures r.Some? ==> forall j :: 0 <= j < r.value ==> !OpenMockTx(txs[j], toolId, userId)
    ensures r.None? ==> forall j :: 0 <= j < |txs| ==> !OpenMockTx(txs[j], toolId, userId)
  {
    FirstFrom(txs, (t: MockTx) => OpenMockTx(t, toolId, userId), 0)
  }

  /** One return line: an unknown tool throws; a counted tool gets exactly 1 back
      and becomes "Available"; the oldest matching "Borrowed" transaction is
      spliced out. */
  function ReturnOne(tools: seq<MockTool>, txs: seq<MockTx>, userId: string, item: ReturnItem): (o: Outcome)
    ensures |o.tools| == |tools| && forall j :: 0 <= j < |tools| ==> o.tools[j].toolId == tools[j].toolId
    ensures o.thrown.Some? <==> FindMockTool(tools, item.toolId).None?
    ensures o.thrown.Some? ==> o.tools == tools && o.txs == txs
    ensures o.thrown.None? ==>
      forall j :: 0 <= j < |tools| && Some(j) != FindMockTool(tools, item.toolId) ==> o.tools[j] == tools[j]
    ensures var f := FindMockTool(tools, item.toolId);
      o.thrown.None? ==>
        var t := tools[f.value];
        (t.availableQty.Many? ==> o.tools[f.value] == t) &&
        (t.availableQty.Finite? ==>
           o.tools[f.value].availableQty == Finite(t.availableQty.n + 1) && o.tools[f.value].status == "Available")
    ensures o.thrown.None? ==>
      match FindBorrowedTx(txs, item.toolId, userId)
      case None => o.txs == txs
      case Some(t) => o.txs == txs[..t] + txs[t + 1..]
  {
    match FindMockTool(tools, item.toolId)
    case None => Outcome(tools, txs, Some("Tool not found: " + item.toolId))
    case Some(i) =>
      var tools' := match tools[i].availableQty
                    case Many => tools
                    case Finite(n) => tools[i := tools[i].(availableQty := Finite(n + 1), status := "Available")];
      match FindBorrowedTx(txs, item.toolId, userId)
      case None => Outcome(tools', txs, None)
      case Some(t) => Outcome(tools', txs[..t] + txs[t + 1..], None)
  }

  function ReturnAll(tools: seq<MockTool>, txs: seq<MockTx>, userId: string, items: seq<ReturnItem>): (o: Outcome)
    decreases |items|
    ensures |o.tools| == |tools| && forall j :: 0 <= j < |tools| ==> o.tools[j].toolId == tools[j].toolId
  {
    if items == [] then Outcome(tools, txs, None)
    else
      var o := ReturnOne(tools, txs, userId, items[0]);
      if o.thrown.Some? then o else ReturnAll(o.tools, o.txs, userId, items[1..])
  }

  // ---------------------------------------------------------------------------
  // Users
  // ---------------------------------------------------------------------------

  /** `mockUsers.findIndex(u => u.userId === id)`. */
  function FindMockUser(users: seq<MockUser>, id: string): Option<nat>
  {
    FirstFrom(users, (u: MockUser) => u.userId == id, 0)
  }

  /** `registerUser`: the payload replaces the first record with its User ID, or is appended. */
  function Upsert(users: seq<MockUser>, u: MockUser): (r: seq<MockUser>)
    ensures FindMockUser(users, u.userId).Some? ==> |r| == |users|
    ensures FindMockUser(users, u.userId).None? ==> |r| == |users| + 1 && r[|users|] == u
    ensures forall j :: 0 <= j < |users| && users[j].userId != u.userId ==> r[j] == users[j]
  {
    match FindMockUser(users, u.userId)
    case Some(i) => users[i := u]
    case None => users + [u]
  }

  /** JavaScript truthiness of an optional string field. */
  predicate Truthy(s: Option<string>)
  {
    s.Some? && s.value != ""
  }

  /** The table after `checkUser`: a found user with no role is given role "user". */
  function CheckUserEffect(users: seq<MockUser>, id: string): (r: seq<MockUser>)
    ensures |r| == |users|
    ensures forall j :: 0 <= j < |users| && Some(j) != FindMockUser(users, id) ==> r[j] == users[j]
    ensures forall i :: FindMockUser(users, id) == Some(i) ==>
      r[i] == (if Truthy(users[i].role) then users[i] else users[i].(role := Some("user")))
  {
    match FindMockUser(users, id)
    case Some(i) => if Truthy(users[i].role) then users else users[i := users[i].(role := Some("user"))]
    case None => users
  }

  /** `getUserActiveBorrows`: the user's "Borrowed" transactions, in order. */
  function ActiveBorrows(txs: seq<MockTx>, userId: string): (r: seq<MockTx>)
    ensures forall t :: t in r <==> t in txs && t.userId == userId && t.status == "Borrowed"
  {
    if txs == [] then []
    else
      var rest := ActiveBorrows(txs[..|txs| - 1], userId);
      var t := txs[|txs| - 1];
      assert txs == txs[..|txs| - 1] + [t];
      rest + (if t.userId == userId && t.status == "Borrowed" then [t] else [])
  }

  /** `getUserActiveBorrows` lists each of the user's "Borrowed" transactions
      as many times as the table holds it, and nothing else. */
  lemma {:induction false} ActiveBorrowsMultiplicity(txs: seq<MockTx>, userId: string)
    ensures forall t ::
      multiset(ActiveBorrows(txs, userId))[t] == if t.userId == userId && t.status == "Borrowed" then multiset(txs)[t] else 0
  {
    if txs != [] {
      var init := txs[..|txs| - 1];
      var t := txs[|txs| - 1];
      ActiveBorrowsMultiplicity(init, userId);
      assert txs == init + [t];
    }
  }

  // ---------------------------------------------------------------------------
  // The mock's module-level arrays and its handlers
  // ---------------------------------------------------------------------------

  class MockStore {
    var tools: seq<MockTool>
    var transactions: seq<MockTx>
    var users: seq<MockUser>

    constructor (tools: seq<MockTool>, users: seq<MockUser>)
      ensures this.tools == tools && this.users == users && this.transactions == []
    {
      this.tools := tools;
      this.users := users;
      this.transactions := [];
    }

    /** The body of the borrow loop for one item. */
    method BorrowLine(userId: string, item: BorrowItem, now: int) returns (thrown: Option<string>)
      modifies this
      ensures Outcome(tools, transactions, thrown) == BorrowOne(old(tools), old(transactions), userId, item, now)
      ensures users == old(users)
    {
      var tIdx := FindMockTool(tools, item.toolId);
      if tIdx.None? {
        return Some("Tool not found: " + item.toolId);
      }
      var i := tIdx.value;
      if tools[i].availableQty.Finite? {
        if tools[i].availableQty.n < item.quantity {
          return Some("Not enough stock for " + item.toolId);
        }
        var left := tools[i].availableQty.n - item.quantity;
        tools := tools[i := tools[i].(availableQty := Finite(left))];
        tools := tools[i := tools[i].(status := if left > 0 then "Available" else "Borrowed")];
      }
      transactions := transactions + [MockTx(item.toolId, userId, item.quantity, "Borrowed", now)];
      return None;
    }

    /** The body of the return loop for one item. */
    method ReturnLine(userId: string, item: ReturnItem) returns (thrown: Option<string>)
      modifies this
      ensures Outcome(tools, transactions, thrown) == ReturnOne(old(tools), old(transactions), userId, item)
      ensures users == old(users)
    {
      var rIdx := FindMockTool(tools, item.toolId);
      if rIdx.None? {
        return Some("Tool not found: " + item.toolId);
      }
      var i := rIdx.value;
      if tools[i].availableQty.Finite? {
        tools := tools[i := tools[i].(availableQty := Finite(tools[i].availableQty.n + 1), status := "Available")];
      }
      var transIdx := FindBorrowedTx(transactions, item.toolId, userId);
      if transIdx.Some? {
        transactions := transactions[..transIdx.value] + transactions[transIdx.value + 1..];
      }
      return None;
    }

    /** `borrowTool` / `borrowToolBatch`. */
    method Borrow(payload: BorrowPayload, now: int) returns (reply: MockReply)
      modifies this
      ensures var o := BorrowAll(old(tools), old(transactions), payload.userId, BorrowItems(payload), now);
        tools == o.tools && transactions == o.txs &&
        reply == (if o.thrown.Some? then Thrown(o.thrown.value) else Success)
      ensures users == old(users)
    {
      var borrowItems := BorrowItems(payload);
      for k := 0 to |borrowItems|
        invariant BorrowAll(tools, transactions, payload.userId, borrowItems[k..], now)
               == BorrowAll(old(tools), old(transactions), payload.userId, borrowItems, now)
        invariant users == old(users)
      {
        assert borrowItems[k..][0] == borrowItems[k] && borrowItems[k..][1..] == borrowItems[k + 1..];
        var thrown := BorrowLine(payload.userId, borrowItems[k], now);
        if thrown.Some? {
          return Thrown(thrown.value);
        }
      }
      return Success;
    }

    /** `returnTool` / `returnToolBatch`. */
    method Return(payload: ReturnPayload) returns (reply: MockReply)
      modifies this
      ensures var o := ReturnAll(old(tools), old(transactions), payload.userId, ReturnItems(payload));
        tools == o.tools && transactions == o.txs &&
        reply == (if o.thrown.Some? then Thrown(o.thrown.value) else Success)
      ensures users == old(users)
    {
      var returnItems := ReturnItems(payload);
      for k := 0 to |returnItems|
        invariant ReturnAll(tools, transactions, payload.userId, returnItems[k..])
               == ReturnAll(old(tools), old(transactions), payload.userId, returnItems)
        invariant users == old(users)
      {
        assert returnItems[k..][0] == returnItems[k] && returnItems[k..][1..] == returnItems[k + 1..];
        var thrown := ReturnLine(payload.userId, returnItems[k]);
        if thrown.Some? {
          return Thrown(thrown.value);
        }
      }
      return Success;
    }

    /** `registerUser`. */
    method RegisterUser(payload: MockUser) returns (reply: MockReply)
      modifies this
      ensures users == Upsert(old(users), payload) && reply == Success
      ensures tools == old(tools) && transactions == old(transactions)
    {
      var existingIdx := FindMockUser(users, payload.userId);
      if existingIdx.Some? {
        users := users[existingIdx.value := payload];
      } else {
        users := users + [payload];
      }
      return Success;
    }

    /** `updateUserPin`. */
    method UpdateUserPin(userId: string, pin: string) returns (reply: MockReply)
      modifies this
      ensures FindMockUser(old(users), userId).None? ==>
        reply == Failure("User not found") && users == old(users)
      ensures FindMockUser(old(users), userId).Some? ==>
        var i := FindMockUser(old(users), userId).value;
        reply == Success && users == old(users)[i := old(users)[i].(pin := Some(pin))]
      ensures tools == old(tools) && transactions == old(transactions)
    {
      var uIdx := FindMockUser(users, userId);
      if uIdx.Some? {
        users := users[uIdx.value := users[uIdx.value].(pin := Some(pin))];
        return Success;
      }
      return Failure("User not found");
    }

    /** `checkUser`: reports the first record with the User ID and, as a side
        effect, gives it role "user" when it has none. */
    method CheckUser(userId: string) returns (found: bool, user: Option<MockUser>)
      modifies this
      ensures users == CheckUserEffect(old(users), userId)
      ensures found <==> FindMockUser(old(users), userId).Some?
      ensures found ==> user == Some(users[FindMockUser(old(users), userId).value])
      ensures !found ==> user == None
      ensures tools == old(tools) && transactions == old(transactions)
    {
      var i := FindMockUser(users, userId);
      if i.None? {
        return false, None;
      }
      if !Truthy(users[i.value].role) {
        users := users[i.value := users[i.value].(role := Some("user"))];
      }
      return true, Some(users[i.value]);
    }
  }

  // ---------------------------------------------------------------------------
  // Properties
  // ---------------------------------------------------------------------------

  /** A batch is the composition of its lines: the outcome of the whole batch is
      the outcome of a prefix followed by the rest, and a throw in the prefix is
      the batch's outcome. Effects of lines before a throw are therefore kept. */
  lemma {:induction false} BorrowAllSplit(tools: seq<MockTool>, txs: seq<MockTx>, userId: string,
                                          items: seq<BorrowItem>, k: nat, now: int)
    requires k <= |items|
    ensures var p := BorrowAll(tools, txs, userId, items[..k], now);
      BorrowAll(tools, txs, userId, items, now) ==
        (if p.thrown.Some? then p else BorrowAll(p.tools, p.txs, userId, items[k..], now))
    decreases k
  {
    if k == 0 {
      assert items[..0] == [] && items[0..] == items;
    } else {
      var o := BorrowOne(tools, txs, userId, items[0], now);
      assert items[..k][0] == items[0] && items[..k][1..] == items[1..][..k - 1];
      assert items[1..][k - 1..] == items[k..];
      if o.thrown.None? {
        BorrowAllSplit(o.tools, o.txs, userId, items[1..], k - 1, now);
      }
    }
  }

  /** The total quantity a batch asks of one tool. */
  function SumItems(items: seq<BorrowItem>, id: string): int
  {
    if items == [] then 0 else (if items[0].toolId == id then items[0].quantity else 0) + SumItems(items[1..], id)
  }

  /** A batch that does not throw lowers each counted tool by the total its
      lines ask of it; a "จำนวนมาก" tool, and a later row that repeats a Tool
      ID, are left as they were. */
  lemma {:induction false} BorrowAllStock(tools: seq<MockTool>, txs: seq<MockTx>, userId: string,
                                          items: seq<BorrowItem>, now: int, j: nat)
    requires j < |tools|
    ensures var o := BorrowAll(tools, txs, userId, items, now);
      o.thrown.None? ==>
        if tools[j].availableQty.Finite? && FindMockTool(tools, tools[j].toolId) == Some(j) then
          o.tools[j].availableQty == Finite(tools[j].availableQty.n - SumItems(items, tools[j].toolId))
        else o.tools[j].availableQty == tools[j].availableQty
    decreases |items|
  {
    if items != [] {
      var o := BorrowOne(tools, txs, userId, items[0], now);
      if o.thrown.None? {
        var id := tools[j].toolId;
        FirstFromSameKeys(o.tools, tools, id);
        var first := tools[j].availableQty.Finite? && FindMockTool(tools, id) == Some(j);
        assert o.tools[j].availableQty ==
          if first && items[0].toolId == id then Finite(tools[j].availableQty.n - items[0].quantity)
          else tools[j].availableQty;
        BorrowAllStock(o.tools, o.txs, userId, items[1..], now, j);
      }
    }
  }

  /** `findIndex` by Tool ID depends only on the Tool IDs. */
  lemma FirstFromSameKeys(s: seq<MockTool>, t: seq<MockTool>, id: string)
    requires |s| == |t| && forall m :: 0 <= m < |s| ==> s[m].toolId == t[m].toolId
    ensures FindMockTool(s, id) == FindMockTool(t, id)
  {
    var p := (x: MockTool) => x.toolId == id;
    FirstFromAgree(s, t, p, 0);
  }

  lemma {:induction false} FirstFromAgree(s: seq<MockTool>, t: seq<MockTool>, p: MockTool -> bool, from: nat)
    requires from <= |s| == |t|
    requires forall m :: 0 <= m < |s| ==> p(s[m]) == p(t[m])
    ensures FirstFrom(s, p, from) == FirstFrom(t, p, from)
    decreases |s| - from
  {
    if from < |s| {
      FirstFromAgree(s, t, p, from + 1);
    }
  }

  /** No counted stock goes below zero: a line that would overdraw throws
      before changing anything. */
  lemma {:induction false} BorrowAllNeverNegative(tools: seq<MockTool>, txs: seq<MockTx>, userId: string,
                                                  items: seq<BorrowItem>, now: int)
    requires forall j :: 0 <= j < |tools| && tools[j].availableQty.Finite? ==> tools[j].availableQty.n >= 0
    ensures var o := BorrowAll(tools, txs, userId, items, now);
      forall j :: 0 <= j < |o.tools| && o.tools[j].availableQty.Finite? ==> o.tools[j].availableQty.n >= 0
    decreases |items|
  {
    if items != [] {
      var o := BorrowOne(tools, txs, userId, items[0], now);
      if o.thrown.None? {
        assert forall j :: 0 <= j < |o.tools| && o.tools[j].availableQty.Finite? ==> o.tools[j].availableQty.n >= 0 by {
          forall j | 0 <= j < |o.tools| && o.tools[j].availableQty.Finite?
            ensures o.tools[j].availableQty.n >= 0
          {
            if tools[j] != o.tools[j] {
              assert FindMockTool(tools, items[0].toolId) == Some(j);
            }
          }
        }
        BorrowAllNeverNegative(o.tools, o.txs, userId, items[1..], now);
        assert BorrowAll(tools, txs, userId, items, now) == BorrowAll(o.tools, o.txs, userId, items[1..], now);
      }
    }
  }

  /** The return loop's first throw ends the request, with the earlier lines'
      stock and transaction changes kept. */
  lemma {:induction false} ReturnAllSplit(tools: seq<MockTool>, txs: seq<MockTx>, userId: string,
                                          items: seq<ReturnItem>, k: nat)
    requires k <= |items|
    ensures var p := ReturnAll(tools, txs, userId, items[..k]);
      ReturnAll(tools, txs, userId, items) ==
        (if p.thrown.Some? then p else ReturnAll(p.tools, p.txs, userId, items[k..]))
    decreases k
  {
    if k == 0 {
      assert items[..0] == [] && items[0..] == items;
    } else {
      var o := ReturnOne(tools, txs, userId, items[0]);
      assert items[..k][0] == items[0] && items[..k][1..] == items[1..][..k - 1];
      assert items[1..][k - 1..] == items[k..];
      if o.thrown.None? {
        ReturnAllSplit(o.tools, o.txs, userId, items[1..], k - 1);
      }
    }
  }

  /** The number of "Borrowed" transactions of a tool by a user. */
  function CountBorrowed(txs: seq<MockTx>, toolId: string, userId: string): nat
  {
    if txs == [] then 0
    else (if OpenMockTx(txs[0], toolId, userId) then 1 else 0)
         + CountBorrowed(txs[1..], toolId, userId)
  }

  lemma {:induction false} CountBorrowedAppend(a: seq<MockTx>, b: seq<MockTx>, toolId: string, userId: string)
    ensures CountBorrowed(a + b, toolId, userId) == CountBorrowed(a, toolId, userId) + CountBorrowed(b, toolId, userId)
    decreases |a|
  {
    if a == [] {
      assert a + b == b;
    } else {
      assert (a + b)[1..] == a[1..] + b;
      CountBorrowedAppend(a[1..], b, toolId, userId);
    }
  }

  /** Splicing out the first match removes exactly one of the counted transactions. */
  lemma CountBorrowedSplice(txs: seq<MockTx>, toolId: string, userId: string)
    requires FindBorrowedTx(txs, toolId, userId).Some?
    ensures var t := FindBorrowedTx(txs, toolId, userId).value;
      CountBorrowed(txs[..t] + txs[t + 1..], toolId, userId) + 1 == CountBorrowed(txs, toolId, userId)
  {
    var t := FindBorrowedTx(txs, toolId, userId).value;
    assert txs == txs[..t] + txs[t..];
    assert txs[t..] == [txs[t]] + txs[t + 1..];
    CountBorrowedAppend(txs[..t], txs[t..], toolId, userId);
    CountBorrowedAppend(txs[..t], txs[t + 1..], toolId, userId);
    CountBorrowedAppend([txs[t]], txs[t + 1..], toolId, userId);
    assert [txs[t]][1..] == [];
  }

  /** A borrow of `q` counted items followed by a return of the same tool by the
      same user closes one loan, but puts back 1 whatever `q` was: the stock
      ends `q - 1` lower than it started. */
  lemma BorrowThenReturn(tools: seq<MockTool>, txs: seq<MockTx>, userId: string, item: BorrowItem,
                         condition: string, notes: string, now: int)
    requires BorrowOne(tools, txs, userId, item, now).thrown.None?
    requires FindMockTool(tools, item.toolId).Some?
    requires tools[FindMockTool(tools, item.toolId).value].availableQty.Finite?
    ensures var b := BorrowOne(tools, txs, userId, item, now);
      var r := ReturnOne(b.tools, b.txs, userId, ReturnItem(item.toolId, condition, notes));
      var i := FindMockTool(tools, item.toolId).value;
      r.thrown.None? &&
      r.tools[i].availableQty == Finite(tools[i].availableQty.n - item.quantity + 1) &&
      CountBorrowed(r.txs, item.toolId, userId) == CountBorrowed(txs, item.toolId, userId)
  {
    var b := BorrowOne(tools, txs, userId, item, now);
    var i := FindMockTool(tools, item.toolId).value;
    FirstFromSameKeys(b.tools, tools, item.toolId);
    var pushed := MockTx(item.toolId, userId, item.quantity, "Borrowed", now);
    assert b.txs == txs + [pushed];
    CountBorrowedAppend(txs, [pushed], item.toolId, userId);
    assert [pushed][1..] == [];
    assert FindBorrowedTx(b.txs, item.toolId, userId).Some? by {
      assert OpenMockTx(b.txs[|txs|], item.toolId, userId);
    }
    CountBorrowedSplice(b.txs, item.toolId, userId);
  }

  /** After `registerUser`, `findIndex` finds the registered record. */
  lemma RegisterThenFind(users: seq<MockUser>, u: MockUser)
    ensures var r := Upsert(users, u);
      FindMockUser(r, u.userId).Some? && r[FindMockUser(r, u.userId).value] == u
  {
    var r := Upsert(users, u);
    var p := (x: MockUser) => x.userId == u.userId;
    match FindMockUser(users, u.userId)
    case Some(i) =>
      FirstFromPrefixUser(r, p, i);
    case None =>
      FirstFromPrefixUser(r, p, |users|);
  }

  /** A forward scan that passes no match before `i` and matches at `i` stops there. */
  lemma {:induction false} FirstFromPrefixUser(s: seq<MockUser>, p: MockUser -> bool, i: nat)
    requires i < |s| && p(s[i]) && forall j :: 0 <= j < i ==> !p(s[j])
    ensures FirstFrom(s, p, 0) == Some(i)
  {
  }

  /** `checkUser` leaves a found user with a role, and running it twice changes
      nothing more than running it once. */
  lemma CheckUserGivesRole(users: seq<MockUser>, id: string)
    ensures var r := CheckUserEffect(users, id);
      FindMockUser(r, id) == FindMockUser(users, id) &&
      (FindMockUser(r, id).Some? ==> Truthy(r[FindMockUser(r, id).value].role)) &&
      CheckUserEffect(r, id) == r
  {
    var r := CheckUserEffect(users, id);
    var p := (x: MockUser) => x.userId == id;
    assert forall m :: 0 <= m < |users| ==> p(r[m]) == p(users[m]) by {
      forall m | 0 <= m < |users|
        ensures p(r[m]) == p(users[m])
      {
        if Some(m) == FindMockUser(users, id) {
          assert r[m].userId == users[m].userId;
        }
      }
    }
    FirstFromAgreeUser(r, users, p, 0);
  }

  lemma {:induction false} FirstFromAgreeUser(s: seq<MockUser>, t: seq<MockUser>, p: MockUser -> bool, from: nat)
    requires from <= |s| == |t|
    requires forall m :: 0 <= m < |s| ==> p(s[m]) == p(t[m])
    ensures FirstFrom(s, p, from) == FirstFrom(t, p, from)
    decreases |s| - from
  {
    if from < |s| {
      FirstFromAgreeUser(s, t, p, from + 1);
    }
  }
}
