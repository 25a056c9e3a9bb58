/** The admin console's helpers (admin/js/admin.js): Drive preview links, the
    capped activity log, the dashboard counters, the overdue table's filter,
    the PIN login and PIN setup, and the tool search. */
module AdminPanel {
  import opened SheetRows
  import opened Text
  import SingleBackend

  // ---------------------------------------------------------------------------
  // Drive links
  // ---------------------------------------------------------------------------

  /** `s.replace(p, q)` with a string pattern: only the first occurrence is replaced. */
  function ReplaceFirst(s: string, p: string, q: string): (r: string)
    ensures IndexOf(s, p) < 0 ==> r == s
    ensures IndexOf(s, p) >= 0 ==>
      var i := IndexOf(s, p);
      r == s[..i] + q + s[i + |p|..]
  {
    var i := IndexOf(s, p);
    if i < 0 then s else s[..i] + q + s[i + |p|..]
  }

  /** `formatDriveUrl`. */
  function FormatDriveUrl(url: string): string
  {
    if Contains(url, "drive.google.com") && Contains(url, "/view") then ReplaceFirst(url, "/view", "/preview")
    else url
  }

  /** A Drive viewer link becomes a preview link: the text before the first
      "/view" is kept, that "/view" becomes "/preview", and the rest is kept.
      Any other URL is returned unchanged. */
  lemma FormatDriveUrlMeaning(url: string)
    ensures FormatDriveUrl(url) != url <==> Contains(url, "drive.google.com") && Contains(url, "/view")
    ensures FormatDriveUrl(url) != url ==>
      exists i: nat :: OccursAt(url, "/view", i) && (forall j: nat :: j < i ==> !OccursAt(url, "/view", j)) &&
        FormatDriveUrl(url) == url[..i] + "/preview" + url[i + 5..]
  {
    if Contains(url, "drive.google.com") && Contains(url, "/view") {
      var i := IndexOf(url, "/view");
      assert |FormatDriveUrl(url)| == |url| + 3;
      assert OccursAt(url, "/view", i);
    }
  }

  // ---------------------------------------------------------------------------
  // The activity log
  // ---------------------------------------------------------------------------

  datatype LogEntry = LogEntry(time: string, action: string, user: string)

  /** The most entries the log keeps. */
  const LogCap: nat := 50

  /** `logs.unshift(entry)` then `logs.slice(0, 50)`. */
  function PushLog(logs: seq<LogEntry>, e: LogEntry): (r: seq<LogEntry>)
    ensures |r| == if |logs| + 1 < LogCap then |logs| + 1 else LogCap
    ensures r[0] == e
    ensures forall k :: 1 <= k < |r| ==> r[k] == logs[k - 1]
  {
    var all := [e] + logs;
    if |all| <= LogCap then all else all[..LogCap]
  }

  /** The log after a run of actions from an empty log, oldest first. */
  function LogAfter(entries: seq<LogEntry>): seq<LogEntry>
  {
    if entries == [] then [] else PushLog(LogAfter(entries[..|entries| - 1]), entries[|entries| - 1])
  }

  /** The log always shows the 50 newest actions, newest first: the same window
      the batch backend's `getAdminLogs` reads from its Logs sheet. */
  lemma {:induction false} LogAfterIsNewestWindow(entries: seq<LogEntry>)
    ensures LogAfter(entries) == NewestFirst(entries, LogCap)
  {
    if entries != [] {
      var init := entries[..|entries| - 1];
      LogAfterIsNewestWindow(init);
      var r := LogAfter(entries);
      var w := NewestFirst(entries, LogCap);
      assert |r| == |w|;
      forall k | 0 <= k < |r|
        ensures r[k] == w[k]
      {
        if k > 0 {
          assert r[k] == NewestFirst(init, LogCap)[k - 1];
        }
      }
    }
  }

  /** The console's log (kept in local storage as JSON). */
  class AdminLog {
    var logs: seq<LogEntry>

    constructor ()
      ensures logs == []
    {
      logs := [];
    }

    /** `logAdminAction`: the new entry first, at most 50 kept. */
    method LogAction(time: string, action: string)
      modifies this
      ensures logs == PushLog(old(logs), LogEntry(time, action, "Super Admin"))
    {
      logs := [LogEntry(time, action, "Super Admin")] + logs;
      if |logs| > LogCap {
        logs := logs[..LogCap];
      }
    }
  }

  // ---------------------------------------------------------------------------
  // Dashboard counters
  // ---------------------------------------------------------------------------

  /** A tool as the console lists it. */
  datatype AdminTool = AdminTool(toolId: string, toolName: string, availableQty: Avail,
                                 location: string, status: string)

  /** `tools.filter(t => t.status === st).length`. */
  function CountStatus(tools: seq<AdminTool>, st: string): (r: nat)
    ensures r == |set k | 0 <= k < |tools| && tools[k].status == st|
  {
    if tools == [] then 0
    else
      var init := tools[..|tools| - 1];
      var last := tools[|tools| - 1];
      assert (set k | 0 <= k < |tools| && tools[k].status == st) ==
             (set k | 0 <= k < |init| && init[k].status == st) + (if last.status == st then {|tools| - 1} else {});
      CountStatus(init, st) + (if last.status == st then 1 else 0)
  }

  /** A counted stock below 2: what the low-stock counter counts. */
  predicate LowStock(t: AdminTool)
  {
    t.availableQty.Finite? && t.availableQty.n < 2
  }

  function CountLowStock(tools: seq<AdminTool>): (r: nat)
    ensures r == |set k | 0 <= k < |tools| && LowStock(tools[k])|
  {
    if tools == [] then 0
    else
      var init := tools[..|tools| - 1];
      var last := tools[|tools| - 1];
      assert (set k | 0 <= k < |tools| && LowStock(tools[k])) ==
             (set k | 0 <= k < |init| && LowStock(init[k])) + (if LowStock(last) then {|tools| - 1} else {});
      CountLowStock(init) + (if LowStock(last) then 1 else 0)
  }

  datatype Stats = Stats(total: nat, borrowed: nat, overdue: nat, lowStock: nat)

  /** `updateDashboardStats`. */
  function DashboardStats(tools: seq<AdminTool>): Stats
  {
    Stats(|tools|, CountStatus(tools, "Borrowed"), CountStatus(tools, "Overdue"), CountLowStock(tools))
  }

  /** The two status counters count different tools, so together they never
      exceed the total. */
  lemma StatusCountersDisjoint(tools: seq<AdminTool>)
    ensures DashboardStats(tools).borrowed + DashboardStats(tools).overdue <= DashboardStats(tools).total
  {
    CountTwoStatuses(tools, "Borrowed", "Overdue");
  }

  lemma {:induction false} CountTwoStatuses(tools: seq<AdminTool>, a: string, b: string)
    requires a != b
    ensures CountStatus(tools, a) + CountStatus(tools, b) <= |tools|
  {
    if tools != [] {
      CountTwoStatuses(tools[..|tools| - 1], a, b);
    }
  }

  lemma SubsetSize(a: set<int>, b: set<int>)
    requires a <= b
    ensures |a| <= |b|
  {
    assert b == a + (b - a);
  }

  /** A tool row the backend's `getTools` produced. */
  predicate FromBackend(t: AdminTool)
  {
    t.status == DerivedStatus(t.availableQty)
  }

  /** On tools whose status the backend derived from their stock, the
      "Overdue" counter is always 0 and every "Borrowed" tool is also counted
      as low stock. */
  lemma BackendToolCounters(tools: seq<AdminTool>)
    requires forall k :: 0 <= k < |tools| ==> FromBackend(tools[k])
    ensures DashboardStats(tools).overdue == 0
    ensures DashboardStats(tools).borrowed <= DashboardStats(tools).lowStock
  {
    var b := set k | 0 <= k < |tools| && tools[k].status == "Borrowed";
    var l := set k | 0 <= k < |tools| && LowStock(tools[k]);
    var o := set k | 0 <= k < |tools| && tools[k].status == "Overdue";
    assert o == {} by {
      forall k | 0 <= k < |tools|
        ensures tools[k].status != "Overdue"
      {
        assert tools[k].status == "Available" || tools[k].status == "Borrowed";
      }
    }
    assert b <= l by {
      forall k | k in b
        ensures k in l
      {
        assert tools[k].status == "Borrowed";
      }
    }
    SubsetSize(b, l);
  }

  // ---------------------------------------------------------------------------
  // The overdue table
  // ---------------------------------------------------------------------------

  /** A transaction as the console lists it; `status` may be missing (""). */
  datatype AdminTx = AdminTx(txId: string, toolId: string, userId: string, status: string,
                             expectedReturnDate: Option<int>)

  /** A lower-cased status the overdue table accepts. */
  predicate OpenText(lowered: string)
  {
    lowered == "borrowed" || lowered == "overdue"
  }

  /** The filter of `renderOverdueTable`, against today's midnight. */
  predicate ShownOverdue(t: AdminTx, midnight: int)
  {
    t.status != "" && OpenText(Lower(t.status)) &&
    t.expectedReturnDate.Some? && t.expectedReturnDate.value < midnight
  }

  function OverdueItems(txs: seq<AdminTx>, midnight: int): (r: seq<AdminTx>)
    ensures |r| <= |txs|
    ensures forall t :: t in r <==> t in txs && ShownOverdue(t, midnight)
    ensures forall t :: multiset(r)[t] == if ShownOverdue(t, midnight) then multiset(txs)[t] else 0
  {
    if txs == [] then []
    else
      var init := txs[..|txs| - 1];
      var t := txs[|txs| - 1];
      assert txs == init + [t];
      OverdueItems(init, midnight) + (if ShownOverdue(t, midnight) then [t] else [])
  }

  /** A Transactions row as the console receives it. */
  function AsAdminTx(t: TxRow): AdminTx
  {
    AdminTx(t.txId, t.toolId, t.userId, StatusText(t.status), t.expectedReturn)
  }

  /** The console's lower-cased status test picks out exactly the open loans. */
  lemma LowerStatusText(st: TxStatus)
    ensures OpenText(Lower(StatusText(st))) <==> IsOpen(st)
  {
    if IsOpen(st) {
      LowerOpenStatus(st);
    } else {
      LowerClosedStatus(st);
    }
  }

  lemma LowerOpenStatus(st: TxStatus)
    requires IsOpen(st)
    ensures OpenText(Lower(StatusText(st)))
  {
    var t := StatusText(st);
    if st == Borrowed {
      LowerWord(t, "borrowed");
    } else {
      LowerWord(t, "overdue");
    }
  }

  lemma LowerClosedStatus(st: TxStatus)
    requires !IsOpen(st)
    ensures !OpenText(Lower(StatusText(st)))
  {
    var t := StatusText(st);
    if st == Returned {
      LowerWord(t, "returned");
    } else {
      LowerWord(t, "returned_processing");
    }
  }

  /** The table lists exactly the open loans whose expected return is before
      midnight; every loan it lists is one that the single-item backend's
      daily sweep, run at any time after that midnight, leaves "Overdue". */
  lemma OverdueTableMeaning(t: TxRow, midnight: int, now: int)
    requires midnight <= now
    ensures ShownOverdue(AsAdminTx(t), midnight) <==>
      IsOpen(t.status) && t.expectedReturn.Some? && t.expectedReturn.value < midnight
    ensures ShownOverdue(AsAdminTx(t), midnight) ==>
      SingleBackend.MarkRow(t, now).status == Overdue
  {
    LowerStatusText(t.status);
  }

  // ---------------------------------------------------------------------------
  // PIN login and setup
  // ---------------------------------------------------------------------------

  /** `handleLogin`: the current user must have a non-empty PIN and the input
      must equal it exactly. */
  predicate LoginOk(pin: Option<string>, input: string)
  {
    pin.Some? && pin.value != "" && input == pin.value
  }

  datatype AdminUser = AdminUser(userId: string, fullName: string, role: string, pin: Option<string>)

  datatype SetupResult = Mismatch | BadLength | Saved | SaveFailed

  /** `handleSetupPin`: mismatching entries and PINs that are not 4 characters
      are refused before anything changes; with no current user the assignment
      throws and the save fails. */
  function SetupPin(user: Option<AdminUser>, newPin: string, confirmPin: string): (r: (SetupResult, Option<AdminUser>))
    ensures r.0 == Mismatch <==> newPin != confirmPin
    ensures r.0 == BadLength <==> newPin == confirmPin && |newPin| != 4
    ensures r.0 == SaveFailed <==> newPin == confirmPin && |newPin| == 4 && user.None?
    ensures r.0 != Saved ==> r.1 == user
    ensures r.0 == Saved ==> user.Some? && r.1 == Some(user.value.(pin := Some(newPin)))
  {
    if newPin != confirmPin then (Mismatch, user)
    else if |newPin| != 4 then (BadLength, user)
    else if user.None? then (SaveFailed, user)
    else (Saved, Some(user.value.(pin := Some(newPin))))
  }

  /** After a successful setup the new PIN, and only it, logs in. */
  lemma SetupThenLogin(user: Option<AdminUser>, newPin: string, confirmPin: string, input: string)
    requires SetupPin(user, newPin, confirmPin).0 == Saved
    ensures var u := SetupPin(user, newPin, confirmPin).1;
      u.Some? && (LoginOk(u.value.pin, input) <==> input == newPin)
  {
  }

  /** The console's signed-in user. */
  class AdminSession {
    var currentUser: Option<AdminUser>

    constructor (user: Option<AdminUser>)
      ensures currentUser == user
    {
      currentUser := user;
    }

    method Login(input: string) returns (ok: bool)
      ensures ok == LoginOk(if currentUser.Some? then currentUser.value.pin else None, input)
    {
      var validPin := if currentUser.Some? && currentUser.value.pin.Some? && currentUser.value.pin.value != ""
                      then currentUser.value.pin else None;
      ok := validPin.Some? && input == validPin.value;
    }

    method SetupPinSubmitted(newPin: string, confirmPin: string) returns (r: SetupResult)
      modifies this
      ensures (r, currentUser) == SetupPin(old(currentUser), newPin, confirmPin)
    {
      if newPin != confirmPin {
        return Mismatch;
      }
      if |newPin| != 4 {
        return BadLength;
      }
      if currentUser.None? {
        return SaveFailed;
      }
      currentUser := Some(currentUser.value.(pin := Some(newPin)));
      return Saved;
    }
  }

  // ---------------------------------------------------------------------------
  // Tool search
  // ---------------------------------------------------------------------------

  /** The test of `handleSearch`, with the term already lower-cased. */
  predicate Matches(t: AdminTool, term: string)
  {
    Contains(Lower(t.toolName), term) || Contains(Lower(t.toolId), term) || Contains(Lower(t.location), term)
  }

  /** `handleSearch`: the tools whose name, id or location contains the term,
      ignoring ASCII case, in their order. */
  function SearchTools(tools: seq<AdminTool>, term: string): (r: seq<AdminTool>)
    ensures |r| <= |tools|
    ensures forall t :: t in r <==> t in tools && Matches(t, Lower(term))
  {
    if tools == [] then []
    else
      var init := tools[..|tools| - 1];
      var t := tools[|tools| - 1];
      assert tools == init + [t];
      SearchTools(init, term) + (if Matches(t, Lower(term)) then [t] else [])
  }

  /** The search keeps each matching tool as many times as the list holds it,
      and drops every other tool. */
  lemma {:induction false} SearchToolsMultiplicity(tools: seq<AdminTool>, term: string)
    ensures forall t ::
      multiset(SearchTools(tools, term))[t] == if Matches(t, Lower(term)) then multiset(tools)[t] else 0
  {
    if tools != [] {
      var init := tools[..|tools| - 1];
      var t := tools[|tools| - 1];
      SearchToolsMultiplicity(init, term);
      assert tools == init + [t];
      SearchToolsSnoc(init, t, term);
    }
  }

  /** An empty search box lists every tool. */
  lemma {:induction false} EmptySearchKeepsAll(tools: seq<AdminTool>)
    ensures SearchTools(tools, "") == tools
  {
    if tools != [] {
      var init := tools[..|tools| - 1];
      var t := tools[|tools| - 1];
      EmptySearchKeepsAll(init);
      EmptyTermMatches(t);
      assert tools == init + [t];
      SearchToolsSnoc(init, t, "");
    }
  }

  lemma EmptyTermMatches(t: AdminTool)
    ensures Matches(t, Lower(""))
  {
    ContainsEmpty(Lower(t.toolName));
    assert Lower("") == "";
  }

  lemma SearchToolsSnoc(init: seq<AdminTool>, t: AdminTool, term: string)
    ensures SearchTools(init + [t], term) == SearchTools(init, term) + (if Matches(t, Lower(term)) then [t] else [])
  {
    assert (init + [t])[..|init|] == init;
  }
}
