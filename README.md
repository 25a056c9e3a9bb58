# BCTL-Inventory tool ledger, modelled in Dafny

BCTL-Inventory lends workshop tools to registered users. A Google Sheets
workbook is the ledger. Its sheets are:

- Inventory: one row per tool, with its total and available quantity. The
  available cell holds a number or the word "จำนวนมาก" ("plenty", i.e. not
  counted).
- Transactions: one row per borrow or return.
- Users, and ActivityLogs.

A Google Apps Script backend serves the client pages. This project models the
ledger logic of that system:

- `BatchBackend` models the batch backend (`Reference/google_apps_script_v2_batch.js`):
  - batch borrow: a validation phase first, then the stock deductions and
    the appended "Borrow" rows;
  - batch return: a backward scan for the newest open loan, an in-memory
    "Returned_Processing" marker, restocking, and closing the loan row;
  - the legacy single-item handlers, which delegate to the batch handlers;
  - user registration, the tool CRUD handlers, the PIN update, and the
    read-only `getTools`, `getUserActiveBorrows` and `getAdminLogs`.

  `BatchSpec` states what those handlers compute, as functions of the sheets
  they read, and proves their properties.
- `SingleBackend` models the older single-item backend (`Reference/google_apps_script.js`):
  - `borrowTool`, `returnTool` (including the unmatched-return row), `checkOverdue`;
  - `registerUser`, `checkUser`, `getTools` and `getUserActiveBorrows`;
  - lemmas comparing it with the batch backend.
- `MockApi` models the in-browser mock API (`js/api.js`): `callMockApi` over
  its tool, transaction and user arrays, and the `borrowTool`/`returnTool`
  payload wrappers.
- `ToolPage` models the helpers of the user page (`js/main.js`):
  - the date formats;
  - the quantity clamp;
  - merging the user's borrows into the tool list, and the stable
    "mine first" sort;
  - the optimistic stock update;
  - the card's action button and the status badge class.
- `AdminPanel` models the helpers of the admin page (`admin/js/admin.js`):
  - the Drive preview link and the local activity log, capped at 50 entries;
  - the dashboard counters and the overdue table filter;
  - PIN login and setup, and tool search.
- `SheetRows` holds the shared row types and scans; `Text` holds the string helpers.

Sheet rows are records without their header row, so index 0 is the sheet's
row 2. Dates are integers (milliseconds). UUIDs, timestamps and Drive upload
results come in as parameters.

`returnToolBatch` skips a return line with no open loan
(`Reference/google_apps_script_v2_batch.js:291-295`). Only the single-item
backend appends a "Return (Unmatched)" row
(`Reference/google_apps_script.js:305-318`).
`SingleBackend.ReturnAgreesWithBatchWhenMatched` states where the two
backends agree.

## Model

| member | source | states |
|---|---|---|
| SheetRows.FindTool | Reference/google_apps_script_v2_batch.js:178-179 | the first Inventory row with the Tool ID, or none when no row has it |
| SheetRows.FindUser | Reference/google_apps_script_v2_batch.js:138-139 | the first Users row with the user ID, or none when no row has it |
| SheetRows.LastOpenLoan | Reference/google_apps_script_v2_batch.js:278-279 | the newest row that is an open ("Borrowed"/"Overdue") loan of that tool by that user; no newer row is one; none if no row is |
| SheetRows.OpenLoansOfMeaning | Reference/google_apps_script_v2_batch.js:416-428 | a row is among a user's active borrows iff it is a sheet row of that user with status "Borrowed" or "Overdue" |
| SheetRows.NewestFirst | Reference/google_apps_script_v2_batch.js:391-402 | the newest `cap` entries, newest first, and no more than `cap` |
| BatchSpec.Deductions | Reference/google_apps_script_v2_batch.js:203-205 | every pending deduction falls on an existing counted ("จำนวนมาก"-free) Inventory row |
| BatchSpec.ApplyDeductions | Reference/google_apps_script_v2_batch.js:217-221 | applying the deductions keeps the number of Inventory rows |
| BatchSpec.BorrowRows | Reference/google_apps_script_v2_batch.js:236-240 | one "Borrow"/"Borrowed" row per line, in line order, with the line's tool and quantity, the request's user, reason and expected date, and empty return columns |
| BatchSpec.PendingIsSumOfLines | Reference/google_apps_script_v2_batch.js:184-191 | the deduction pending on a counted row is the total quantity that the lines ask of its tool |
| BatchSpec.PendingOnUncountedRow | Reference/google_apps_script_v2_batch.js:203-205 | nothing is pending on a "จำนวนมาก" row or on a row that repeats an earlier Tool ID |
| BatchSpec.ApplyDeductionsAt | Reference/google_apps_script_v2_batch.js:217-221 | a counted row loses exactly the deductions pending on it; other rows are untouched |
| BatchSpec.CheckLineMeaning | Reference/google_apps_script_v2_batch.js:178-209 | a line fails with "not found" iff its tool has no row, and with "not enough stock" iff the row is counted and its value less earlier lines' claims is below the quantity |
| BatchSpec.CheckLinePrefix | Reference/google_apps_script_v2_batch.js:174-210 | a line's verdict depends only on the lines before it |
| BatchSpec.ValidateStopsAtFirstError | Reference/google_apps_script_v2_batch.js:193-209 | once a line fails, later lines do not change the request's error |
| BatchSpec.ValidateStep | Reference/google_apps_script_v2_batch.js:174-205 | once the earlier lines pass, the request's verdict is the new line's, and a counted row adds one deduction for it |
| BatchSpec.ValidateMeaning | Reference/google_apps_script_v2_batch.js:173-210 | a batch passes iff every line passes, and a failing batch reports the error of its first failing line |
| BatchSpec.BorrowStockEffect | Reference/google_apps_script_v2_batch.js:184-221 | after a borrow each counted row holds its value less the sum of the quantities asked of its tool; every other row is unchanged |
| BatchSpec.BorrowNeverOversells | Reference/google_apps_script_v2_batch.js:191-195 | a batch that passes validation never takes a counted row below zero |
| BatchSpec.SingleLineBorrow | Reference/google_apps_script_v2_batch.js:339-352 | a one-line batch passes iff the tool exists and its row is "จำนวนมาก" or holds at least the quantity |
| BatchSpec.FindCountedTool | Reference/google_apps_script_v2_batch.js:298-299 | the first row of the tool whose cell is not "จำนวนมาก", or none |
| BatchSpec.ReturnStep | Reference/google_apps_script_v2_batch.js:272-324 | a line with no open loan changes nothing; otherwise the newest open loan is marked in memory and closed in the sheet, and no other transaction row changes |
| BatchSpec.ReturnStepStock | Reference/google_apps_script_v2_batch.js:297-304 | a matched line puts the loan's quantity back on the tool's first counted row, with no cap, and changes no other Inventory row |
| BatchSpec.NextLineMatchesOlderLoan | Reference/google_apps_script_v2_batch.js:282-286 | after a line is matched, a second line for the same tool and user matches the next-older open loan |
| BatchSpec.ReturnAllKeepsSheet | Reference/google_apps_script_v2_batch.js:286-323 | a batch return never writes the "Returned_Processing" marker to the sheet, and the sheet and its in-memory copy keep agreeing on which rows are open |
| BatchBackend.ValidateBorrowLines | Reference/google_apps_script_v2_batch.js:173-210 | the validation loop returns the batch's first error, or all lines and the pending deductions when every line passes |
| BatchBackend.CheckBorrowLine | Reference/google_apps_script_v2_batch.js:175-209 | the check of one line is that line's verdict, and a passing line extends the pending deductions by one entry exactly when its row is counted |
| BatchBackend.FindToolRow | Reference/google_apps_script_v2_batch.js:178-179 | the scan returns the tool's first row, or -1 iff no row has the Tool ID |
| BatchBackend.Workbook.BorrowToolBatch | Reference/google_apps_script_v2_batch.js:159-250 | on a validation error, that error's text and no change to any sheet; otherwise the deductions are applied and the borrow rows appended |
| BatchBackend.Workbook.ApplyInventoryUpdates | Reference/google_apps_script_v2_batch.js:217-221 | the Inventory after the update loop is the deductions applied in order |
| BatchBackend.Workbook.AppendBorrowRows | Reference/google_apps_script_v2_batch.js:224-241 | the Transactions sheet gains exactly the borrow rows, in line order |
| BatchBackend.FindOpenLoan | Reference/google_apps_script_v2_batch.js:278-289 | the backward scan returns the newest open loan of that tool by that user, or -1 iff there is none |
| BatchBackend.FindCountedRow | Reference/google_apps_script_v2_batch.js:298-304 | the scan returns the tool's first counted row, or -1 iff there is none |
| BatchBackend.Workbook.ReturnToolBatch | Reference/google_apps_script_v2_batch.js:259-333 | always succeeds; Inventory and Transactions become the lines' return steps applied in order; Users and logs are unchanged |
| BatchBackend.Workbook.ReturnOneLine | Reference/google_apps_script_v2_batch.js:273-323 | one pass of the return loop leaves the sheets and the in-memory copy in the return step's state |
| BatchBackend.Workbook.BorrowTool | Reference/google_apps_script_v2_batch.js:339-352 | "Tool ID not found", "Not enough stock" (counted row below the quantity), or the row deducted and one borrow row appended |
| BatchBackend.Workbook.ReturnTool | Reference/google_apps_script_v2_batch.js:354-368 | one return step of a one-line batch |
| BatchBackend.Workbook.RegisterUser | Reference/google_apps_script_v2_batch.js:131-146 | an existing user gets the new name, department and cohort ("Profile updated") and keeps role and PIN; a new user is appended with role "user" and no PIN |
| BatchBackend.Workbook.AddTool | Reference/google_apps_script_v2_batch.js:442-449 | an existing Tool ID is refused; otherwise a row is appended whose available quantity is its total |
| BatchBackend.Workbook.UpdateTool | Reference/google_apps_script_v2_batch.js:451-460 | "Tool not found", or the first row with the ID is overwritten except for its ID |
| BatchBackend.Workbook.DeleteTool | Reference/google_apps_script_v2_batch.js:462-468 | "Tool not found", or exactly the first row with the ID is removed |
| BatchBackend.Workbook.UpdateUserPin | Reference/google_apps_script_v2_batch.js:470-475 | "User not found", or only the first matching user's PIN changes |
| BatchBackend.GetTools | Reference/google_apps_script_v2_batch.js:94-109 | one entry per row with its cells; status "Available" iff the cell is "จำนวนมาก" or positive, else "Borrowed" |
| BatchBackend.GetUserActiveBorrows | Reference/google_apps_script_v2_batch.js:416-428 | exactly the user's open loans, in sheet order |
| BatchBackend.GetAdminLogs | Reference/google_apps_script_v2_batch.js:391-402 | the newest 50 log rows (fewer if there are fewer), newest first |
| SingleBackend.BorrowEffect | Reference/google_apps_script.js:194-250 | "Tool not found" for an unknown tool; "Not enough stock" iff the row is counted and below the quantity; any error leaves both sheets unchanged; success appends the borrow row and deducts a counted row only |
| SingleBackend.ReturnEffect | Reference/google_apps_script.js:257-328 | an unknown tool changes nothing; otherwise the first row of the tool gains the matched loan's quantity (1 if unmatched), unless it is "จำนวนมาก"; the newest open loan is closed, or a "Return (Unmatched)" row is appended |
| SingleBackend.MarkOverdue | Reference/google_apps_script.js:335-351 | every "Borrowed" row whose expected date has passed becomes "Overdue"; every other row is unchanged |
| SingleBackend.Spreadsheet.RegisterUser | Reference/google_apps_script.js:151-164 | always appends a Users row, even for an existing ID |
| SingleBackend.Spreadsheet.BorrowTool | Reference/google_apps_script.js:194-250 | the reply and the new sheets are those of the borrow effect |
| SingleBackend.Spreadsheet.ReturnTool | Reference/google_apps_script.js:257-328 | the reply and the new sheets are those of the return effect |
| SingleBackend.Spreadsheet.CheckOverdue | Reference/google_apps_script.js:335-351 | the Transactions sheet becomes the overdue sweep of the old one; Inventory is unchanged |
| SingleBackend.GetTools | Reference/google_apps_script.js:100-121 | one entry per row with its cells; "Available" iff the cell is "จำนวนมาก" or positive |
| SingleBackend.CheckUser | Reference/google_apps_script.js:126-146 | found iff some row has the ID; the profile is that of the first such row |
| SingleBackend.GetUserActiveBorrows | Reference/google_apps_script.js:169-189 | exactly the user's "Borrowed"/"Overdue" rows, in sheet order |
| SingleBackend.MarkOverdueIdempotent | Reference/google_apps_script.js:341-349 | sweeping twice with the same clock is sweeping once |
| SingleBackend.MarkOverdueKeepsOpenLoans | Reference/google_apps_script.js:341-349 | the sweep does not change which loan a return would close |
| SingleBackend.BorrowAgreesWithBatchOfOne | Reference/google_apps_script.js:208-243 | the single-item borrow succeeds iff a one-line batch passes validation, and then leaves the same Inventory |
| SingleBackend.ReturnAgreesWithBatchWhenMatched | Reference/google_apps_script.js:269-300 | when a loan matches and the tool has one row, both backends' returns leave the same Inventory |
| MockApi.WrapBorrow | js/api.js:174-188 | the wrapper sends the single item as a one-element `items` list and keeps user, reason and expected date |
| MockApi.WrapReturn | js/api.js:201-214 | the wrapper sends the single item as a one-element `items` list and keeps the user |
| MockApi.BorrowOne | js/api.js:88-107 | a line throws iff its tool is unknown or counted with less than the quantity, and a throw changes nothing; otherwise a counted tool drops by the quantity, never below zero, with status "Available" iff some is left; "จำนวนมาก" and all other tools are unchanged, and one "Borrowed" transaction is pushed |
| MockApi.FindBorrowedTx | js/api.js:126 | the oldest transaction of the tool by the user with status "Borrowed", or none when there is none |
| MockApi.ReturnOne | js/api.js:112-130 | a line throws iff its tool is unknown, and a throw changes nothing; otherwise a counted tool gains exactly 1 and becomes "Available", "จำนวนมาก" and other tools are unchanged, and the oldest matching "Borrowed" transaction is spliced out, every other one kept in order (none removed when none matches) |
| MockApi.ReturnAllSplit | js/api.js:112-130 | the return loop composes: the first throw ends the request, with the earlier lines' stock and transaction changes kept |
| MockApi.BorrowAllPushes | js/api.js:100-106 | a batch that throws nothing pushes one "Borrowed" transaction per item, in order |
| MockApi.BorrowAllSplit | js/api.js:88-107 | the item loop composes: the first throw ends the request with the state reached so far |
| MockApi.BorrowAllStock | js/api.js:89-97 | a batch that throws nothing leaves each counted tool at its value less the sum asked of it; "จำนวนมาก" and duplicate rows keep theirs |
| MockApi.BorrowAllNeverNegative | js/api.js:93-94 | stock never drops below zero |
| MockApi.CountBorrowedSplice | js/api.js:126-129 | removing the first matching transaction lowers the user's open count for that tool by exactly one |
| MockApi.BorrowThenReturn | js/api.js:83-131 | borrowing q of a counted tool and returning it leaves q - 1 fewer in stock (the +1 return) and the open count as before |
| MockApi.Upsert | js/api.js:71-75 | an existing ID is replaced in place, a new one appended; other users are unchanged |
| MockApi.RegisterThenFind | js/api.js:71-75 | after registering, finding that ID returns the registered record |
| MockApi.CheckUserEffect | js/api.js:67-70 | only the found user may change, and only its role: a missing or empty role becomes "user", a set role and every other field are kept |
| MockApi.CheckUserGivesRole | js/api.js:67-70 | after a check the found user has a truthy role; a second check changes nothing |
| MockApi.ActiveBorrows | js/api.js:132-134 | a transaction is listed iff it belongs to the user and is "Borrowed" |
| MockApi.ActiveBorrowsMultiplicity | js/api.js:132-134 | each of the user's "Borrowed" transactions is listed as many times as the table holds it |
| MockApi.MockStore.Borrow | js/api.js:83-108 | the new tools and transactions are the item loop's outcome; a throw becomes the thrown reply |
| MockApi.MockStore.Return | js/api.js:110-131 | the new tools and transactions are the return loop's outcome |
| MockApi.MockStore.RegisterUser | js/api.js:71-75 | the users become the upsert of the payload |
| MockApi.MockStore.UpdateUserPin | js/api.js:76-82 | "User not found", or only that user's PIN changes |
| MockApi.MockStore.CheckUser | js/api.js:67-70 | found iff the ID is known; the users become the check's effect |
| Text.Lower | admin/js/admin.js:1052 | lowercasing keeps the length and maps every character |
| Text.IndexFrom | admin/js/admin.js:681 | the first occurrence at or after `from`, or -1 iff there is none |
| Text.ContainsIff | admin/js/admin.js:1054 | `includes` holds iff the pattern occurs at some position |
| Text.ParseNatToString | js/main.js:932-937 | a printed natural number reads back as itself |
| Text.Pad2RoundTrip | js/main.js:935 | `padStart(2, '0')` of a number below 100 has two digits and reads back as the number |
| Text.LastTwoDigits | js/main.js:141 | `slice(-2)` of a year of two or more digits is its last two digits |
| ToolPage.FormatDateRoundTrip | js/main.js:932-937 | a valid date formatted as YYYY-MM-DD parses back to itself |
| ToolPage.FormatDisplayDateRoundTrip | js/main.js:138-143 | DD/MM/YY reads back as the same day and month and the year modulo 100 |
| ToolPage.AdjustQuantity | js/main.js:875-885 | the new value is current + change clamped to [min, max], with min defaulting to 1 when absent or 0; the result is never below min, and is exactly min when min > max |
| ToolPage.AdjustQuantityIdempotent | js/main.js:875-885 | clamping a clamped value with change 0 keeps it |
| ToolPage.Merge | js/main.js:163-169 | one entry per fetched tool, carrying the tool |
| ToolPage.MergeBorrowedQty | js/main.js:163-169 | a tool's borrowed quantity is that of the user's first borrow of it, else 0 |
| ToolPage.FilterMine | js/main.js:172-176 | a sub-multiset of the tools, all of one group |
| ToolPage.SortMineFirstIsStableSort | js/main.js:172-176 | the result is a permutation, ordered by the comparator, and each group keeps its original order: it is the stable sort |
| ToolPage.OptimisticBorrow | js/main.js:778-783 | only the first tool with the ID changes: its borrowed quantity grows by the amount, a counted stock shrinks by it, "จำนวนมาก" stays, and its other fields are kept; available plus borrowed is conserved |
| ToolPage.ToolsPage.LoadTools | js/main.js:148-180 | the page's list becomes the sorted merge |
| ToolPage.ToolsPage.BorrowSubmitted | js/main.js:778-783 | the page's list becomes the optimistic update of the old list |
| ToolPage.ChooseAction | js/main.js:226-247 | "Return" iff logged in and the user holds some of the tool |
| ToolPage.BorrowButtonMeansAvailable | js/main.js:233-247 | besides "Return", "Borrow" is shown iff the backend status would be "Available", "Out of Stock" iff "Borrowed" |
| ToolPage.StatusClass | js/main.js:308-319 | a status reading "borrowed" or "overdue" in lower case gets that class; every other status gets "available" |
| ToolPage.StatusClassOfToolStatus | js/main.js:308-319 | the statuses tools carry ("Available", "Borrowed", "Overdue") get their own name in lower case as class |
| ToolPage.StatusClassIgnoresCase | js/main.js:308-309 | the class does not depend on letter case |
| AdminPanel.ReplaceFirst | admin/js/admin.js:682 | `replace` with a string pattern rewrites only the first occurrence, if any |
| AdminPanel.FormatDriveUrlMeaning | admin/js/admin.js:680-685 | the link changes iff it contains both "drive.google.com" and "/view"; then its first "/view" becomes "/preview" |
| AdminPanel.PushLog | admin/js/admin.js:234-241 | the new entry is first, older entries follow shifted by one, and at most 50 are kept |
| AdminPanel.LogAfterIsNewestWindow | admin/js/admin.js:233-243 | a log built by repeated actions is the newest 50 actions, newest first |
| AdminPanel.AdminLog.LogAction | admin/js/admin.js:233-243 | the stored log becomes the push of the entry by "Super Admin" |
| AdminPanel.CountStatus | admin/js/admin.js:1066-1067 | a status counter is the number of tools with that status |
| AdminPanel.CountLowStock | admin/js/admin.js:1068 | the low-stock counter is the number of counted tools with fewer than 2 available |
| AdminPanel.StatusCountersDisjoint | admin/js/admin.js:1064-1068 | borrowed + overdue never exceeds the total |
| AdminPanel.BackendToolCounters | admin/js/admin.js:1064-1068 | on statuses that the backend derives, the overdue counter is always 0 and borrowed never exceeds low stock |
| AdminPanel.OverdueItems | admin/js/admin.js:707-719 | a transaction is listed iff it has a status, its lowercased status is "borrowed" or "overdue", and its valid expected date is before midnight today; a listed one appears as often as in the input |
| AdminPanel.LowerStatusText | admin/js/admin.js:709-711 | a sheet status passes the lowercase test iff it is an open loan |
| AdminPanel.OverdueTableMeaning | admin/js/admin.js:699-719 | a sheet row is listed iff it is open and due before midnight, and a listed row is one that the overdue sweep marks "Overdue" |
| AdminPanel.SetupPin | admin/js/admin.js:429-452 | "do not match" iff the PINs differ; "4 digits" iff they agree but are not 4 long; save fails iff there is no user; otherwise only the PIN is set |
| AdminPanel.SetupThenLogin | admin/js/admin.js:274-283 | after a successful setup, logging in succeeds exactly with the new PIN |
| AdminPanel.AdminSession.Login | admin/js/admin.js:274-283 | login succeeds iff the user has a non-empty PIN and the input equals it |
| AdminPanel.AdminSession.SetupPinSubmitted | admin/js/admin.js:429-452 | the session's user and the result are those of the setup |
| AdminPanel.SearchTools | admin/js/admin.js:1051-1058 | a tool is listed iff its lowercased name, ID or location contains the lowercased term |
| AdminPanel.SearchToolsMultiplicity | admin/js/admin.js:1051-1058 | a matching tool is listed as many times as the list holds it; others not at all |
| AdminPanel.EmptySearchKeepsAll | admin/js/admin.js:1051-1058 | an empty term lists every tool, in order |

## Left out

- Locking: `LockService` waits and releases, and concurrency between requests, are not modelled. Each handler is one atomic method.
- Drive uploads: image uploads go through `getFolder`, `Utilities.newBlob`, `createFile` and `setSharing`. Their URL, or their "Upload Error: ..." text, is a parameter.
- Request routing: `doPost`, `ContentService` and JSON encoding, `callGoogleScript`/`fetch`, `setupSheet`, and the catch-all "Batch Process Failed" / "Batch Return Failed" replies for spreadsheet exceptions.
- Identifiers and clocks: `Utilities.getUuid()` and `new Date()` are parameters. The mock stamps every pushed transaction of one call with a single time.
- Batch read handlers: `checkUser`, `getUsers`, `getTransactions` (with its date sort) and `logAdminActivity`. They are plain reads or appends of the sheets, like the modelled handlers.
- Mock API extras: the `getTools` copy, the unknown-action throw and the 500 ms delay.
- Cell coercion: `Number(...)` coercion and loose `==` on cells. The model has integer cells or "จำนวนมาก" only, so blank, text and fractional cells are out.
- Overdue table rows: the "Days Late" column of each row (`admin/js/admin.js:729-742`) is a floating-point date difference rounded up, and it is not modelled. Only which rows the table lists is modelled.
- ToolPage.AdjustQuantity: a NaN `current` or `max` (an empty input box) is not modelled; the inputs are integers.
- ToolPage.FormatDisplayDateRoundTrip: only years of at least 10 are covered, where `slice(-2)` gives two digits. Negative years are out.
- Text.Lower: only ASCII letters are lowercased. Non-ASCII letters that have case (accented Latin, Greek, Cyrillic) are left as they are, whereas `toLowerCase` lowercases them; caseless scripts such as Thai are unchanged in both.
- Page rendering: DOM rendering, modals, LIFF login, `localStorage` persistence and `localeCompare` location sorting.
- `handleTransSearch` (`admin/js/admin.js:687-695`) is the same filter as the modelled tool search, over transactions.
- Broken admin code: the duplicated code in `admin/js/admin.js` (a second `switchTab` and stray fragments after `handleSetupPin`) is not part of this model.
- `js/user.js`, `js/config.js` and `js/translations.js` are not part of this model.
