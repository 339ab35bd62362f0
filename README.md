# Client support tracker automation — a verified model

This project models the row-reconciliation and document logic of the Google Apps Script
`Code.js`. The script runs behind a client-support spreadsheet with these tabs:

- "Master Tracker": one row per client, with hours, status and links to monthly reports.
- "Client Directory": the list of clients.
- "Time Entry": one row per client, cloned from a template row.
- "Document Summary": the log of a monthly run.

The model covers these parts of the script:

- the monthly rollover in its two variants. The replace variant is `monthlyRolloverAndCreateDocs`. The reuse ("safe") variant is `monthlyRolloverAndCreateDocsSafe`. Either one writes one summary document per client into the client's Drive folder.
- `getOrCreateClientFolder`.
- `updateMasterTrackerFormulas`, modelled as formula text.
- `insertAllMissingClients` and the sync step of `addNewClientToTracker`.
- `insertNewClientIntoDirectory` and `onEdit`.
- `hideInactiveAndTransitioningRows` and `unhideAllClientRows`.
- `ensureClientInTimeEntry_` and `syncAllClientsToTimeEntry`.

A tab is a `Sheets.Sheet` object:

- `rows` holds rows 1..`getLastRow()`, header first. Each row is a sequence of cells.
- `maxRows` is the grid height.
- `hidden` is the set of hidden row numbers.

Each script function that changes a tab step by step is a method over such objects. Each such method is proved against a function of the old state (`Ensure`, `SyncNames`, `MissingClients`/`NewRows`, `Updated`, `AfterHide`, `Rollover`). Lemmas then prove what the script promises about those functions.

Drive is a `DriveFiles.DriveService` object. It holds the client folders in listing order, the files in each folder (name, trashed flag, body) and an id counter.

The modules, in dependency order:

- `Text`: `trim`, ASCII `toLowerCase`, number rendering and substring search.
- `Cells`: values, cells, JS truthiness and `||`, and positional writes.
- `Sheets`: the tab object.
- `DriveFiles`: Drive.
- `TimeEntry`: the "Time Entry" tab.
- `TrackerSync`: tracker inserts.
- `Directory`: directory insert and `onEdit`.
- `Visibility`: hiding and showing rows.
- `Formulas`: the tracker formulas.
- `Rollover`: the monthly passes.

## Model

| member | source | states |
|---|---|---|
| Text.TrimLowerCommute | Code.js:571 | Lower-casing before or after trimming gives the same key. The hide pass lower-cases first; every other key is trimmed first. |
| Text.TrimIdempotent | Code.js:395-399 | Trimming a trimmed text changes nothing. |
| Text.NatToStringRoundTrip | Code.js:257 | Reading back the digits that `${row}` renders gives the row number. |
| Cells.KeyOrBlankAgrees | Code.js:634-637 | The blank-defaulting key used by the time-entry helper and the plain `toString().trim().toLowerCase()` key agree on every value JS treats as true; a false value gets the blank key. |
| Cells.PutRowAfterGap | Code.js:517-527 | Writing two rows below the last row leaves one empty row in between. |
| Cells.ColumnValuesAppend | Code.js:632 | Reading a column after a row was appended gives the earlier values followed by the new row's value, so each call of the time-entry helper sees the names inserted before it. |
| Sheets.Sheet.InsertRowAfter | Code.js:643 | A blank row enters below row k. The grid grows by one, and hidden rows below k move down. |
| Sheets.Sheet.AppendRow | Code.js:106 | The row goes below the last row with content, and the other rows are unchanged. |
| Sheets.Sheet.ShowRows | Code.js:567 | Exactly rows start..start+n-1 stop being hidden. |
| Sheets.ShiftedAfterStep | Code.js:331-333 | n single-row inserts at the bottom shift the hidden rows as one insert of n rows would. |
| TimeEntry.EnsureClientInTimeEntry | Code.js:622-650 | Returns false and leaves the tab unchanged when the trimmed, lower-cased name is blank or already in column A (rows 2..lastRow; no read when lastRow < 2). On a tab with no row at all a non-blank name fails like `insertRowAfter(0)`, with the tab unchanged. Otherwise it appends exactly one row at lastRow+1: template row 3 with column A set to the raw name. It returns true. |
| TimeEntry.AppendEntryRow | Code.js:642-647 | The insert path: one row below the last row, cloned from template row 3 (not row 2), name in A. Earlier rows are unchanged. |
| TimeEntry.EnsureKeepsRows | Code.js:642-645 | The insert only appends: every earlier row is unchanged. |
| TimeEntry.EnsurePresent | Code.js:637-649 | After the call, the normalised name is in column A. |
| TimeEntry.EnsureIdempotent | Code.js:637-639 | A second call with the same name returns false and changes nothing. |
| TimeEntry.EnsureExactlyOnce | Code.js:616 | If the name occurred at most once, it occurs exactly once afterwards. |
| TimeEntry.SyncName | Code.js:664 | One step of the sync: the helper is called only for a true-ish name; a false name changes nothing. |
| TimeEntry.SyncEach | Code.js:662-667 | The forEach over the names: when the Time Entry tab starts with no row, the first name with a non-blank key fails and nothing has been written; otherwise the tab, the grid size and the hidden rows end as the fold over the names leaves them, with `added` the rows inserted. |
| TimeEntry.SyncAllClientsToTimeEntry | Code.js:656-669 | Fails like getRange when the tracker has no data row. It fails, with the Time Entry tab unchanged, exactly when that tab has no row at all and some tracker name has a non-blank key. Otherwise it calls ensure for each JS-truthy tracker name in order, each call seeing earlier inserts; `added` counts the rows inserted, the grid grows by that many rows and the hidden rows below the old last row move down with it. |
| TimeEntry.SyncAppends | Code.js:661-667 | The sync appends exactly `added` rows, keeps the earlier rows, and adds at most one row per name. |
| TimeEntry.SyncPresent | Code.js:662-667 | Afterwards every tracker name with a non-blank key is present, and no key that was present is lost. |
| TimeEntry.SyncIdempotent | Code.js:656-669 | A second sync adds nothing and changes nothing. |
| TimeEntry.SyncMergesVariants | Code.js:662-665 | Two tracker names that differ only in case or surrounding spaces add a single row, because each call re-reads the tab. |
| TrackerSync.SelectMissingClients | Code.js:314-321 | The loop selects `MissingClients`: directory rows from index 1 on, with a true-ish name whose key is absent from the snapshot, in directory order. |
| TrackerSync.MissingClientsExact | Code.js:314-321 | A row is selected exactly when it is a directory row below the header whose name is JS-truthy and whose key is not in the snapshot. |
| TrackerSync.MissingClientsBound | Code.js:314-321 | At most one selection per directory data row. |
| TrackerSync.SnapshotKeepsVariants | Code.js:309-319 | The tracker is read once, so two directory rows whose names differ only in case or spaces are both selected. |
| TrackerSync.NewTrackerRowColumns | Code.js:336-351 | A new row is template row 2 with B,C,K,O,M,N taken from directory A,B,C,D,F,G. R and S are blank. Every other column, D included, is as in the template. |
| TrackerSync.AppendTrackerRow | Code.js:332-351 | One client appends exactly that row below the last row. |
| TrackerSync.AppendTrackerRows | Code.js:331-352 | The loop appends one new row per selected client, in order, and leaves earlier rows and template row 2 unchanged. |
| TrackerSync.InsertAllMissingClients | Code.js:302-357 | Fails when the tracker has no data row. Otherwise it appends `NewRows` for the selection and returns its size. An empty selection changes nothing. |
| TrackerSync.InsertAllMissingIdempotent | Code.js:290-300 | Run again on the same directory, the bulk insert selects nothing. |
| TrackerSync.FindClient | Code.js:511 | The first directory row, header included, whose normalised column A equals the target; None when there is none. |
| TrackerSync.SyncNewClientAsWritten | Code.js:505-535 | The sync step as written: nothing if the lower-cased name is in the tracker or not in the directory. Otherwise a blank row at lastRow+1 and the filled row at lastRow+2. |
| TrackerSync.SyncAsWrittenLeavesGap | Code.js:517-527 | As written, a new client leaves a blank row, and R/S keep the template's links. |
| TrackerSync.SyncAsWrittenCopiesLink | Code.js:520-532 | When template S holds a link, the as-written row keeps it. The corrected row's S is blank (the bulk insert clears them at lines 349-351). |
| TrackerSync.SyncNewClient | Code.js:505-535 | The corrected step appends one row at lastRow+1, built as the bulk insert builds it. |
| TrackerSync.SyncCorrectedMatchesBulk | Code.js:517-532 | The corrected step adds the same row `insertAllMissingClients` adds for that client (lines 331-351). |
| Directory.InsertNewClientIntoDirectory | Code.js:364-403 | A cancelled prompt changes nothing. Otherwise exactly one row `[trim name, trim plan, trim email, "Active", trim partner]` is appended below the last row, without a duplicate check. It fails like `insertRowsAfter(0)` on an empty tab. |
| Directory.NewRowSelected | Code.js:314-320 | A new non-blank name that the tracker lacks is picked up by the next bulk insert, after the rows selected before (the name is stored trimmed, line 395). |
| Directory.NoDeduplication | Code.js:381-401 | Adding the same client twice lists it twice, and both rows are then selected. |
| Directory.OnEdit | Code.js:428-440 | Stamps column K of the edited row with the edit time when there is a target; otherwise nothing changes. |
| Visibility.HiddenRowsExact | Code.js:566-576 | A row x is hidden exactly when 2 <= x < 2 + number of statuses and status x-2 normalises to "inactive" or "transitioning". |
| Visibility.HiddenRowsCount | Code.js:569-578 | `hiddenCount` equals the size of the hidden set. |
| Visibility.HideFlaggedRows | Code.js:569-576 | Given the parked flag of each data row, the loop adds row 2 + i to the hidden rows for exactly the flags i that are set, keeps the rows already hidden, and returns how many flags are set. |
| Visibility.HideInactiveAndTransitioningRows | Code.js:560-579 | Fails when there is no data row. Otherwise it shows rows 2..maxRows, hides exactly the parked rows and returns their number. |
| Visibility.HideIdempotent | Code.js:560-579 | A second hide pass over the same statuses leaves the same hidden set. |
| Visibility.UnhideAllClientRows | Code.js:584-588 | Every row from 2 down is shown; only a hidden header stays hidden. |
| Visibility.UnhideUndoesHide | Code.js:584-588 | Unhiding after hiding gives what unhiding alone gives. |
| Formulas.BuildTimeColumns | Code.js:249-260 | The F/H/I loop builds those three columns. |
| Formulas.BuildLookupColumn | Code.js:276-283 | The loop of one lookup column builds that column. |
| Formulas.UpdateMasterTrackerFormulas | Code.js:240-286 | Fails when there is no data row. Otherwise the nine `setFormulas` calls leave the tracker as `Updated`. |
| Formulas.UpdatedEntries | Code.js:253-284 | Each data row gets, in each of F,H,I,L..Q, blank for a blank name and otherwise the formula of its own row. |
| Formulas.UpdatedKeepsOthers | Code.js:261-284 | The header is untouched, and no cell outside F,H,I,L..Q changes. |
| Formulas.UpdatedKeepsNames | Code.js:245 | Column B is not rewritten. |
| Formulas.AllKindsFacts | Code.js:266-273 | Nine writes, all to distinct columns. |
| Formulas.FormulaRefersToRow | Code.js:257-281 | Each formula for row r mentions the cells of its own row it reads: F and the L..Q lookups mention B{r}; H mentions F{r}, D{r} and E{r}; I mentions E{r} and H{r}. |
| Formulas.LookupPassesIndex | Code.js:281 | A lookup formula passes its index to VLOOKUP as the column argument: right after the FILTER range of active directory rows and right before the exact-match flag FALSE. |
| Formulas.LookupTableIndices | Code.js:266-273 | L, M, N, O, P and Q pass directory columns 3, 7, 8, 4, 9 and 10, in that position of VLOOKUP. |
| Formulas.FormulaRowRoundTrip | Code.js:257-281 | The row number read back from a formula is the row it was generated for. |
| Formulas.FormulaRowsDiffer | Code.js:257-281 | Different rows get different formula texts. |
| DriveFiles.GetOrCreateFolder | Code.js:119-122 | Returns the first folder whose name equals the client name exactly, changing nothing. Otherwise it appends one new empty folder of that name. |
| DriveFiles.GetOrCreateIdempotent | Code.js:119-122 | Asking again finds the same folder and creates nothing. |
| DriveFiles.DriveService.GetOrCreateClientFolder | Code.js:119-122 | The method implements that lookup-or-create. |
| DriveFiles.DriveService.TrashFilesNamed | Code.js:64-67 | The loop trashes exactly the files with that name. |
| DriveFiles.DriveService.FindLiveFile | Code.js:172-179 | The loop returns the first file with that name that is not trashed. |
| DriveFiles.FirstLiveFrom | Code.js:173-179 | The first live file with that name at or after `start`; None when there is none. |
| DriveFiles.ReplaceLeavesOneLive | Code.js:64-75 | After replace, exactly one live file has the name: the new one. Other names are unaffected. |
| DriveFiles.ReuseKeepsOneLive | Code.js:172-189 | Reuse creates a file only when no live one exists, so at most one live file stays at exactly one. Other names are unaffected. |
| Rollover.RetiredIsParked | Code.js:56 | The rollover skips exactly the statuses the hide pass hides (hide pass: lines 571-572). |
| Rollover.DocNameInjective | Code.js:61 | Documents of different clients in the same month have different names (safe pass: line 165). |
| Rollover.SameFigures | Code.js:83-219 | The reuse document's lines are the replace document's lines minus the blank spacers and the "monthly plan" line (replace: lines 83-99; safe: lines 207-219). |
| Rollover.ReplaceLayout | Code.js:78-99 | The replace document is the logo at width 150 and 13 paragraphs: the greeting first, a blank spacer, the summary line, blank spacers again before the support-hours line and before the monthly-plan heading, and the contact line last. |
| Rollover.ReuseLayout | Code.js:197-219 | The reuse document, after `body.clear()`, is the logo at width 200 and 9 paragraphs: the greeting first, the summary line second and the contact line last. |
| Rollover.SummaryNamesClient | Code.js:85 | The summary line names the client and the month (safe pass: line 208). |
| Rollover.LinksAt | Code.js:103-108 | Only R (folder link) and S (document link) of the processed row change (safe pass: lines 225-226). |
| Rollover.JobsExact | Code.js:39-59 | A row yields a job exactly when it passes the checks, on sheet row i+2 (safe pass: lines 155-163). |
| Rollover.JobsOrdered | Code.js:39-40 | Jobs follow tracker order, each sheet row at most once (safe pass: lines 155-156). |
| Rollover.RecordAllCount | Code.js:109 | `createdCount` grows by one per job (safe pass: line 230). |
| Rollover.RecordAllLog | Code.js:106 | The log keeps what it held and gains one row per job, in order, starting with the client's name and its email or "N/A" (safe pass: line 228). |
| Rollover.RecordAllTracker | Code.js:105-108 | The pass changes only the jobs' rows, and there only R and S (safe pass: lines 225-226). |
| Rollover.WriteDocHasDoc | Code.js:166-189 | After writing a client's document, its folder holds exactly one live document of the month (replace pass: lines 62-75). |
| Rollover.WriteDocTidy | Code.js:172-189 | Writing one document keeps every folder within one live document of the month (replace pass: lines 64-75). |
| Rollover.RecordAllDocs | Code.js:155-231 | After replace, or after reuse on a tidy Drive, every job's client has exactly one live document, and tidiness is preserved (replace pass: lines 39-110). |
| Rollover.WriteDocHasSome | Code.js:166-189 | Whatever Drive held, writing a client's document in either pass leaves its folder with at least one live document of the month (replace pass: lines 62-75). |
| Rollover.RecordAllHasSome | Code.js:155-231 | After any pass over any Drive, every processed client, and every client that had one before, has a live document of the month in its folder (replace pass: lines 39-110). |
| Rollover.WriteDocReuses | Code.js:172-189 | The reuse pass for a client whose folder holds a live document of the month rewrites it and creates nothing. |
| Rollover.ReuseRerunCreatesNothing | Code.js:168-189 | Reuse over clients whose folder holds a live document of the month creates no folder and no file. |
| Rollover.RolloverLog | Code.js:147-230 | A pass logs the header, then one row per processed client in order. `createdCount` is the number of processed clients (replace pass: lines 29-109). |
| Rollover.RolloverTracker | Code.js:224-226 | The header and every skipped row are unchanged. Every processed row gets its links and is otherwise unchanged (replace pass: lines 103-108). |
| Rollover.WriteDocPlaces | Code.js:166-189 | The written document is where the links look: in the folder the lookup-or-create finds, as its first live document of the month (reuse) or as a live document of the month holding the body (replace pass: lines 62-75). |
| Rollover.RecordPointsAt | Code.js:224-226 | For one processed row, in the Drive left by writing its document: R opens the folder getOrCreateClientFolder returns, and S opens the document just written, which is that folder's first live document of the month (reuse) or a document of the month there holding the row's content (replace pass: lines 103-108). |
| Rollover.RecordLogsLink | Code.js:224-228 | For one processed row: one summary row is appended after the earlier ones, which stay as they were, and its Doc URL is the URL the row's S cell opens (replace pass: lines 103-106). |
| Rollover.WriteDocKeepsPointsAt | Code.js:166-189 | Later documents, of the same client or another, do not move what an earlier row's links open: the folder keeps its id, reuse keeps rewriting the same first live document, and replace only trashes. |
| Rollover.RolloverLinks | Code.js:147-231 | After a whole pass, in the Drive it leaves: each processed row's R opens the client's folder, and S opens the first live document of the month there (reuse) or a document of the month there holding that row's content (replace pass: lines 29-110). Later rows' documents never move what an earlier row's links open. |
| Rollover.RolloverLogsLinks | Code.js:147-231 | After a whole pass, the summary sheet has one row besides its first for each processed client, and the p-th of them holds the URL that the p-th processed tracker row, counted top-down, opens from its S cell (replace pass: lines 29-110). |
| Rollover.RolloverDocs | Code.js:131-234 | After replace, or after a safe pass over a tidy Drive, every processed client has exactly one live document (replace pass: lines 9-113). |
| Rollover.SafeRolloverRerun | Code.js:126-130 | Whatever Drive held before, a second safe run on the tracker and Drive the first run left creates no folder, document or id. |
| Rollover.WriteDocument | Code.js:166-189 | Folder lookup-or-create, then replace or reuse of the month's document, as `WriteDoc` (replace pass: lines 62-75). |
| Rollover.ProcessRow | Code.js:155-231 | A row that fails a check changes nothing. Otherwise it writes the document, the links and the log row, and increments the count: `Record` (replace pass: lines 39-110). |
| Rollover.RunPass | Code.js:147-231 | The whole pass ends in the state `Rollover` gives (replace pass: lines 29-110). |
| Rollover.MonthlyRolloverAndCreateDocs | Code.js:9-113 | The replace pass. |
| Rollover.MonthlyRolloverAndCreateDocsSafe | Code.js:131-234 | The reuse pass. |

## Left out

- UI prompts, alerts, the `onOpen` menu and console logging. Prompt answers are method parameters (`Directory.Answer`), and counts are returned instead of alerted.
- `sortMasterTrackerAZ` and the sort step of `addNewClientToTracker`: the collation of the spreadsheet's sort is not modelled.
- The composition `addNewClientToTracker` is not modelled as one method. Its directory insert is the same as `Directory.InsertNewClientIntoDirectory`; the difference is that the prompt text is trimmed before use. Its sync step is `TrackerSync.SyncNewClientAsWritten`, and its ensure call is `TimeEntry.EnsureClientInTimeEntry`.
- The `DRY_RUN` branches: the constant is false, so they are dead code.
- The logo's height: floating-point aspect ratio and `Math.round`. Only the width is modelled.
- Dates, the month label, the timestamp, `formatDate`, and document and folder URLs are opaque parameters (`Rollover.Env`).
- Formula evaluation (VLOOKUP, FILTER, HYPERLINK): only the formula text is modelled.
- Relative-reference adjustment when `copyTo` pastes template formulas into another row: the copied cells are modelled verbatim.
- Cell formatting, data validation, format-only copies and the `@STRING@` number format: none of them changes a value, so none is modelled.
- Sheet lookup by name and `insertSheet` for "Document Summary": the tabs are parameters, and a missing "Time Entry" tab is not modelled.
- `String.prototype.toLowerCase` is limited to ASCII letters. `trim` uses the JS white-space set.
- Numbers in cells are integers; fractional hours are not represented.
- `getLastColumn()` is not modelled: a copy covers the whole template row.
- Drive lists files and folders in the order the model keeps them, and trashed folders are not represented.
- `Sheets.Sheet.Valid` does not require the last stored row to hold a value. `rows` is meant to be rows 1..`getLastRow()`, but a row whose cells are all blank can sit at the bottom (the as-written sync step writes one in the middle); only the operations that read `getLastRow()` are modelled, and they take `|rows|`.
- `updateMasterTrackerFormulas` has a `clientNames.length === 0` check. It is unreachable, because `getRange` with zero rows throws first; the model returns `Err(EmptyRange)` there.
- A cell written with `setFormulas("")` is modelled as a blank cell.
- `insertAllMissingClients` takes the new row's first and last names from directory columns F and G. The L..Q lookup formulas, however, read directory columns G and H (indices 7 and 8) for M and N. The model keeps both as written.
- `TimeEntry.NewEntryRow` copies template row 3 as the code does. The doc comment says Row 2; the constant is 3.

## Findings

| source | as written | input that shows it | evidently intended | confidence | as-written member | corrected member |
|---|---|---|---|---|---|---|
| Code.js:517-527 | The sync step of `addNewClientToTracker` inserts a blank row after `getLastRow()+1` and writes the client at `getLastRow()+2`. This leaves an empty row between the old last row and the new client until the A→Z sort that follows (lines 537-543) moves the blank row to the bottom; a failure before the sort, or a read between the two, sees the gap. | A tracker with rows 1..3, and a new directory client "Acme" not in the tracker. Row 4 stays empty and Acme lands on row 5. | The client row goes at `getLastRow()+1`, as `insertAllMissingClients` does it. | not executed | TrackerSync.SyncAsWrittenLeavesGap | TrackerSync.SyncCorrectedMatchesBulk |
| Code.js:520-532 | The sync step copies template row 2 with PASTE_NORMAL and never clears R and S. The new client therefore inherits template row 2's report-folder and report links. | Template row 2 whose S holds `=HYPERLINK("…", "Open Doc")`, and a new client. The new row's S links another client's report. | Clear R and S, as `insertAllMissingClients` does at Code.js:349-351. | not executed | TrackerSync.SyncAsWrittenCopiesLink | TrackerSync.SyncNewClient |
