/** The "Master Tracker" tab fed from the "Client Directory" tab: insertAllMissingClients
    (Code.js:301-357) and the sync step of addNewClientToTracker (Code.js:505-535). */
module TrackerSync {
  import opened Text
  import opened Cells
  import opened Sheets

  /** Tracker columns, 1-based. */
  const NameCol: nat := 2
  const PlanCol: nat := 3
  const EmailCol: nat := 11
  const FirstNameCol: nat := 13
  const LastNameCol: nat := 14
  const StatusCol: nat := 15
  const FolderLinkCol: nat := 18
  const DocLinkCol: nat := 19
  /** The tracker row whose formulas every new row copies. */
  const TemplateRow: nat := 2

  /** The tracker's client-name keys, rows 2..lastRow: `row[0].toString().trim().toLowerCase()`
      over column B. */
  function TrackerKeys(rows: seq<Row>): (keys: seq<string>)
    ensures |keys| == if |rows| == 0 then 0 else |rows| - 1
  {
    if |rows| <= 1 then []
    else TrackerKeys(rows[..|rows| - 1]) + [KeyOf(ValueAt(rows[|rows| - 1], NameCol))]
  }

  /** The directory row names a client the tracker snapshot does not hold. */
  predicate Qualifies(client: Row, keys: seq<string>)
  {
    Truthy(ValueAt(client, 1)) && KeyOf(ValueAt(client, 1)) !in keys
  }

  /** The directory rows 2..lastRow that qualify, in directory order: the `newClients` list. */
  function MissingClients(dir: seq<Row>, keys: seq<string>): seq<Row>
  {
    if |dir| <= 1 then []
    else
      var init := MissingClients(dir[..|dir| - 1], keys);
      if Qualifies(dir[|dir| - 1], keys) then init + [dir[|dir| - 1]] else init
  }

  /** A row is selected exactly when it is a directory row below the header that qualifies. */
  lemma {:induction false} MissingClientsExact(dir: seq<Row>, keys: seq<string>)
    ensures forall c :: c in MissingClients(dir, keys) <==> c in Body(dir) && Qualifies(c, keys)
  {
    if |dir| > 1 {
      var init := dir[..|dir| - 1];
      MissingClientsExact(init, keys);
      assert Body(dir) == Body(init) + [dir[|dir| - 1]];
    }
  }

  /** At most one row per directory row. */
  lemma {:induction false} MissingClientsBound(dir: seq<Row>, keys: seq<string>)
    ensures |MissingClients(dir, keys)| <= if |dir| == 0 then 0 else |dir| - 1
  {
    if |dir| > 1 {
      MissingClientsBound(dir[..|dir| - 1], keys);
    }
  }

  /** The selection reads the tracker once, so two directory rows whose names differ only in
      case or surrounding spaces are both selected when the tracker holds neither. */
  lemma SnapshotKeepsVariants(header: Row, a: Row, b: Row, keys: seq<string>)
    requires Qualifies(a, keys) && Qualifies(b, keys)
    ensures MissingClients([header, a, b], keys) == [a, b]
  {
    assert [header, a, b][..2] == [header, a];
    assert [header, a][..1] == [header];
    assert MissingClients([header], keys) == [];
  }

  /** The directory cells a new tracker row receives: B, C, O, K, M, N from directory
      columns A, B, D, C, F, G, in the order insertAllMissingClients writes them. */
  function FilledRow(template: Row, client: Row): Row
  {
    var r1 := WithCell(template, NameCol, Plain(ValueAt(client, 1)));
    var r2 := WithCell(r1, PlanCol, Plain(ValueAt(client, 2)));
    var r3 := WithCell(r2, StatusCol, Plain(ValueAt(client, 4)));
    var r4 := WithCell(r3, EmailCol, Plain(ValueAt(client, 3)));
    var r5 := WithCell(r4, FirstNameCol, Plain(ValueAt(client, 6)));
    WithCell(r5, LastNameCol, Plain(ValueAt(client, 7)))
  }

  /** The row insertAllMissingClients adds: the template copied, the directory cells written,
      then the report-folder and report links in R and S cleared. */
  function NewTrackerRow(template: Row, client: Row): Row
  {
    WithCell(WithCell(FilledRow(template, client), FolderLinkCol, Blank), DocLinkCol, Blank)
  }

  predicate Written(k: nat)
  {
    k == NameCol || k == PlanCol || k == EmailCol || k == FirstNameCol || k == LastNameCol || k == StatusCol
  }

  lemma FilledRowColumns(template: Row, client: Row)
    ensures var r := FilledRow(template, client);
            CellAt(r, NameCol) == Plain(ValueAt(client, 1)) &&
            CellAt(r, PlanCol) == Plain(ValueAt(client, 2)) &&
            CellAt(r, EmailCol) == Plain(ValueAt(client, 3)) &&
            CellAt(r, StatusCol) == Plain(ValueAt(client, 4)) &&
            CellAt(r, FirstNameCol) == Plain(ValueAt(client, 6)) &&
            CellAt(r, LastNameCol) == Plain(ValueAt(client, 7)) &&
            forall k | k >= 1 && !Written(k) :: CellAt(r, k) == CellAt(template, k)
  {
  }

  /** The column mapping of a new tracker row: six directory cells, R and S blank, every other
      column (D, the monthly hours formula, among them) as in the template. */
  lemma NewTrackerRowColumns(template: Row, client: Row)
    ensures var r := NewTrackerRow(template, client);
            CellAt(r, NameCol) == Plain(ValueAt(client, 1)) &&
            CellAt(r, PlanCol) == Plain(ValueAt(client, 2)) &&
            CellAt(r, EmailCol) == Plain(ValueAt(client, 3)) &&
            CellAt(r, StatusCol) == Plain(ValueAt(client, 4)) &&
            CellAt(r, FirstNameCol) == Plain(ValueAt(client, 6)) &&
            CellAt(r, LastNameCol) == Plain(ValueAt(client, 7)) &&
            CellAt(r, FolderLinkCol) == Blank && CellAt(r, DocLinkCol) == Blank &&
            forall k | k >= 1 && !Written(k) && k != FolderLinkCol && k != DocLinkCol ::
              CellAt(r, k) == CellAt(template, k)
  {
    FilledRowColumns(template, client);
  }

  /** The rows added for `clients`, one per client, in order. */
  function NewRows(template: Row, clients: seq<Row>): (rs: seq<Row>)
    ensures |rs| == |clients|
  {
    if clients == [] then []
    else NewRows(template, clients[..|clients| - 1]) + [NewTrackerRow(template, clients[|clients| - 1])]
  }

  lemma NewRowsStep(template: Row, clients: seq<Row>, j: nat)
    requires j < |clients|
    ensures NewRows(template, clients[..j + 1]) == NewRows(template, clients[..j]) + [NewTrackerRow(template, clients[j])]
  {
    assert clients[..j + 1][..j] == clients[..j];
  }

  lemma NewRowsAt(template: Row, clients: seq<Row>, i: nat)
    requires i < |clients|
    ensures NewRows(template, clients)[i] == NewTrackerRow(template, clients[i])
  {
    if i < |clients| - 1 {
      NewRowsAt(template, clients[..|clients| - 1], i);
    }
  }

  lemma TrackerKeysAppend(rows: seq<Row>, row: Row)
    requires |rows| >= 1
    ensures TrackerKeys(rows + [row]) == TrackerKeys(rows) + [KeyOf(ValueAt(row, NameCol))]
  {
    assert (rows + [row])[..|rows|] == rows;
  }

  /** The keys of the clients' column-A names, in order. */
  function ClientKeys(clients: seq<Row>): (keys: seq<string>)
    ensures |keys| == |clients|
  {
    if clients == [] then []
    else ClientKeys(clients[..|clients| - 1]) + [KeyOf(ValueAt(clients[|clients| - 1], 1))]
  }

  lemma {:induction false} ClientKeysHas(clients: seq<Row>, c: Row)
    requires c in clients
    ensures KeyOf(ValueAt(c, 1)) in ClientKeys(clients)
  {
    var init := clients[..|clients| - 1];
    if c != clients[|clients| - 1] {
      assert c in init;
      ClientKeysHas(init, c);
    }
  }

  lemma NewTrackerRowKey(template: Row, client: Row)
    ensures ValueAt(NewTrackerRow(template, client), NameCol) == ValueAt(client, 1)
  {
    NewTrackerRowColumns(template, client);
  }

  /** The added rows contribute their clients' keys, after the keys already there. */
  lemma {:induction false} NewRowsKeys(rows: seq<Row>, template: Row, clients: seq<Row>)
    requires |rows| >= 1
    ensures TrackerKeys(rows + NewRows(template, clients)) == TrackerKeys(rows) + ClientKeys(clients)
  {
    if clients != [] {
      var init := clients[..|clients| - 1];
      var c := clients[|clients| - 1];
      var row := NewTrackerRow(template, c);
      NewRowsKeys(rows, template, init);
      assert rows + NewRows(template, clients) == (rows + NewRows(template, init)) + [row];
      TrackerKeysAppend(rows + NewRows(template, init), row);
      NewTrackerRowKey(template, c);
    } else {
      assert rows + NewRows(template, clients) == rows;
    }
  }

  /** insertAllMissingClients' selection loop, against the tracker names read once. */
  method SelectMissingClients(dir: seq<Row>, keys: seq<string>) returns (newClients: seq<Row>)
    ensures newClients == MissingClients(dir, keys)
  {
    newClients := [];
    var i := 1;
    while i < |dir|
      invariant 1 <= i
      invariant i <= |dir| ==> newClients == MissingClients(dir[..i], keys)
      invariant |dir| < i ==> |dir| == 0 && newClients == []
    {
      assert dir[..i + 1][..i] == dir[..i];
      var name := ValueAt(dir[i], 1);
      if Truthy(name) {
        var lowerName := KeyOf(name);
        if lowerName !in keys {
          newClients := newClients + [dir[i]];
        }
      }
      i := i + 1;
    }
    assert |dir| > 0 ==> dir[..i] == dir;
  }

  /** One client of the insertion loop: a blank row below the last one, the template row's
      formulas copied onto it, the directory cells written and R, S cleared. */
  method AppendTrackerRow(tracker: Sheet, client: Row)
    requires tracker.Valid() && |tracker.rows| >= TemplateRow
    modifies tracker
    ensures tracker.Valid()
    ensures tracker.rows == old(tracker.rows) + [NewTrackerRow(RowAt(old(tracker.rows), TemplateRow), client)]
    ensures tracker.maxRows == old(tracker.maxRows) + 1
    ensures tracker.hidden == ShiftedAfter(old(tracker.hidden), |old(tracker.rows)|, 1)
  {
    var lastRow := tracker.LastRow();
    tracker.InsertRowAfter(lastRow);
    assert tracker.rows == old(tracker.rows);
    var row := NewTrackerRow(RowAt(tracker.rows, TemplateRow), client);
    PutRowAppends(tracker.rows, row);
    tracker.SetRow(lastRow + 1, row);
  }

  /** insertAllMissingClients(): fails like getRange when the tracker has no data row; otherwise
      appends one row per selected directory row and returns how many it added. */
  method InsertAllMissingClients(dir: Sheet, tracker: Sheet) returns (r: Result<nat>)
    requires dir != tracker && tracker.Valid()
    modifies tracker
    ensures tracker.Valid()
    ensures r.Err? <==> |old(tracker.rows)| < 2
    ensures r.Err? ==> tracker.rows == old(tracker.rows) && tracker.maxRows == old(tracker.maxRows) && tracker.hidden == old(tracker.hidden)
    ensures r.Ok? ==>
      var sel := MissingClients(dir.rows, TrackerKeys(old(tracker.rows)));
      r.value == |sel| &&
      tracker.rows == old(tracker.rows) + NewRows(RowAt(old(tracker.rows), TemplateRow), sel) &&
      tracker.maxRows == old(tracker.maxRows) + |sel| &&
      tracker.hidden == ShiftedAfter(old(tracker.hidden), |old(tracker.rows)|, |sel|)
  {
    if tracker.LastRow() < 2 {
      return Err(EmptyRange);
    }
    var masterClientNames := TrackerKeys(tracker.rows);
    var newClients := SelectMissingClients(dir.rows, masterClientNames);
    if |newClients| == 0 {
      return Ok(0);
    }
    AppendTrackerRows(tracker, newClients);
    r := Ok(|newClients|);
  }

  /** One more appended client extends the appended rows by its new row. */
  lemma AppendedRowsStep(rows0: seq<Row>, template: Row, clients: seq<Row>, j: nat, before: seq<Row>, after: seq<Row>)
    requires j < |clients|
    requires before == rows0 + NewRows(template, clients[..j])
    requires after == before + [NewTrackerRow(template, clients[j])]
    ensures after == rows0 + NewRows(template, clients[..j + 1])
  {
    NewRowsStep(template, clients, j);
  }

  /** insertAllMissingClients' insertion loop: one AppendTrackerRow per client, each reading
      template row 2, which the appends below it never change. */
  method AppendTrackerRows(tracker: Sheet, clients: seq<Row>)
    requires tracker.Valid() && |tracker.rows| >= TemplateRow
    modifies tracker
    ensures tracker.Valid()
    ensures tracker.rows == old(tracker.rows) + NewRows(RowAt(old(tracker.rows), TemplateRow), clients)
    ensures tracker.maxRows == old(tracker.maxRows) + |clients|
    ensures tracker.hidden == ShiftedAfter(old(tracker.hidden), |old(tracker.rows)|, |clients|)
  {
    ghost var rows0, maxRows0, hidden0 := tracker.rows, tracker.maxRows, tracker.hidden;
    ghost var template := RowAt(rows0, TemplateRow);
    ShiftedAfterZero(hidden0, |rows0|);
    var j := 0;
    while j < |clients|
      invariant 0 <= j <= |clients|
      invariant tracker.Valid()
      invariant tracker.rows == rows0 + NewRows(template, clients[..j])
      invariant tracker.maxRows == maxRows0 + j
      invariant tracker.hidden == ShiftedAfter(hidden0, |rows0|, j)
    {
      assert RowAt(tracker.rows, TemplateRow) == template;
      ghost var before := tracker.rows;
      AppendTrackerRow(tracker, clients[j]);
      AppendedRowsStep(rows0, template, clients, j, before, tracker.rows);
      ShiftedAfterStep(hidden0, |rows0|, j);
      j := j + 1;
    }
    assert clients[..j] == clients;
  }

  /** A second run with the directory unchanged selects nothing, so it changes nothing. */
  lemma InsertAllMissingIdempotent(dir: seq<Row>, rows: seq<Row>)
    requires |rows| >= 2
    ensures var sel := MissingClients(dir, TrackerKeys(rows));
            MissingClients(dir, TrackerKeys(rows + NewRows(RowAt(rows, TemplateRow), sel))) == []
  {
    var keys := TrackerKeys(rows);
    var sel := MissingClients(dir, keys);
    var after := rows + NewRows(RowAt(rows, TemplateRow), sel);
    NewRowsKeys(rows, RowAt(rows, TemplateRow), sel);
    MissingClientsExact(dir, keys);
    forall c | c in Body(dir)
      ensures !Qualifies(c, TrackerKeys(after))
    {
      if Qualifies(c, keys) {
        assert c in sel;
        ClientKeysHas(sel, c);
      }
    }
    MissingClientsNone(dir, TrackerKeys(after));
  }

  lemma {:induction false} MissingClientsNone(dir: seq<Row>, keys: seq<string>)
    requires forall c | c in Body(dir) :: !Qualifies(c, keys)
    ensures MissingClients(dir, keys) == []
  {
    if |dir| > 1 {
      var init := dir[..|dir| - 1];
      assert Body(dir) == Body(init) + [dir[|dir| - 1]];
      MissingClientsNone(init, keys);
    }
  }

  /** Column A of row `j`, normalised. */
  function KeyAt(rows: seq<Row>, j: nat): string
    requires j < |rows|
  {
    KeyOf(ValueAt(rows[j], 1))
  }

  /** The first row at or after `start` whose column A normalises to `key`. */
  function FindClientFrom(rows: seq<Row>, key: string, start: nat): (r: Option<nat>)
    requires start <= |rows|
    ensures match r
            case Some(i) => start <= i < |rows| && KeyAt(rows, i) == key && forall j | start <= j < i :: KeyAt(rows, j) != key
            case None => forall j | start <= j < |rows| :: KeyAt(rows, j) != key
    decreases |rows| - start
  {
    if start == |rows| then None
    else if KeyAt(rows, start) == key then Some(start)
    else FindClientFrom(rows, key, start + 1)
  }

  /** The first row, header included, whose column A normalises to `key`: the directory
      `find` of addNewClientToTracker. */
  function FindClient(rows: seq<Row>, key: string): (r: Option<nat>)
    ensures r.Some? ==> r.value < |rows| && KeyAt(rows, r.value) == key
    ensures r.Some? ==> forall j | 0 <= j < r.value :: KeyAt(rows, j) != key
    ensures r.None? ==> forall j | 0 <= j < |rows| :: KeyAt(rows, j) != key
  {
    FindClientFrom(rows, key, 0)
  }

  /** The rows the sync step of addNewClientToTracker leaves, as written: the new row goes to
      getLastRow() + 2, one below the blank row its insertRowAfter(getLastRow() + 1) adds,
      and R and S keep the template's links. */
  function SyncAsWritten(rows: seq<Row>, dir: seq<Row>, clientName: string): seq<Row>
  {
    var target := Lower(clientName);
    if target in TrackerKeys(rows) then rows
    else match FindClient(dir, target)
      case None => rows
      case Some(i) => rows + [[], FilledRow(RowAt(rows, TemplateRow), dir[i])]
  }

  /** The same step as evidently intended: the row goes to getLastRow() + 1 and R, S are
      cleared, exactly as insertAllMissingClients adds a row. */
  function SyncCorrected(rows: seq<Row>, dir: seq<Row>, clientName: string): seq<Row>
  {
    var target := Lower(clientName);
    if target in TrackerKeys(rows) then rows
    else match FindClient(dir, target)
      case None => rows
      case Some(i) => rows + NewRows(RowAt(rows, TemplateRow), [dir[i]])
  }

  /** As written, an added client lands two rows below the last one: a blank row is left
      between them, and the new row keeps the template's report links. */
  lemma SyncAsWrittenLeavesGap(rows: seq<Row>, dir: seq<Row>, clientName: string)
    requires |rows| >= 2
    requires Lower(clientName) !in TrackerKeys(rows) && FindClient(dir, Lower(clientName)).Some?
    ensures var after := SyncAsWritten(rows, dir, clientName);
            |after| == |rows| + 2 && after[|rows|] == [] &&
            CellAt(after[|rows| + 1], FolderLinkCol) == CellAt(rows[TemplateRow - 1], FolderLinkCol) &&
            CellAt(after[|rows| + 1], DocLinkCol) == CellAt(rows[TemplateRow - 1], DocLinkCol)
  {
    var i := FindClient(dir, Lower(clientName)).value;
    FilledRowColumns(RowAt(rows, TemplateRow), dir[i]);
  }

  /** Whenever template row 2 holds a report link in S, the as-written step copies that link
      into the new client's row, while the corrected step leaves the new row's S blank. */
  lemma SyncAsWrittenCopiesLink(rows: seq<Row>, dir: seq<Row>, clientName: string)
    requires |rows| >= 2 && CellAt(rows[TemplateRow - 1], DocLinkCol) != Blank
    requires Lower(clientName) !in TrackerKeys(rows) && FindClient(dir, Lower(clientName)).Some?
    ensures var asWritten := SyncAsWritten(rows, dir, clientName);
            var corrected := SyncCorrected(rows, dir, clientName);
            |asWritten| == |rows| + 2 && CellAt(asWritten[|rows| + 1], DocLinkCol) != Blank &&
            |corrected| == |rows| + 1 && CellAt(corrected[|rows|], DocLinkCol) == Blank
  {
    var i := FindClient(dir, Lower(clientName)).value;
    SyncAsWrittenLeavesGap(rows, dir, clientName);
    SyncCorrectedMatchesBulk(rows, dir, clientName);
    NewTrackerRowColumns(RowAt(rows, TemplateRow), dir[i]);
  }

  /** The corrected step adds the same row insertAllMissingClients adds for that client. */
  lemma SyncCorrectedMatchesBulk(rows: seq<Row>, dir: seq<Row>, clientName: string)
    requires |rows| >= 2
    requires Lower(clientName) !in TrackerKeys(rows)
    requires FindClient(dir, Lower(clientName)).Some?
    ensures var i := FindClient(dir, Lower(clientName)).value;
            SyncCorrected(rows, dir, clientName) == rows + [NewTrackerRow(RowAt(rows, TemplateRow), dir[i])]
  {
    var i := FindClient(dir, Lower(clientName)).value;
    var template := RowAt(rows, TemplateRow);
    assert SyncCorrected(rows, dir, clientName) == rows + NewRows(template, [dir[i]]);
    NewRowsOne(template, dir[i]);
  }

  lemma NewRowsOne(template: Row, client: Row)
    ensures NewRows(template, [client]) == [NewTrackerRow(template, client)]
  {
    assert [client][..0] == [];
  }

  /** The sync step of addNewClientToTracker as written. Fails like getRange when the tracker
      has no data row, and like insertRowAfter when row getLastRow() + 1 is past the grid. */
  method SyncNewClientAsWritten(dir: Sheet, tracker: Sheet, clientName: string) returns (r: Result<bool>)
    requires dir != tracker && tracker.Valid()
    modifies tracker
    ensures tracker.Valid()
    ensures r.Err? ==> tracker.rows == old(tracker.rows) && tracker.maxRows == old(tracker.maxRows) && tracker.hidden == old(tracker.hidden)
    ensures r == Err(EmptyRange) <==> |old(tracker.rows)| < 2
    ensures r.Ok? ==> tracker.rows == SyncAsWritten(old(tracker.rows), dir.rows, clientName)
    ensures r == Ok(false) ==> tracker.maxRows == old(tracker.maxRows) && tracker.hidden == old(tracker.hidden)
    ensures r == Ok(true) ==> tracker.maxRows == old(tracker.maxRows) + 1 &&
                              tracker.hidden == ShiftedAfter(old(tracker.hidden), |old(tracker.rows)| + 1, 1)
    ensures r.Ok? ==> (r.value <==> tracker.rows != old(tracker.rows))
  {
    if tracker.LastRow() < 2 {
      return Err(EmptyRange);
    }
    var dirData := dir.rows;
    var masterNames := TrackerKeys(tracker.rows);
    var target := Lower(clientName);
    if target in masterNames {
      return Ok(false);
    }
    var found := FindClient(dirData, target);
    if found.None? {
      return Ok(false);
    }
    var clientRow := dirData[found.value];
    var insertRow := tracker.LastRow() + 1;
    if insertRow > tracker.maxRows {
      return Err(RowOutOfBounds);
    }
    tracker.InsertRowAfter(insertRow);
    assert tracker.rows == old(tracker.rows);
    var row := FilledRow(RowAt(tracker.rows, TemplateRow), clientRow);
    PutRowAfterGap(tracker.rows, row);
    tracker.SetRow(insertRow + 1, row);
    r := Ok(true);
  }

  /** The sync step as evidently intended: one row at getLastRow() + 1, R and S cleared. */
  method SyncNewClient(dir: Sheet, tracker: Sheet, clientName: string) returns (r: Result<bool>)
    requires dir != tracker && tracker.Valid()
    modifies tracker
    ensures tracker.Valid()
    ensures r.Err? <==> |old(tracker.rows)| < 2
    ensures r.Err? ==> tracker.rows == old(tracker.rows) && tracker.maxRows == old(tracker.maxRows) && tracker.hidden == old(tracker.hidden)
    ensures r.Ok? ==> tracker.rows == SyncCorrected(old(tracker.rows), dir.rows, clientName)
    ensures r == Ok(false) ==> tracker.maxRows == old(tracker.maxRows) && tracker.hidden == old(tracker.hidden)
    ensures r == Ok(true) ==> tracker.maxRows == old(tracker.maxRows) + 1 &&
                              tracker.hidden == ShiftedAfter(old(tracker.hidden), |old(tracker.rows)|, 1)
    ensures r.Ok? ==> (r.value <==> tracker.rows != old(tracker.rows))
  {
    if tracker.LastRow() < 2 {
      return Err(EmptyRange);
    }
    var target := Lower(clientName);
    if target in TrackerKeys(tracker.rows) {
      return Ok(false);
    }
    var found := FindClient(dir.rows, target);
    if found.None? {
      return Ok(false);
    }
    var clientRow := dir.rows[found.value];
    SyncCorrectedMatchesBulk(tracker.rows, dir.rows, clientName);
    AppendTrackerRow(tracker, clientRow);
    r := Ok(true);
  }
}
