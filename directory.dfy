/** The "Client Directory" tab: insertNewClientIntoDirectory (Code.js:364-403) and the edit
    timestamp of onEdit (Code.js:428-440). */
module Directory {
  import opened Text
  import opened Cells
  import opened Sheets
  import TrackerSync

  /** A prompt's outcome: the text typed before OK, or a cancel. */
  datatype Answer = Cancelled | Answered(text: string)

  /** Directory column K, which onEdit stamps with the edit time. */
  const StampCol: nat := 11
  const DirectorySheetName: string := "Client Directory"

  /** The values written to the new row: name, plan and email trimmed, status "Active",
      partner trimmed, in columns A to E. */
  function NewDirectoryRow(name: string, plan: string, email: string, partner: string): (row: Row)
    ensures |row| == 5
    ensures forall k | 0 <= k < 5 :: row[k].Plain? && row[k].value.Str?
  {
    [Plain(Str(Trim(name))), Plain(Str(Trim(plan))), Plain(Str(Trim(email))), Plain(Str("Active")),
     Plain(Str(Trim(partner)))]
  }

  /** insertNewClientIntoDirectory(): nothing happens if any of the four prompts is cancelled;
      otherwise one row goes below the last one. The format-only copy from row 2 changes no
      value. There is no check for a client already listed. Fails like insertRowsAfter(0, 1)
      on a tab without even a header row. */
  method InsertNewClientIntoDirectory(dir: Sheet, name: Answer, plan: Answer, email: Answer, partner: Answer)
    returns (r: Result<bool>)
    requires dir.Valid()
    modifies dir
    ensures dir.Valid()
    ensures r == Ok(true) <==> name.Answered? && plan.Answered? && email.Answered? && partner.Answered? && |old(dir.rows)| >= 1
    ensures r == Err(RowOutOfBounds) <==> name.Answered? && plan.Answered? && email.Answered? && partner.Answered? && |old(dir.rows)| == 0
    ensures r == Ok(true) ==>
      dir.rows == old(dir.rows) + [NewDirectoryRow(name.text, plan.text, email.text, partner.text)] &&
      dir.maxRows == old(dir.maxRows) + 1 &&
      dir.hidden == ShiftedAfter(old(dir.hidden), |old(dir.rows)|, 1)
    ensures r != Ok(true) ==> dir.rows == old(dir.rows) && dir.maxRows == old(dir.maxRows) && dir.hidden == old(dir.hidden)
  {
    if name.Cancelled? || plan.Cancelled? || email.Cancelled? || partner.Cancelled? {
      return Ok(false);
    }
    var lastRow := dir.LastRow();
    var newRowIndex := lastRow + 1;
    if lastRow < 1 {
      return Err(RowOutOfBounds);
    }
    dir.InsertRowAfter(lastRow);
    assert dir.rows == old(dir.rows);
    var newRowValues := NewDirectoryRow(name.text, plan.text, email.text, partner.text);
    PutRowAppends(dir.rows, newRowValues);
    dir.SetRow(newRowIndex, newRowValues);
    r := Ok(true);
  }

  /** The new row's key is the key of the name as typed: trimming before storing changes
      nothing the trackers compare. */
  lemma NewRowKey(name: string, plan: string, email: string, partner: string)
    ensures KeyOf(ValueAt(NewDirectoryRow(name, plan, email, partner), 1)) == Lower(Trim(name))
  {
    TrimIdempotent(name);
  }

  /** A name that is not blank once trimmed and that the tracker does not hold yet is picked up
      by the next insertAllMissingClients, after the rows selected before. */
  lemma NewRowSelected(dir: seq<Row>, keys: seq<string>, name: string, plan: string, email: string, partner: string)
    requires |dir| >= 1 && Trim(name) != "" && Lower(Trim(name)) !in keys
    ensures var row := NewDirectoryRow(name, plan, email, partner);
            TrackerSync.MissingClients(dir + [row], keys) == TrackerSync.MissingClients(dir, keys) + [row]
  {
    var row := NewDirectoryRow(name, plan, email, partner);
    NewRowKey(name, plan, email, partner);
    assert (dir + [row])[..|dir|] == dir;
    assert Truthy(ValueAt(row, 1));
  }

  /** Inserting the same client twice lists it twice, and the next insertAllMissingClients
      then selects both rows: the directory does not deduplicate. */
  lemma NoDeduplication(dir: seq<Row>, keys: seq<string>, name: string, plan: string, email: string, partner: string)
    requires |dir| >= 1 && Trim(name) != "" && Lower(Trim(name)) !in keys
    ensures var row := NewDirectoryRow(name, plan, email, partner);
            TrackerSync.MissingClients(dir + [row] + [row], keys) == TrackerSync.MissingClients(dir, keys) + [row, row]
  {
    var row := NewDirectoryRow(name, plan, email, partner);
    NewRowSelected(dir, keys, name, plan, email, partner);
    NewRowSelected(dir + [row], keys, name, plan, email, partner);
  }

  /** The cell onEdit stamps, if any: on the directory tab, below the header, for an edit in
      columns A to K, column K of the edited row. */
  function StampTarget(sheetName: string, editedRow: nat, editedCol: nat): (t: Option<(nat, nat)>)
    ensures t.Some? <==> sheetName == DirectorySheetName && editedRow > 1 && 1 <= editedCol <= StampCol
    ensures t.Some? ==> t.value == (editedRow, StampCol)
  {
    if sheetName != DirectorySheetName then None
    else if editedRow > 1 && editedCol >= 1 && editedCol <= StampCol then Some((editedRow, StampCol))
    else None
  }

  /** onEdit(e): writes the current time into the target cell, if there is one. `now` stands for
      `new Date()`. */
  method OnEdit(sheet: Sheet, sheetName: string, editedRow: nat, editedCol: nat, now: DateTime)
    requires sheet.Valid() && 1 <= editedRow <= sheet.maxRows
    modifies sheet`rows
    ensures sheet.Valid()
    ensures StampTarget(sheetName, editedRow, editedCol).None? ==> sheet.rows == old(sheet.rows)
    ensures StampTarget(sheetName, editedRow, editedCol).Some? ==>
      sheet.rows == PutCell(old(sheet.rows), editedRow, StampCol, Plain(Date(now)))
  {
    if sheetName != DirectorySheetName {
      return;
    }
    if editedRow > 1 && editedCol >= 1 && editedCol <= StampCol {
      sheet.SetCell(editedRow, StampCol, Plain(Date(now)));
    }
  }
}
