/** Row visibility on the "Master Tracker" tab: hideInactiveAndTransitioningRows
    (Code.js:560-579) and unhideAllClientRows (Code.js:584-588). */
module Visibility {
  import opened Text
  import opened Cells
  import opened Sheets

  const StatusCol: nat := 15
  const StartRow: nat := 2

  /** `(status || '').toString().toLowerCase().trim()` is "inactive" or "transitioning". */
  predicate Parked(status: Value)
  {
    var s := Trim(Lower(Show(Or(status, Str("")))));
    s == "inactive" || s == "transitioning"
  }

  /** For each data row, whether its status is parked. */
  function Flags(statuses: seq<Value>): (f: seq<bool>)
    ensures |f| == |statuses|
    ensures forall i | 0 <= i < |f| :: f[i] == Parked(statuses[i])
  {
    if statuses == [] then []
    else
      var n := |statuses|;
      Flags(statuses[..n - 1]) + [Parked(statuses[n - 1])]
  }

  /** Row 2 + i for each flag i that is set. */
  function RowsOf(flags: seq<bool>): set<nat>
  {
    if flags == [] then {}
    else
      var n := |flags|;
      RowsOf(flags[..n - 1]) + if flags[n - 1] then {n + 1} else {}
  }

  /** The number of flags set. */
  function CountOf(flags: seq<bool>): nat
  {
    if flags == [] then 0
    else
      var n := |flags|;
      CountOf(flags[..n - 1]) + if flags[n - 1] then 1 else 0
  }

  /** The rows the loop hides: row 2 + i for each parked status i. */
  function HiddenRows(statuses: seq<Value>): set<nat>
  {
    RowsOf(Flags(statuses))
  }

  /** The number of parked statuses: the logged `hiddenCount`. */
  function CountParked(statuses: seq<Value>): nat
  {
    CountOf(Flags(statuses))
  }

  lemma {:induction false} RowsOfSound(flags: seq<bool>)
    ensures forall x | x in RowsOf(flags) :: StartRow <= x < |flags| + StartRow && flags[x - StartRow]
  {
    if flags != [] {
      var n := |flags|;
      var init := flags[..n - 1];
      RowsOfSound(init);
      forall x | x in RowsOf(flags)
        ensures StartRow <= x < n + StartRow && flags[x - StartRow]
      {
        if x in RowsOf(init) {
          assert flags[x - StartRow] == init[x - StartRow];
        }
      }
    }
  }

  lemma {:induction false} RowsOfComplete(flags: seq<bool>)
    ensures forall i | 0 <= i < |flags| && flags[i] :: i + StartRow in RowsOf(flags)
  {
    if flags != [] {
      var n := |flags|;
      var init := flags[..n - 1];
      RowsOfComplete(init);
      forall i | 0 <= i < n && flags[i]
        ensures i + StartRow in RowsOf(flags)
      {
        if i < n - 1 {
          assert flags[i] == init[i];
        }
      }
    }
  }

  /** The hidden set is exactly the rows of parked statuses. */
  lemma HiddenRowsExact(statuses: seq<Value>)
    ensures forall x :: x in HiddenRows(statuses) <==> StartRow <= x < |statuses| + StartRow && Parked(statuses[x - StartRow])
  {
    RowsOfSound(Flags(statuses));
    RowsOfComplete(Flags(statuses));
    forall x | StartRow <= x < |statuses| + StartRow && Parked(statuses[x - StartRow])
      ensures x in HiddenRows(statuses)
    {
      assert Flags(statuses)[x - StartRow];
    }
  }

  lemma {:induction false} RowsOfCount(flags: seq<bool>)
    ensures |RowsOf(flags)| == CountOf(flags)
  {
    if flags != [] {
      var n := |flags|;
      var init := flags[..n - 1];
      RowsOfCount(init);
      RowsOfSound(init);
      assert n + 1 !in RowsOf(init);
    }
  }

  /** The logged count is the number of rows hidden. */
  lemma HiddenRowsCount(statuses: seq<Value>)
    ensures |HiddenRows(statuses)| == CountParked(statuses)
  {
    RowsOfCount(Flags(statuses));
  }

  /** The hidden rows left once showRows(2, getMaxRows() - 1) has run: at most the header. */
  function HeaderOnly(hidden: set<nat>): set<nat>
  {
    set h | h in hidden && h < StartRow
  }

  /** The hidden set after the hide pass. */
  function AfterHide(hidden: set<nat>, statuses: seq<Value>): set<nat>
  {
    HeaderOnly(hidden) + HiddenRows(statuses)
  }

  /** Running the hide pass again over the same statuses changes nothing. */
  lemma HideIdempotent(hidden: set<nat>, statuses: seq<Value>)
    ensures AfterHide(AfterHide(hidden, statuses), statuses) == AfterHide(hidden, statuses)
  {
    HiddenRowsExact(statuses);
    assert HeaderOnly(AfterHide(hidden, statuses)) == HeaderOnly(hidden);
  }

  /** Unhiding after hiding leaves what unhiding alone leaves. */
  lemma UnhideUndoesHide(hidden: set<nat>, statuses: seq<Value>)
    ensures HeaderOnly(AfterHide(hidden, statuses)) == HeaderOnly(hidden)
  {
    HiddenRowsExact(statuses);
  }

  /** hideInactiveAndTransitioningRows(): fails like getRange when there is no data row;
      otherwise shows rows 2..maxRows, hides the parked rows and returns how many. */
  method HideInactiveAndTransitioningRows(sheet: Sheet) returns (r: Result<nat>)
    requires sheet.Valid()
    modifies sheet`hidden
    ensures sheet.Valid()
    ensures r.Err? <==> |sheet.rows| < 2
    ensures r.Err? ==> sheet.hidden == old(sheet.hidden)
    ensures r.Ok? ==> var statuses := ColumnValues(sheet.rows, StatusCol);
                      sheet.hidden == AfterHide(old(sheet.hidden), statuses) &&
                      r.value == CountParked(statuses) == |HiddenRows(statuses)|
  {
    var numRows := sheet.LastRow() - 1;
    if numRows < 1 {
      return Err(EmptyRange);
    }
    var statuses := ColumnValues(sheet.rows, StatusCol);
    sheet.ShowRows(StartRow, sheet.maxRows - 1);
    var hiddenCount := HideFlaggedRows(sheet, Flags(statuses));
    HiddenRowsCount(statuses);
    r := Ok(hiddenCount);
  }

  lemma FlagStep(flags: seq<bool>, i: nat)
    requires i < |flags|
    ensures RowsOf(flags[..i + 1]) == RowsOf(flags[..i]) + if flags[i] then {i + StartRow} else {}
    ensures CountOf(flags[..i + 1]) == CountOf(flags[..i]) + if flags[i] then 1 else 0
  {
    assert flags[..i + 1][..i] == flags[..i];
  }

  /** The loop of the hide pass, over the parked flag of each data row: hideRows(2 + i) and a
      count for each flag that is set. */
  method HideFlaggedRows(sheet: Sheet, flags: seq<bool>) returns (hiddenCount: nat)
    requires sheet.Valid() && |flags| + 1 <= sheet.maxRows
    modifies sheet`hidden
    ensures sheet.Valid()
    ensures sheet.hidden == old(sheet.hidden) + RowsOf(flags)
    ensures hiddenCount == CountOf(flags)
  {
    hiddenCount := 0;
    var i := 0;
    while i < |flags|
      invariant 0 <= i <= |flags|
      invariant sheet.Valid()
      invariant sheet.hidden == old(sheet.hidden) + RowsOf(flags[..i])
      invariant hiddenCount == CountOf(flags[..i])
    {
      FlagStep(flags, i);
      if flags[i] {
        sheet.HideRow(StartRow + i);
        hiddenCount := hiddenCount + 1;
      }
      i := i + 1;
    }
    assert flags[..i] == flags;
  }

  /** unhideAllClientRows(): shows every row from row 2 down; fails like showRows when the
      grid has no row below the header. */
  method UnhideAllClientRows(sheet: Sheet) returns (r: Result<()>)
    requires sheet.Valid()
    modifies sheet`hidden
    ensures sheet.Valid()
    ensures r.Err? <==> sheet.maxRows < 2
    ensures r.Ok? ==> sheet.hidden == HeaderOnly(old(sheet.hidden))
    ensures r.Err? ==> sheet.hidden == old(sheet.hidden)
  {
    if sheet.maxRows < 2 {
      return Err(EmptyRange);
    }
    sheet.ShowRows(StartRow, sheet.maxRows - 1);
    r := Ok(());
  }
}
