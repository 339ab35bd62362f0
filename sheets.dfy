/** One tab of the spreadsheet as an object the script updates in place, with the
    positional operations of the spreadsheet service that the script calls. */
module Sheets {
  import opened Cells

  /** Exceptions the spreadsheet service raises for the calls the script makes. */
  datatype Error =
    | EmptyRange      // getRange(row, col, numRows) with numRows < 1
    | RowOutOfBounds  // insertRowAfter past the last row of the grid

  datatype Result<T> = Ok(value: T) | Err(error: Error)

  /** Hidden row numbers after `n` rows were inserted below row `k`: rows up to `k` keep their
      number, the rows below move down by `n`. */
  function ShiftedAfter(hidden: set<nat>, k: nat, n: nat): set<nat>
  {
    (set h | h in hidden && h <= k) + (set h | h in hidden && h > k :: h + n)
  }

  lemma ShiftedAfterZero(hidden: set<nat>, k: nat)
    ensures ShiftedAfter(hidden, k, 0) == hidden
  {
  }

  /** Inserting below row k + n after n rows were inserted below row k continues the shift. */
  lemma ShiftedAfterStep(hidden: set<nat>, k: nat, n: nat)
    ensures ShiftedAfter(ShiftedAfter(hidden, k, n), k + n, 1) == ShiftedAfter(hidden, k, n + 1)
  {
    var a := ShiftedAfter(ShiftedAfter(hidden, k, n), k + n, 1);
    var b := ShiftedAfter(hidden, k, n + 1);
    forall x | x in a ensures x in b {
    }
    forall x | x in b ensures x in a {
      if x > k + n + 1 {
        assert x - (n + 1) in hidden;
        assert x - 1 in ShiftedAfter(hidden, k, n);
      }
    }
  }

  class Sheet {
    /** Rows 1..getLastRow(): the rows that hold content, the header first. */
    var rows: seq<Row>
    /** getMaxRows(): the rows of the grid, content or not. */
    var maxRows: nat
    /** The 1-based numbers of the hidden rows. */
    var hidden: set<nat>

    ghost predicate Valid()
      reads this
    {
      |rows| <= maxRows && forall h | h in hidden :: 1 <= h <= maxRows
    }

    constructor (rows: seq<Row>, maxRows: nat)
      requires |rows| <= maxRows
      ensures Valid()
      ensures this.rows == rows && this.maxRows == maxRows && hidden == {}
    {
      this.rows := rows;
      this.maxRows := maxRows;
      hidden := {};
    }

    /** getLastRow() */
    function LastRow(): nat
      reads this
    {
      |rows|
    }

    /** insertRowAfter(k): a blank row enters below row k. */
    method InsertRowAfter(k: nat)
      requires Valid() && 1 <= k <= maxRows
      modifies this
      ensures Valid()
      ensures rows == if k < |old(rows)| then old(rows)[..k] + [[]] + old(rows)[k..] else old(rows)
      ensures maxRows == old(maxRows) + 1
      ensures hidden == ShiftedAfter(old(hidden), k, 1)
    {
      if k < |rows| {
        rows := rows[..k] + [[]] + rows[k..];
      }
      maxRows := maxRows + 1;
      hidden := ShiftedAfter(hidden, k, 1);
    }

    /** Writes one cell: setValue, setFormula, clearContent. */
    method SetCell(r: nat, col: nat, c: Cell)
      requires Valid() && 1 <= r <= maxRows && col >= 1
      modifies this`rows
      ensures Valid()
      ensures rows == PutCell(old(rows), r, col, c)
    {
      rows := PutCell(rows, r, col, c);
    }

    /** Writes a whole row: a full-width copyTo from a template row, or setValues on a blank row. */
    method SetRow(r: nat, row: Row)
      requires Valid() && 1 <= r <= maxRows
      modifies this`rows
      ensures Valid()
      ensures rows == PutRow(old(rows), r, row)
    {
      rows := PutRow(rows, r, row);
    }

    /** Writes one column over existing rows: `getRange(start, col, n, 1).setFormulas(...)`. */
    method SetColumn(start: nat, col: nat, cells: seq<Cell>)
      requires Valid() && start >= 1 && col >= 1 && start - 1 + |cells| <= |rows|
      modifies this`rows
      ensures Valid()
      ensures rows == PutColumn(old(rows), start, col, cells)
    {
      rows := PutColumn(rows, start, col, cells);
    }

    /** appendRow: the row goes below the last row with content; the grid grows if it is full. */
    method AppendRow(row: Row)
      requires Valid()
      modifies this`rows, this`maxRows
      ensures Valid()
      ensures rows == old(rows) + [row]
      ensures maxRows == Max(old(maxRows), |rows|)
    {
      rows := rows + [row];
      maxRows := Max(maxRows, |rows|);
    }

    /** clear(): all content goes; the grid keeps its rows. */
    method Clear()
      requires Valid()
      modifies this`rows
      ensures Valid()
      ensures rows == []
    {
      rows := [];
    }

    /** showRows(start, n) */
    method ShowRows(start: nat, n: nat)
      requires Valid() && 1 <= start && 1 <= n && start + n - 1 <= maxRows
      modifies this`hidden
      ensures Valid()
      ensures hidden == set h | h in old(hidden) && !(start <= h < start + n)
    {
      hidden := set h | h in hidden && !(start <= h < start + n);
    }

    /** hideRows(r) */
    method HideRow(r: nat)
      requires Valid() && 1 <= r <= maxRows
      modifies this`hidden
      ensures Valid()
      ensures hidden == old(hidden) + {r}
    {
      hidden := hidden + {r};
    }
  }
}
