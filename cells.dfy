/** Cell values and rows of a spreadsheet tab, as the script reads and writes them. */
module Cells {
  import opened Text

  /** A JavaScript Date read from a cell; `text` is what converting it to a string yields. */
  datatype DateTime = DateTime(text: string)

  /** A cell value as getValues() returns it. Empty cells read as the empty string;
      numbers are modelled as integers. */
  datatype Value = Empty | Str(s: string) | Number(n: int) | Bool(b: bool) | Date(d: DateTime)

  /** What a cell holds: a literal value, or formula text together with the result the
      spreadsheet last computed for it. */
  datatype Cell = Plain(value: Value) | Formula(text: string, result: Value)

  datatype Option<T> = None | Some(value: T)

  /** A row, column A first. Cells past its end are blank. */
  type Row = seq<Cell>

  const Blank: Cell := Plain(Empty)

  /** Whether JavaScript treats the value as true in `if (v)` and `v || d`. */
  predicate Truthy(v: Value)
  {
    match v
    case Empty => false
    case Str(s) => s != ""
    case Number(n) => n != 0
    case Bool(b) => b
    case Date(_) => true
  }

  /** JavaScript's `v || fallback`. */
  function Or(v: Value, fallback: Value): (r: Value)
    ensures Truthy(v) ==> r == v
    ensures !Truthy(v) ==> r == fallback
  {
    if Truthy(v) then v else fallback
  }

  /** `String(v)`, which is also what a template literal `${v}` inserts. */
  function Show(v: Value): string
  {
    match v
    case Empty => ""
    case Str(s) => s
    case Number(n) => IntToString(n)
    case Bool(b) => if b then "true" else "false"
    case Date(d) => d.text
  }

  /** `v.toString().trim().toLowerCase()` */
  function KeyOf(v: Value): string
  {
    Lower(Trim(Show(v)))
  }

  /** `(v || '').toString().trim().toLowerCase()` */
  function KeyOrBlank(v: Value): string
  {
    KeyOf(Or(v, Str("")))
  }

  /** The two normalisations agree on every value JavaScript treats as true, and a false value
      gives the blank key under `KeyOrBlank`. They differ only on 0 and false, which `KeyOf`
      renders as "0" and "false". */
  lemma KeyOrBlankAgrees(v: Value)
    ensures Truthy(v) ==> KeyOrBlank(v) == KeyOf(v)
    ensures !Truthy(v) ==> KeyOrBlank(v) == ""
  {
  }

  lemma KeyOfFalseValues()
    ensures KeyOf(Number(0)) == "0" && KeyOf(Bool(false)) == "false"
  {
    assert Show(Number(0)) == "0";
    TrimStartNoop("0");
    TrimEndNoop("0");
    TrimStartNoop("false");
    TrimEndNoop("false");
    assert Lower("0") == "0";
    assert Lower("false") == "false";
  }

  /** A blank key can only come from a value that reads as white space. */
  lemma NonBlankKeyIsTruthy(v: Value)
    requires KeyOrBlank(v) != ""
    ensures Truthy(v) && KeyOf(v) == KeyOrBlank(v)
  {
  }

  /** The value a formula or literal cell reads as. */
  function ValueOf(c: Cell): Value
  {
    match c
    case Plain(v) => v
    case Formula(_, result) => result
  }

  /** The cell in 1-based column `col`; past the end of the row it is blank. */
  function CellAt(row: Row, col: nat): Cell
    requires col >= 1
  {
    if col <= |row| then row[col - 1] else Blank
  }

  function ValueAt(row: Row, col: nat): Value
    requires col >= 1
  {
    ValueOf(CellAt(row, col))
  }

  function Max(a: nat, b: nat): nat
  {
    if a < b then b else a
  }

  /** The row with the cell in column `col` replaced; the row grows with blanks if it is shorter. */
  function WithCell(row: Row, col: nat, c: Cell): (r: Row)
    requires col >= 1
    ensures |r| == Max(|row|, col)
    ensures CellAt(r, col) == c
    ensures forall k | k >= 1 && k != col :: CellAt(r, k) == CellAt(row, k)
  {
    if col <= |row| then row[col - 1 := c] else row + seq(col - 1 - |row|, _ => Blank) + [c]
  }

  /** The rows with row `r` replaced; the sheet grows with empty rows if it is shorter. */
  function PutRow(rows: seq<Row>, r: nat, row: Row): (rs: seq<Row>)
    requires r >= 1
    ensures |rs| == Max(|rows|, r)
    ensures rs[r - 1] == row
    ensures forall i | 0 <= i < |rows| && i != r - 1 :: rs[i] == rows[i]
    ensures forall i | |rows| <= i < r - 1 :: rs[i] == []
  {
    if r <= |rows| then rows[r - 1 := row] else rows + seq(r - 1 - |rows|, _ => []) + [row]
  }

  /** Writing the row just below the last one appends it. */
  lemma PutRowAppends(rows: seq<Row>, row: Row)
    ensures PutRow(rows, |rows| + 1, row) == rows + [row]
  {
    var pad: seq<Row> := seq(0, _ => []);
    assert pad == [];
  }

  /** Writing two rows below the last one leaves an empty row in between. */
  lemma PutRowAfterGap(rows: seq<Row>, row: Row)
    ensures PutRow(rows, |rows| + 2, row) == rows + [[], row]
  {
    var pad: seq<Row> := seq(1, _ => []);
    assert pad == [[]];
  }

  /** The row at 1-based position `r`; below the content it is an empty row. */
  function RowAt(rows: seq<Row>, r: nat): Row
    requires r >= 1
  {
    if r <= |rows| then rows[r - 1] else []
  }

  /** The rows with one cell written: `getRange(r, col).setValue(...)` and its kin. */
  function PutCell(rows: seq<Row>, r: nat, col: nat, c: Cell): (rs: seq<Row>)
    requires r >= 1 && col >= 1
    ensures |rs| == Max(|rows|, r)
  {
    PutRow(rows, r, WithCell(RowAt(rows, r), col, c))
  }

  /** The rows with column `col` of rows start..start + |cells| - 1 replaced by `cells`, top down:
      `getRange(start, col, cells.length, 1).setValues(...)` and `setFormulas(...)`. */
  function PutColumn(rows: seq<Row>, start: nat, col: nat, cells: seq<Cell>): (rs: seq<Row>)
    requires start >= 1 && col >= 1 && start - 1 + |cells| <= |rows|
    ensures |rs| == |rows|
  {
    seq(|rows|, i requires 0 <= i < |rows| =>
      if start - 1 <= i < start - 1 + |cells| then WithCell(rows[i], col, cells[i - start + 1]) else rows[i])
  }

  /** Row i + 1 after the column write: one cell replaced inside the range, untouched outside. */
  lemma PutColumnAt(rows: seq<Row>, start: nat, col: nat, cells: seq<Cell>, i: nat)
    requires start >= 1 && col >= 1 && start - 1 + |cells| <= |rows| && i < |rows|
    ensures PutColumn(rows, start, col, cells)[i] ==
            if start - 1 <= i < start - 1 + |cells| then WithCell(rows[i], col, cells[i - start + 1]) else rows[i]
  {
  }

  /** Rows 2..lastRow: the data below the header. */
  function Body(rows: seq<Row>): (b: seq<Row>)
    ensures |b| == if rows == [] then 0 else |rows| - 1
  {
    if rows == [] then [] else rows[1..]
  }

  /** The values of column `col` in rows 2..lastRow: `getRange(2, col, lastRow - 1).getValues()`. */
  function ColumnValues(rows: seq<Row>, col: nat): (vs: seq<Value>)
    requires col >= 1
    ensures |vs| == if |rows| == 0 then 0 else |rows| - 1
    ensures forall i | 0 <= i < |vs| :: vs[i] == ValueAt(rows[i + 1], col)
  {
    if |rows| <= 1 then [] else seq(|rows| - 1, i requires 0 <= i < |rows| - 1 => ValueAt(rows[i + 1], col))
  }

  lemma ColumnValuesAppend(rows: seq<Row>, row: Row, col: nat)
    requires |rows| >= 1 && col >= 1
    ensures ColumnValues(rows + [row], col) == ColumnValues(rows, col) + [ValueAt(row, col)]
  {
    var a := ColumnValues(rows + [row], col);
    var b := ColumnValues(rows, col) + [ValueAt(row, col)];
    assert |a| == |b|;
    forall i | 0 <= i < |a|
      ensures a[i] == b[i]
    {
      if i < |rows| - 1 {
        assert (rows + [row])[i + 1] == rows[i + 1];
      }
    }
  }
}
