/** updateMasterTrackerFormulas (Code.js:240-286): rewrites, for every data row of the
    "Master Tracker" tab, the formula text of columns F, H and I and of the Client Directory
    lookups in L-Q. Only the text is modelled; the spreadsheet evaluates it. */
module Formulas {
  import opened Text
  import opened Cells
  import opened Sheets

  const StartRow: nat := 2
  const NameCol: nat := 2

  /** The columns the script writes. A lookup names its tracker column and the column of the
      Client Directory (A = 1) that VLOOKUP returns. */
  datatype Kind = HoursUsed | BlockUsed | RemainingBlock | Lookup(col: Column, index: nat)

  /** A 1-based column number. */
  type Column = c: nat | c >= 1 witness 1

  /** F (Hours Used), H (Block Used), I (Remaining Block), filled by one loop. */
  const TimeKinds: seq<Kind> := [HoursUsed, BlockUsed, RemainingBlock]

  /** L (Support Summary Link), M (First Name), N (Last Name), O (Status), P (Domain Expire),
      Q (Access to GA), in the order the lookup table lists them. */
  const LookupKinds: seq<Kind> :=
    [Lookup(12, 3), Lookup(13, 7), Lookup(14, 8), Lookup(15, 4), Lookup(16, 9), Lookup(17, 10)]

  const AllKinds: seq<Kind> := TimeKinds + LookupKinds

  function ColOf(k: Kind): Column
  {
    match k
    case HoursUsed => 6
    case BlockUsed => 8
    case RemainingBlock => 9
    case Lookup(col, _) => col
  }

  /** No two kinds of the list write the same column. */
  predicate DistinctCols(kinds: seq<Kind>)
  {
    forall a, b | 0 <= a < b < |kinds| :: ColOf(kinds[a]) != ColOf(kinds[b])
  }

  /** An A1 reference such as "B7". */
  function Ref(column: string, row: nat): string
  {
    column + NatToString(row)
  }

  /** The fixed text between the substitutions of the template literals. */
  datatype Piece =
    | IfOpen | MaxOpen | BlankOrTimeLookup | TimeLookupTail | ZeroIfZero | AtMost | ZeroElseIf
    | AtMostZero | Minus | ElseMin | Comma | CloseAll | SpacedMinus | ZeroClose
    | BlankOrDirectoryLookup | ActiveClients | DirectoryLookupTail

  function PieceText(p: Piece): string
  {
    match p
    case IfOpen => "=IF("
    case MaxOpen => "=MAX("
    case BlankOrTimeLookup => "=\"\", \"\", IFERROR(VLOOKUP("
    case TimeLookupTail => ", 'Time Entry'!A:O, 15, FALSE), 0))"
    case ZeroIfZero => "=0, 0, IF("
    case AtMost => "<="
    case ZeroElseIf => ", 0, IF("
    case AtMostZero => "<=0, "
    case Minus => "-"
    case ElseMin => ", MIN("
    case Comma => ", "
    case CloseAll => "))))"
    case SpacedMinus => " - "
    case ZeroClose => ", 0)"
    case BlankOrDirectoryLookup => "=\"\", \"\", IFERROR(VLOOKUP(TO_TEXT("
    case ActiveClients => "), FILTER('Client Directory'!A:J, 'Client Directory'!D:D = \"Active\"), "
    case DirectoryLookupTail => ", FALSE), \"\"))"
  }

  /** A piece of a template literal: fixed text, a reference to a column on the row being
      written (`B${row}`), or a number (`${cfg.index}`). */
  datatype Part = Lit(p: Piece) | RowRef(column: string) | Num(n: nat)

  function PartText(part: Part, r: nat): string
  {
    match part
    case Lit(p) => PieceText(p)
    case RowRef(column) => Ref(column, r)
    case Num(n) => NatToString(n)
  }

  /** The template with the row number filled in. */
  function Render(parts: seq<Part>, r: nat): string
  {
    if parts == [] then [] else PartText(parts[0], r) + Render(parts[1..], r)
  }

  /** The template literals of Code.js:257-259 and Code.js:281. */
  function Template(k: Kind): seq<Part>
  {
    match k
    case HoursUsed =>
      [Lit(IfOpen), RowRef("B"), Lit(BlankOrTimeLookup), RowRef("B"), Lit(TimeLookupTail)]
    case BlockUsed =>
      [Lit(IfOpen), RowRef("F"), Lit(ZeroIfZero), RowRef("F"), Lit(AtMost), RowRef("D"),
       Lit(ZeroElseIf), RowRef("E"), Lit(AtMostZero), RowRef("F"), Lit(Minus), RowRef("D"),
       Lit(ElseMin), RowRef("F"), Lit(Minus), RowRef("D"), Lit(Comma), RowRef("E"), Lit(CloseAll)]
    case RemainingBlock =>
      [Lit(MaxOpen), RowRef("E"), Lit(SpacedMinus), RowRef("H"), Lit(ZeroClose)]
    case Lookup(_, index) =>
      [Lit(IfOpen), RowRef("B"), Lit(BlankOrDirectoryLookup), RowRef("B"),
       Lit(ActiveClients), Num(index), Lit(DirectoryLookupTail)]
  }

  /** The formula text for tracker row `r`. */
  function FormulaText(k: Kind, r: nat): string
  {
    Render(Template(k), r)
  }

  /** What one row gets in column `ColOf(k)`: nothing when its client name is falsy (the
      empty formula clears the cell), the formula otherwise. */
  function EntryCell(name: Value, r: nat, k: Kind): Cell
  {
    if Truthy(name) then Formula(FormulaText(k, r), Empty) else Blank
  }

  /** The column the loop builds from the client names read from rows 2..lastRow. */
  function ColumnCells(names: seq<Value>, k: Kind): (cs: seq<Cell>)
    ensures |cs| == |names|
    ensures forall i | 0 <= i < |names| :: cs[i] == EntryCell(names[i], i + StartRow, k)
  {
    seq(|names|, i requires 0 <= i < |names| => EntryCell(names[i], i + StartRow, k))
  }

  /** One setFormulas call: a column and the cells it receives from row 2 down. */
  datatype Write = Write(col: Column, cells: seq<Cell>)

  /** The call the script makes for kind `k`. */
  function WriteOf(names: seq<Value>, k: Kind): Write
  {
    Write(ColOf(k), ColumnCells(names, k))
  }

  function Writes(names: seq<Value>, kinds: seq<Kind>): (ws: seq<Write>)
    ensures |ws| == |kinds|
    ensures forall j | 0 <= j < |kinds| :: ws[j] == WriteOf(names, kinds[j])
  {
    seq(|kinds|, j requires 0 <= j < |kinds| => WriteOf(names, kinds[j]))
  }

  /** Every call stays within rows 2..height. */
  predicate Fits(height: nat, ws: seq<Write>)
  {
    forall j | 0 <= j < |ws| :: |ws[j].cells| + 1 <= height
  }

  /** No two calls write the same column. */
  predicate DistinctWrites(ws: seq<Write>)
  {
    forall a, b | 0 <= a < b < |ws| :: ws[a].col != ws[b].col
  }

  /** The rows after the calls of `ws`, in order. */
  function Apply(rows: seq<Row>, ws: seq<Write>): (rs: seq<Row>)
    requires Fits(|rows|, ws)
    ensures |rs| == |rows|
  {
    if ws == [] then rows
    else
      var n := |ws|;
      PrefixFits(|rows|, ws, n - 1);
      PutColumn(Apply(rows, ws[..n - 1]), StartRow, ws[n - 1].col, ws[n - 1].cells)
  }

  /** The tracker after updateMasterTrackerFormulas, given rows 1..lastRow with lastRow >= 2. */
  function Updated(rows: seq<Row>): (rs: seq<Row>)
    requires |rows| >= 2
    ensures |rs| == |rows|
  {
    var ws := Writes(ColumnValues(rows, NameCol), AllKinds);
    assert Fits(|rows|, ws);
    Apply(rows, ws)
  }

  lemma {:induction false} ApplyStep(rows: seq<Row>, ws: seq<Write>, w: Write)
    requires Fits(|rows|, ws + [w])
    ensures Fits(|rows|, ws) && |w.cells| + 1 <= |rows|
    ensures Apply(rows, ws + [w]) == PutColumn(Apply(rows, ws), StartRow, w.col, w.cells)
  {
    assert (ws + [w])[..|ws|] == ws;
    assert (ws + [w])[|ws|] == w;
    PrefixFits(|rows|, ws + [w], |ws|);
  }

  lemma PrefixFits(height: nat, ws: seq<Write>, n: nat)
    requires Fits(height, ws) && n <= |ws|
    ensures Fits(height, ws[..n])
  {
    forall j | 0 <= j < n
      ensures |ws[..n][j].cells| + 1 <= height
    {
      assert ws[..n][j] == ws[j];
    }
  }

  /** The previous calls fit whenever all of them do. */
  lemma FitsInit(height: nat, ws: seq<Write>)
    requires ws != [] && Fits(height, ws)
    ensures Fits(height, ws[..|ws| - 1])
  {
    PrefixFits(height, ws, |ws| - 1);
  }

  /** The last call replaces one cell of each row it covers and leaves the others. */
  lemma {:induction false} ApplyLastRow(rows: seq<Row>, ws: seq<Write>, i: nat)
    requires Fits(|rows|, ws) && ws != [] && i < |rows|
    ensures Fits(|rows|, ws[..|ws| - 1])
    ensures var last := ws[|ws| - 1];
            Apply(rows, ws)[i] ==
            if 1 <= i <= |last.cells| then WithCell(Apply(rows, ws[..|ws| - 1])[i], last.col, last.cells[i - 1])
            else Apply(rows, ws[..|ws| - 1])[i]
  {
    FitsInit(|rows|, ws);
    var n := |ws|;
    PutColumnAt(Apply(rows, ws[..n - 1]), StartRow, ws[n - 1].col, ws[n - 1].cells, i);
  }

  /** A cell no call touches keeps its content: the header row, and every column no call writes. */
  lemma {:induction false} ApplyUntouched(rows: seq<Row>, ws: seq<Write>, i: nat, col: nat)
    requires Fits(|rows|, ws)
    requires i < |rows| && col >= 1
    requires i == 0 || forall j | 0 <= j < |ws| :: ws[j].col != col
    ensures CellAt(Apply(rows, ws)[i], col) == CellAt(rows[i], col)
  {
    if ws != [] {
      var n := |ws|;
      var init := ws[..n - 1];
      ApplyLastRow(rows, ws, i);
      if i != 0 {
        assert forall j | 0 <= j < |init| :: init[j] == ws[j];
      }
      ApplyUntouched(rows, init, i, col);
    }
  }

  /** The header row is not touched at all. */
  lemma {:induction false} ApplyKeepsHeader(rows: seq<Row>, ws: seq<Write>)
    requires Fits(|rows|, ws) && rows != []
    ensures Apply(rows, ws)[0] == rows[0]
  {
    if ws != [] {
      ApplyLastRow(rows, ws, 0);
      ApplyKeepsHeader(rows, ws[..|ws| - 1]);
    }
  }

  lemma DistinctInit(ws: seq<Write>)
    requires ws != [] && DistinctWrites(ws)
    ensures DistinctWrites(ws[..|ws| - 1])
  {
    var init := ws[..|ws| - 1];
    forall a, b | 0 <= a < b < |init|
      ensures init[a].col != init[b].col
    {
      assert init[a] == ws[a] && init[b] == ws[b];
    }
  }

  /** Each call's cells end up in its column, whatever the other calls write. */
  lemma {:induction false} ApplyWritten(rows: seq<Row>, ws: seq<Write>, i: nat, j: nat)
    requires Fits(|rows|, ws) && DistinctWrites(ws)
    requires j < |ws| && 1 <= i <= |ws[j].cells|
    ensures CellAt(Apply(rows, ws)[i], ws[j].col) == ws[j].cells[i - 1]
  {
    var n := |ws|;
    var init := ws[..n - 1];
    ApplyLastRow(rows, ws, i);
    if j < n - 1 {
      assert init[j] == ws[j];
      DistinctInit(ws);
      FitsInit(|rows|, ws);
      ApplyWritten(rows, init, i, j);
    }
  }

  lemma AllKindsFacts()
    ensures DistinctCols(AllKinds)
    ensures |AllKinds| == 9
  {
  }

  /** The columns the update writes: F, H, I and L-Q. */
  function WrittenCols(): set<nat>
  {
    {6, 8, 9, 12, 13, 14, 15, 16, 17}
  }

  lemma WrittenColsOf(col: nat)
    requires col !in WrittenCols()
    ensures forall j | 0 <= j < |AllKinds| :: ColOf(AllKinds[j]) != col
  {
  }

  /** Every data row r gets, in each of the nine columns, the formula for r when its client
      name is truthy and an empty cell when it is not. */
  lemma UpdatedEntries(rows: seq<Row>, i: nat, j: nat)
    requires |rows| >= 2 && 1 <= i < |rows| && j < |AllKinds|
    ensures CellAt(Updated(rows)[i], ColOf(AllKinds[j])) == EntryCell(ValueAt(rows[i], NameCol), i + 1, AllKinds[j])
  {
    var names := ColumnValues(rows, NameCol);
    var ws := Writes(names, AllKinds);
    AllKindsFacts();
    assert DistinctWrites(ws) by {
      forall a, b | 0 <= a < b < |ws|
        ensures ws[a].col != ws[b].col
      {
        assert ws[a].col == ColOf(AllKinds[a]) && ws[b].col == ColOf(AllKinds[b]);
      }
    }
    ApplyWritten(rows, ws, i, j);
    assert ws[j].cells[i - 1] == EntryCell(names[i - 1], i - 1 + StartRow, AllKinds[j]);
  }

  /** The header row is not touched, and outside F, H, I and L-Q no cell changes. */
  lemma UpdatedKeepsOthers(rows: seq<Row>, i: nat, col: nat)
    requires |rows| >= 2 && i < |rows| && col >= 1
    requires i == 0 || col !in WrittenCols()
    ensures CellAt(Updated(rows)[i], col) == CellAt(rows[i], col)
    ensures i == 0 ==> Updated(rows)[0] == rows[0]
  {
    var ws := Writes(ColumnValues(rows, NameCol), AllKinds);
    if i == 0 {
      ApplyKeepsHeader(rows, ws);
    } else {
      WrittenColsOf(col);
    }
    ApplyUntouched(rows, ws, i, col);
  }

  /** Column B, which the entries are computed from, is not rewritten, so a second run
      computes the same entries. */
  lemma UpdatedKeepsNames(rows: seq<Row>)
    requires |rows| >= 2
    ensures ColumnValues(Updated(rows), NameCol) == ColumnValues(rows, NameCol)
  {
    var a := ColumnValues(Updated(rows), NameCol);
    forall i | 0 <= i < |a|
      ensures a[i] == ColumnValues(rows, NameCol)[i]
    {
      UpdatedKeepsOthers(rows, i + 1, NameCol);
    }
  }

  lemma {:induction false} RenderAppend(a: seq<Part>, b: seq<Part>, r: nat)
    ensures Render(a + b, r) == Render(a, r) + Render(b, r)
    decreases |a|
  {
    if a == [] {
      assert a + b == b;
    } else {
      assert (a + b)[1..] == a[1..] + b;
      RenderAppend(a[1..], b, r);
    }
  }

  /** Every piece of a template appears in the rendered text. */
  lemma {:induction false} RenderMentions(parts: seq<Part>, r: nat, j: nat)
    requires j < |parts|
    ensures Mentions(Render(parts, r), PartText(parts[j], r))
  {
    var pre, post, x := parts[..j], parts[j + 1..], parts[j];
    assert parts == pre + ([x] + post);
    RenderAppend(pre, [x] + post, r);
    assert ([x] + post)[0] == x && ([x] + post)[1..] == post;
    var a, b := Render(pre, r), Render(post, r);
    assert Render(parts, r) == a + (PartText(x, r) + b);
    assert a + (PartText(x, r) + b) == a + PartText(x, r) + b;
    MentionsSplice(a, PartText(x, r), b);
  }

  /** The columns each formula refers to on its own row. */
  function Refs(k: Kind): seq<string>
  {
    match k
    case HoursUsed => ["B"]
    case BlockUsed => ["F", "D", "E"]
    case RemainingBlock => ["E", "H"]
    case Lookup(_, _) => ["B"]
  }

  /** Every formula refers to its own row: B{r} for F and the lookups, F{r}, D{r} and E{r}
      for H, E{r} and H{r} for I. */
  lemma FormulaRefersToRow(k: Kind, r: nat, c: string)
    requires c in Refs(k)
    ensures Mentions(FormulaText(k, r), Ref(c, r))
  {
    var t := Template(k);
    var j: nat :=
      match k
      case HoursUsed => 1
      case BlockUsed => if c == "F" then 1 else if c == "D" then 5 else 7
      case RemainingBlock => if c == "E" then 1 else 3
      case Lookup(_, _) => 1;
    assert t[j] == RowRef(c);
    RenderMentions(t, r, j);
  }

  lemma RenderThree(x: Part, y: Part, z: Part, r: nat)
    ensures Render([x, y, z], r) == PartText(x, r) + PartText(y, r) + PartText(z, r)
  {
    var s := [x, y, z];
    assert s[1..] == [y, z] && s[1..][1..] == [z] && s[1..][1..][1..] == [];
    assert Render([z], r) == PartText(z, r) + "";
    assert Render([y, z], r) == PartText(y, r) + Render([z], r);
  }

  /** A text ending in `x` mentions it. */
  lemma MentionsEnd(a: string, x: string)
    ensures Mentions(a + x, x)
  {
    MentionsSplice(a, x, "");
    assert a + x + "" == a + x;
  }

  /** The lookup for directory column `index` passes that index to VLOOKUP as its column
      argument: right after the range of active directory rows, and followed by the exact-match
      flag FALSE. */
  lemma LookupPassesIndex(col: Column, index: nat, r: nat)
    ensures Mentions(FormulaText(Lookup(col, index), r),
                     PieceText(ActiveClients) + NatToString(index) + PieceText(DirectoryLookupTail))
    ensures Mentions(FormulaText(Lookup(col, index), r), NatToString(index))
  {
    RenderMentions(Template(Lookup(col, index)), r, 5);
    var a := [Lit(IfOpen), RowRef("B"), Lit(BlankOrDirectoryLookup), RowRef("B")];
    var b := [Lit(ActiveClients), Num(index), Lit(DirectoryLookupTail)];
    assert Template(Lookup(col, index)) == a + b;
    RenderAppend(a, b, r);
    RenderThree(Lit(ActiveClients), Num(index), Lit(DirectoryLookupTail), r);
    MentionsEnd(Render(a, r), Render(b, r));
  }

  /** The lookup table: L, M, N, O, P and Q pull directory columns 3, 7, 8, 4, 9 and 10 of the
      client's active directory row. */
  lemma LookupTableIndices(r: nat)
    ensures forall j | 0 <= j < |LookupKinds| :: ColOf(LookupKinds[j]) == 12 + j
    ensures Mentions(FormulaText(LookupKinds[0], r), PieceText(ActiveClients) + NatToString(3) + PieceText(DirectoryLookupTail))
    ensures Mentions(FormulaText(LookupKinds[1], r), PieceText(ActiveClients) + NatToString(7) + PieceText(DirectoryLookupTail))
    ensures Mentions(FormulaText(LookupKinds[2], r), PieceText(ActiveClients) + NatToString(8) + PieceText(DirectoryLookupTail))
    ensures Mentions(FormulaText(LookupKinds[3], r), PieceText(ActiveClients) + NatToString(4) + PieceText(DirectoryLookupTail))
    ensures Mentions(FormulaText(LookupKinds[4], r), PieceText(ActiveClients) + NatToString(9) + PieceText(DirectoryLookupTail))
    ensures Mentions(FormulaText(LookupKinds[5], r), PieceText(ActiveClients) + NatToString(10) + PieceText(DirectoryLookupTail))
  {
    LookupPassesIndex(12, 3, r);
    LookupPassesIndex(13, 7, r);
    LookupPassesIndex(14, 8, r);
    LookupPassesIndex(15, 4, r);
    LookupPassesIndex(16, 9, r);
    LookupPassesIndex(17, 10, r);
  }

  predicate NoDigits(s: string)
  {
    forall i | 0 <= i < |s| :: !IsDigit(s[i])
  }

  /** The first run of digits in a text. */
  function FirstNumber(s: string): (d: string)
    ensures AllDigits(d)
  {
    if s == [] then []
    else if IsDigit(s[0]) then LeadingDigits(s)
    else FirstNumber(s[1..])
  }

  lemma {:induction false} FirstNumberOf(p: string, d: string, rest: string)
    requires NoDigits(p) && AllDigits(d) && d != []
    requires rest == [] || !IsDigit(rest[0])
    ensures FirstNumber(p + d + rest) == d
    decreases |p|
  {
    if p == [] {
      assert p + d + rest == d + rest;
      LeadingDigitsOf(d, rest);
    } else {
      assert (p + d + rest)[1..] == p[1..] + d + rest;
      FirstNumberOf(p[1..], d, rest);
    }
  }

  /** The row a formula refers to: the first number in its text. */
  function RowOf(text: string): nat
  {
    DigitsValue(FirstNumber(text))
  }

  /** A template that opens with digit-free text, a row reference and then text that does
      not start with a digit carries its row number as the first number of its rendering. */
  lemma {:induction false} RenderFront(parts: seq<Part>, r: nat)
    requires |parts| >= 3 && parts[0].Lit? && parts[1].RowRef? && parts[2].Lit?
    ensures Render(parts, r) ==
            (PieceText(parts[0].p) + parts[1].column) + NatToString(r) + (PieceText(parts[2].p) + Render(parts[3..], r))
  {
    var a, c, n, b := PieceText(parts[0].p), parts[1].column, NatToString(r), PieceText(parts[2].p) + Render(parts[3..], r);
    assert parts[1..][1..] == parts[2..];
    assert parts[2..][1..] == parts[3..];
    assert Render(parts[2..], r) == b;
    assert Render(parts[1..], r) == (c + n) + b;
    assert Render(parts, r) == a + ((c + n) + b);
    assert a + ((c + n) + b) == (a + c) + n + b;
  }

  lemma {:induction false} RenderRowFirst(parts: seq<Part>, r: nat)
    requires |parts| >= 3 && parts[0].Lit? && parts[1].RowRef? && parts[2].Lit?
    requires NoDigits(PieceText(parts[0].p) + parts[1].column)
    requires var s := PieceText(parts[2].p); s != [] && !IsDigit(s[0])
    ensures RowOf(Render(parts, r)) == r
  {
    var p2 := PieceText(parts[2].p);
    var rest := p2 + Render(parts[3..], r);
    RenderFront(parts, r);
    assert rest[0] == p2[0];
    FirstNumberOf(PieceText(parts[0].p) + parts[1].column, NatToString(r), rest);
    NatToStringRoundTrip(r);
  }

  /** The row number spliced into a formula reads back from its text, so no two rows share
      a formula. */
  lemma FormulaRowRoundTrip(k: Kind, r: nat)
    ensures RowOf(FormulaText(k, r)) == r
  {
    var t := Template(k);
    assert NoDigits(PieceText(t[0].p) + t[1].column);
    RenderRowFirst(t, r);
  }

  lemma FormulaRowsDiffer(k: Kind, r1: nat, r2: nat)
    requires r1 != r2
    ensures FormulaText(k, r1) != FormulaText(k, r2)
  {
    FormulaRowRoundTrip(k, r1);
    FormulaRowRoundTrip(k, r2);
  }

  lemma ColumnCellsStep(names: seq<Value>, i: nat, k: Kind)
    requires i < |names|
    ensures ColumnCells(names[..i + 1], k) == ColumnCells(names[..i], k) + [EntryCell(names[i], i + StartRow, k)]
  {
    assert names[..i + 1][..i] == names[..i];
  }

  /** The F, H and I loop: one entry per name in each of the three columns. */
  method BuildTimeColumns(names: seq<Value>) returns (colF: seq<Cell>, colH: seq<Cell>, colI: seq<Cell>)
    ensures colF == ColumnCells(names, HoursUsed)
    ensures colH == ColumnCells(names, BlockUsed)
    ensures colI == ColumnCells(names, RemainingBlock)
  {
    colF, colH, colI := [], [], [];
    var i := 0;
    while i < |names|
      invariant 0 <= i <= |names|
      invariant colF == ColumnCells(names[..i], HoursUsed)
      invariant colH == ColumnCells(names[..i], BlockUsed)
      invariant colI == ColumnCells(names[..i], RemainingBlock)
    {
      var row := i + StartRow;
      var b := names[i];
      ColumnCellsStep(names, i, HoursUsed);
      ColumnCellsStep(names, i, BlockUsed);
      ColumnCellsStep(names, i, RemainingBlock);
      if !Truthy(b) {
        colF, colH, colI := colF + [Blank], colH + [Blank], colI + [Blank];
      } else {
        colF := colF + [Formula(FormulaText(HoursUsed, row), Empty)];
        colH := colH + [Formula(FormulaText(BlockUsed, row), Empty)];
        colI := colI + [Formula(FormulaText(RemainingBlock, row), Empty)];
      }
      i := i + 1;
    }
    assert names[..i] == names;
  }

  /** The loop of one lookup column. */
  method BuildLookupColumn(names: seq<Value>, k: Kind) returns (output: seq<Cell>)
    requires k.Lookup?
    ensures output == ColumnCells(names, k)
  {
    output := [];
    var i := 0;
    while i < |names|
      invariant 0 <= i <= |names|
      invariant output == ColumnCells(names[..i], k)
    {
      var row := i + StartRow;
      ColumnCellsStep(names, i, k);
      if !Truthy(names[i]) {
        output := output + [Blank];
      } else {
        output := output + [Formula(FormulaText(k, row), Empty)];
      }
      i := i + 1;
    }
    assert names[..i] == names;
  }

  /** One `setFormulas` call on column `w.col` of rows 2..lastRow, after the calls of `done`. */
  method WriteColumn(tracker: Sheet, ghost rows0: seq<Row>, ghost done: seq<Write>, w: Write)
    requires tracker.Valid() && |tracker.rows| == |rows0|
    requires Fits(|rows0|, done + [w])
    requires Fits(|rows0|, done) && tracker.rows == Apply(rows0, done)
    modifies tracker`rows
    ensures tracker.Valid()
    ensures tracker.rows == Apply(rows0, done + [w])
  {
    ApplyStep(rows0, done, w);
    tracker.SetColumn(StartRow, w.col, w.cells);
  }

  /** The F, H and I columns: built in one loop, then written one after the other. */
  method WriteTimeColumns(tracker: Sheet, ghost rows0: seq<Row>, names: seq<Value>, ghost ws: seq<Write>)
    requires tracker.Valid() && tracker.rows == rows0 && |names| + 1 == |rows0|
    requires ws == Writes(names, AllKinds)
    modifies tracker`rows
    ensures tracker.Valid() && Fits(|rows0|, ws[..3])
    ensures tracker.rows == Apply(rows0, ws[..3])
  {
    assert Fits(|rows0|, ws);
    var colF, colH, colI := BuildTimeColumns(names);
    PrefixFits(|rows0|, ws, 1);
    PrefixFits(|rows0|, ws, 2);
    PrefixFits(|rows0|, ws, 3);
    assert AllKinds[0] == HoursUsed && AllKinds[1] == BlockUsed && AllKinds[2] == RemainingBlock;
    assert ws[0] == Write(ColOf(HoursUsed), colF);
    assert ws[1] == Write(ColOf(BlockUsed), colH);
    assert ws[2] == Write(ColOf(RemainingBlock), colI);
    assert ws[..0] + [ws[0]] == ws[..1];
    WriteColumn(tracker, rows0, ws[..0], Write(ColOf(HoursUsed), colF));
    assert ws[..1] + [ws[1]] == ws[..2];
    WriteColumn(tracker, rows0, ws[..1], Write(ColOf(BlockUsed), colH));
    assert ws[..2] + [ws[2]] == ws[..3];
    WriteColumn(tracker, rows0, ws[..2], Write(ColOf(RemainingBlock), colI));
  }

  /** The write for the j-th lookup is the call after the first 3 + j. */
  lemma LookupWrite(names: seq<Value>, ws: seq<Write>, j: nat)
    requires ws == Writes(names, AllKinds) && j < |LookupKinds|
    ensures 3 + j < |ws| && ws[3 + j] == WriteOf(names, LookupKinds[j])
  {
    assert AllKinds[3 + j] == LookupKinds[j];
  }

  /** One pass of the forEach over the lookup table. */
  method WriteLookup(tracker: Sheet, ghost rows0: seq<Row>, names: seq<Value>, ghost ws: seq<Write>, j: nat)
    requires tracker.Valid() && |tracker.rows| == |rows0| && |names| + 1 == |rows0|
    requires ws == Writes(names, AllKinds) && j < |LookupKinds|
    requires Fits(|rows0|, ws[..3 + j]) && tracker.rows == Apply(rows0, ws[..3 + j])
    modifies tracker`rows
    ensures tracker.Valid() && |tracker.rows| == |rows0|
    ensures Fits(|rows0|, ws[..3 + j + 1]) && tracker.rows == Apply(rows0, ws[..3 + j + 1])
  {
    var k := LookupKinds[j];
    var output := BuildLookupColumn(names, k);
    LookupWrite(names, ws, j);
    assert ws[..3 + j] + [ws[3 + j]] == ws[..3 + j + 1];
    assert Fits(|rows0|, ws);
    PrefixFits(|rows0|, ws, 3 + j + 1);
    WriteColumn(tracker, rows0, ws[..3 + j], Write(ColOf(k), output));
  }

  /** The L-Q columns, one lookup at a time in the order of the lookup table. */
  method WriteLookupColumns(tracker: Sheet, ghost rows0: seq<Row>, names: seq<Value>, ghost ws: seq<Write>)
    requires tracker.Valid() && |tracker.rows| == |rows0| && |names| + 1 == |rows0|
    requires ws == Writes(names, AllKinds)
    requires Fits(|rows0|, ws[..3]) && tracker.rows == Apply(rows0, ws[..3])
    modifies tracker`rows
    ensures tracker.Valid() && Fits(|rows0|, ws)
    ensures tracker.rows == Apply(rows0, ws)
  {
    assert Fits(|rows0|, ws);
    var j := 0;
    while j < |LookupKinds|
      invariant 0 <= j <= |LookupKinds|
      invariant tracker.Valid() && |tracker.rows| == |rows0|
      invariant Fits(|rows0|, ws[..3 + j])
      invariant tracker.rows == Apply(rows0, ws[..3 + j])
    {
      WriteLookup(tracker, rows0, names, ws, j);
      j := j + 1;
    }
    assert ws[..3 + j] == ws;
  }

  /** updateMasterTrackerFormulas(): getRange(2, 2, lastRow - 1) fails when there is no data
      row; otherwise the nine columns are rewritten as `Updated` says. */
  method UpdateMasterTrackerFormulas(tracker: Sheet) returns (r: Result<()>)
    requires tracker.Valid()
    modifies tracker`rows
    ensures tracker.Valid()
    ensures r.Err? <==> |old(tracker.rows)| < 2
    ensures r.Err? ==> tracker.rows == old(tracker.rows)
    ensures r.Ok? ==> tracker.rows == Updated(old(tracker.rows))
  {
    if tracker.LastRow() - 1 < 1 {
      return Err(EmptyRange);
    }
    ghost var rows0 := tracker.rows;
    var names := ColumnValues(tracker.rows, NameCol);
    ghost var ws := Writes(names, AllKinds);
    WriteTimeColumns(tracker, rows0, names, ws);
    WriteLookupColumns(tracker, rows0, names, ws);
    r := Ok(());
  }
}
