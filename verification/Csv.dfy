/** The CSV writer of the contact export and the CSV reader of the employee import (RFC 4180, section 2). */
module Csv {
  import opened Text

  type Row = seq<string>
  type Table = seq<Row>

  const BOM: string := ['\U{FEFF}']

  // ---- Writer ----

  predicate IsFormulaStart(c: char) {
    c == '=' || c == '+' || c == '-' || c == '@' || c == '\t' || c == '\r'
  }

  predicate NeedsQuotes(c: char) {
    c == '"' || c == ',' || c == '\r' || c == '\n'
  }

  predicate MustQuote(value: string) {
    exists i | 0 <= i < |value| :: NeedsQuotes(value[i])
  }

  /** A cell a spreadsheet would run as a formula gets an apostrophe in front. */
  function Guard(cell: string): string {
    if cell != [] && IsFormulaStart(cell[0]) then "'" + cell else cell
  }

  function DoubleQuotes(s: string): string {
    if s == [] then [] else (if s[0] == '"' then "\"\"" else [s[0]]) + DoubleQuotes(s[1..])
  }

  function EscapeCell(cell: string): string {
    var guarded := Guard(cell);
    if MustQuote(guarded)
    then "\"" + DoubleQuotes(guarded) + "\""
    else guarded
  }

  function PrintRow(row: Row): string {
    if row == [] then []
    else if |row| == 1 then EscapeCell(row[0])
    else EscapeCell(row[0]) + "," + PrintRow(row[1..])
  }

  function PrintRows(table: Table): string {
    if table == [] then []
    else if |table| == 1 then PrintRow(table[0])
    else PrintRow(table[0]) + "\r\n" + PrintRows(table[1..])
  }

  function PrintTable(table: Table): string {
    BOM + PrintRows(table)
  }

  // ---- Reader ----

  /** The reader's four variables. */
  datatype Machine = Machine(rows: Table, row: Row, field: string, inQuotes: bool)

  const START := Machine([], [], "", false)

  /** What one character does to the machine. */
  function Eat(c: char, m: Machine): Machine {
    if m.inQuotes then
      if c == '"' then m.(inQuotes := false) else m.(field := m.field + [c])
    else if c == '"' then m.(inQuotes := true)
    else if c == ',' then m.(row := m.row + [m.field], field := "")
    else if c == '\r' then m
    else if c == '\n' then m.(rows := m.rows + [m.row + [m.field]], row := [], field := "")
    else m.(field := m.field + [c])
  }

  /** Runs the machine over the whole of `text`; inside quotes, two quotes in a row are one. */
  function Scan(text: string, m: Machine): Machine
    decreases |text|
  {
    if text == [] then m
    else if m.inQuotes && |text| > 1 && text[0] == '"' && text[1] == '"'
    then Scan(text[2..], m.(field := m.field + ['"']))
    else Scan(text[1..], Eat(text[0], m))
  }

  /** The last line may lack its line end. */
  function Close(m: Machine): Table {
    if |m.field| > 0 || |m.row| > 0 then m.rows + [m.row + [m.field]] else m.rows
  }

  predicate IsBlankRow(row: Row) {
    forall j | 0 <= j < |row| :: |Trim(row[j])| == 0
  }

  function DropBlankRows(table: Table): Table {
    if table == [] then []
    else (if IsBlankRow(table[0]) then [] else [table[0]]) + DropBlankRows(table[1..])
  }

  function WithoutBom(content: string): string {
    if content != [] && content[0] == '\U{FEFF}' then content[1..] else content
  }

  function ReadTable(content: string): Table {
    DropBlankRows(Close(Scan(WithoutBom(content), START)))
  }

  /** The reader as the import runs it: one index that sometimes advances by two. */
  method ParseCsv(content: string) returns (table: Table)
    ensures table == ReadTable(content)
  {
    var text := WithoutBom(content);
    var rows: Table, row: Row, field: string, inQuotes := [], [], "", false;
    var index := 0;
    while index < |text|
      invariant 0 <= index <= |text|
      invariant Scan(text, START) == Scan(text[index..], Machine(rows, row, field, inQuotes))
    {
      var c := text[index];
      ghost var m := Machine(rows, row, field, inQuotes);
      ScanAt(text, index, m);
      if inQuotes {
        if c == '"' {
          if index + 1 < |text| && text[index + 1] == '"' {
            field := field + ['"'];
            index := index + 1;
          } else {
            inQuotes := false;
          }
        } else {
          field := field + [c];
        }
      } else if c == '"' {
        inQuotes := true;
      } else if c == ',' {
        row := row + [field];
        field := "";
      } else if c == '\r' {
      } else if c == '\n' {
        row := row + [field];
        rows := rows + [row];
        row := [];
        field := "";
      } else {
        field := field + [c];
      }
      index := index + 1;
    }
    if |field| > 0 || |row| > 0 {
      row := row + [field];
      rows := rows + [row];
    }
    table := DropBlankRows(rows);
  }

  /** One turn of the reader's loop. */
  lemma ScanAt(text: string, index: nat, m: Machine)
    requires index < |text|
    ensures var doubled := m.inQuotes && text[index] == '"' && index + 1 < |text| && text[index + 1] == '"';
            Scan(text[index..], m) ==
            if doubled then Scan(text[index + 2..], m.(field := m.field + ['"']))
            else Scan(text[index + 1..], Eat(text[index], m))
  {
  }

  // ---- What a writer may write ----

  /** A cell as a file holds it; RFC 4180 allows quotes around any cell, and demands them around some. */
  datatype Cell = Cell(value: string, quoted: bool)

  datatype Line = Line(cells: seq<Cell>, end: string)

  function CellText(cell: Cell): string {
    if cell.quoted then "\"" + DoubleQuotes(cell.value) + "\"" else cell.value
  }

  function CellsText(cells: seq<Cell>): string {
    if cells == [] then []
    else if |cells| == 1 then CellText(cells[0])
    else CellText(cells[0]) + "," + CellsText(cells[1..])
  }

  function LinesText(lines: seq<Line>): string {
    if lines == [] then [] else CellsText(lines[0].cells) + lines[0].end + LinesText(lines[1..])
  }

  function Values(cells: seq<Cell>): Row {
    seq(|cells|, j requires 0 <= j < |cells| => cells[j].value)
  }

  function TableOf(lines: seq<Line>): Table {
    seq(|lines|, i requires 0 <= i < |lines| => Values(lines[i].cells))
  }

  predicate CellsOk(cells: seq<Cell>) {
    forall j | 0 <= j < |cells| && MustQuote(cells[j].value) :: cells[j].quoted
  }

  /** Each line ends in LF or CR LF, on its own; the last one may lack its end. */
  predicate WellWritten(lines: seq<Line>) {
    forall i | 0 <= i < |lines| ::
      CellsOk(lines[i].cells) && (lines[i].end == "\n" || lines[i].end == "\r\n" || (i == |lines| - 1 && lines[i].end == ""))
  }

  // ---- The reader on such text ----

  lemma {:induction false} ScanQuoted(s: string, rest: string, m: Machine)
    requires m.inQuotes && (rest == [] || rest[0] != '"')
    ensures Scan(DoubleQuotes(s) + "\"" + rest, m) == Scan(rest, m.(field := m.field + s, inQuotes := false))
    decreases |s|
  {
    var text := DoubleQuotes(s) + "\"" + rest;
    if s == [] {
      assert text[1..] == rest;
      assert m.field + s == m.field;
    } else {
      var tail := DoubleQuotes(s[1..]) + "\"" + rest;
      var m' := m.(field := m.field + [s[0]]);
      assert text[if s[0] == '"' then 2 else 1..] == tail;
      assert s[0] != '"' ==> text[0] == s[0] && m' == Eat(s[0], m);
      ScanQuoted(s[1..], rest, m');
      assert m'.field + s[1..] == m.field + s;
    }
  }

  lemma {:induction false} ScanPlain(s: string, rest: string, m: Machine)
    requires !m.inQuotes && !MustQuote(s)
    ensures Scan(s + rest, m) == Scan(rest, m.(field := m.field + s))
    decreases |s|
  {
    if s == [] {
      assert s + rest == rest && m.field + s == m.field;
    } else {
      var m' := m.(field := m.field + [s[0]]);
      assert (s + rest)[1..] == s[1..] + rest;
      assert !NeedsQuotes(s[0]) && m' == Eat(s[0], m);
      assert forall i | 0 <= i < |s[1..]| :: s[1..][i] == s[i + 1];
      ScanPlain(s[1..], rest, m');
      assert m'.field + s[1..] == m.field + s;
    }
  }

  lemma ScanCell(cell: Cell, rest: string, m: Machine)
    requires !m.inQuotes && m.field == "" && (MustQuote(cell.value) ==> cell.quoted) && (rest == [] || rest[0] != '"')
    ensures Scan(CellText(cell) + rest, m) == Scan(rest, m.(field := cell.value))
  {
    assert "" + cell.value == cell.value;
    if cell.quoted {
      var text := "\"" + DoubleQuotes(cell.value) + "\"" + rest;
      assert text[0] == '"' && text[1..] == DoubleQuotes(cell.value) + "\"" + rest;
      ScanQuoted(cell.value, rest, m.(inQuotes := true));
    } else {
      ScanPlain(cell.value, rest, m);
    }
  }

  lemma ScanComma(rest: string, m: Machine)
    requires !m.inQuotes
    ensures Scan("," + rest, m) == Scan(rest, m.(row := m.row + [m.field], field := ""))
  {
  }

  lemma ScanEnd(end: string, rest: string, m: Machine)
    requires !m.inQuotes && (end == "\n" || end == "\r\n")
    ensures Scan(end + rest, m) == Scan(rest, m.(rows := m.rows + [m.row + [m.field]], row := [], field := ""))
  {
    var text := end + rest;
    if end == "\r\n" {
      assert text[1..] == "\n" + rest && text[0] == '\r';
      assert text[1..][1..] == rest && text[1..][0] == '\n';
    } else {
      assert text[1..] == rest && text[0] == '\n';
    }
  }

  /** The machine after a row: all its cells but the last in `row`, the last one in `field`. */
  function AfterCells(cells: seq<Cell>, m: Machine): Machine
    requires cells != []
  {
    m.(row := m.row + Values(cells)[..|cells| - 1], field := cells[|cells| - 1].value)
  }

  lemma AfterFirstCell(cells: seq<Cell>, m: Machine)
    requires |cells| > 1
    ensures AfterCells(cells[1..], m.(row := m.row + [cells[0].value], field := "")) == AfterCells(cells, m)
  {
  }

  lemma {:induction false} ScanCells(cells: seq<Cell>, rest: string, m: Machine)
    requires cells != [] && CellsOk(cells) && !m.inQuotes && m.field == "" && (rest == [] || rest[0] == '\r' || rest[0] == '\n')
    ensures Scan(CellsText(cells) + rest, m) == Scan(rest, AfterCells(cells, m))
    decreases |cells|
  {
    if |cells| == 1 {
      ScanCell(cells[0], rest, m);
      assert m.row + Values(cells)[..0] == m.row;
    } else {
      var tail := CellsText(cells[1..]) + rest;
      Regroup(CellText(cells[0]), ",", CellsText(cells[1..]), rest);
      ScanCell(cells[0], "," + tail, m);
      ScanComma(tail, m.(field := cells[0].value));
      ScanCells(cells[1..], rest, m.(row := m.row + [cells[0].value], field := ""));
      AfterFirstCell(cells, m);
    }
  }

  lemma Regroup(a: string, b: string, c: string, d: string)
    ensures a + b + c + d == a + (b + (c + d))
  {
  }

  /** The row the machine holds when a line ends, blank if the line had no cells. */
  function RowRead(row: Row): Row {
    if row == [] then [""] else row
  }

  /** The machine when a line ends. */
  function AtEnd(cells: seq<Cell>, rows: Table): (m: Machine)
    ensures m.rows == rows && !m.inQuotes && m.row + [m.field] == RowRead(Values(cells))
  {
    var m := Machine(rows, [], "", false);
    if cells == [] then m
    else
      assert AfterCells(cells, m).row + [AfterCells(cells, m).field] == Values(cells);
      AfterCells(cells, m)
  }

  lemma ScanToEnd(cells: seq<Cell>, rest: string, rows: Table)
    requires CellsOk(cells) && (rest == [] || rest[0] == '\r' || rest[0] == '\n')
    ensures Scan(CellsText(cells) + rest, Machine(rows, [], "", false)) == Scan(rest, AtEnd(cells, rows))
  {
    if cells == [] {
      assert CellsText(cells) + rest == rest;
    } else {
      ScanCells(cells, rest, Machine(rows, [], "", false));
    }
  }

  lemma ScanLine(line: Line, rest: string, rows: Table)
    requires CellsOk(line.cells) && (line.end == "\n" || line.end == "\r\n")
    ensures Scan(CellsText(line.cells) + line.end + rest, Machine(rows, [], "", false)) ==
            Scan(rest, Machine(rows + [RowRead(Values(line.cells))], [], "", false))
  {
    assert CellsText(line.cells) + line.end + rest == CellsText(line.cells) + (line.end + rest);
    ScanToEnd(line.cells, line.end + rest, rows);
    ScanEnd(line.end, rest, AtEnd(line.cells, rows));
  }

  lemma LastLine(lines: seq<Line>, rows: Table)
    requires |lines| == 1 && CellsOk(lines[0].cells) && lines[0].end == ""
    ensures DropBlankRows(Close(Scan(LinesText(lines), Machine(rows, [], "", false))))
         == DropBlankRows(rows) + DropBlankRows(TableOf(lines))
  {
    var cells := lines[0].cells;
    assert LinesText(lines) == CellsText(cells) + [];
    ScanToEnd(cells, [], rows);
    CloseRow(cells, rows);
    assert TableOf(lines) == [Values(cells)];
  }

  lemma RestWellWritten(lines: seq<Line>)
    requires WellWritten(lines) && lines != []
    ensures WellWritten(lines[1..])
  {
    forall i | 0 <= i < |lines| - 1
      ensures CellsOk(lines[1..][i].cells)
      ensures lines[1..][i].end == "\n" || lines[1..][i].end == "\r\n" || (i == |lines| - 2 && lines[1..][i].end == "")
    {
      assert lines[1..][i] == lines[i + 1];
    }
  }

  lemma {:induction false} ScanLines(lines: seq<Line>, rows: Table)
    requires WellWritten(lines)
    ensures DropBlankRows(Close(Scan(LinesText(lines), Machine(rows, [], "", false))))
         == DropBlankRows(rows) + DropBlankRows(TableOf(lines))
    decreases |lines|
  {
    if lines == [] {
      assert TableOf(lines) == [];
    } else if lines[0].end == "" {
      LastLine(lines, rows);
    } else {
      ScanLine(lines[0], LinesText(lines[1..]), rows);
      RestWellWritten(lines);
      ScanLines(lines[1..], rows + [RowRead(Values(lines[0].cells))]);
      AppendRow(lines, rows);
    }
  }

  lemma {:induction false} DropBlankAppend(a: Table, b: Table)
    ensures DropBlankRows(a + b) == DropBlankRows(a) + DropBlankRows(b)
  {
    if a == [] {
      assert a + b == b;
    } else {
      assert (a + b)[1..] == a[1..] + b;
      DropBlankAppend(a[1..], b);
    }
  }

  lemma CloseRow(cells: seq<Cell>, rows: Table)
    ensures DropBlankRows(Close(AtEnd(cells, rows))) == DropBlankRows(rows) + DropBlankRows([Values(cells)])
  {
    var row := Values(cells);
    SameWhenBlank(row);
    DropBlankAppend(rows, [RowRead(row)]);
    if |Close(AtEnd(cells, rows))| == |rows| {
      assert IsBlankRow(RowRead(row));
      assert DropBlankRows([row]) == [];
      assert DropBlankRows(rows) + [] == DropBlankRows(rows);
    }
  }

  lemma AppendRow(lines: seq<Line>, rows: Table)
    requires lines != []
    ensures DropBlankRows(rows + [RowRead(Values(lines[0].cells))]) + DropBlankRows(TableOf(lines[1..]))
         == DropBlankRows(rows) + DropBlankRows(TableOf(lines))
  {
    var row, rest := Values(lines[0].cells), TableOf(lines[1..]);
    DropBlankAppend(rows, [RowRead(row)]);
    SameWhenBlank(row);
    DropBlankAppend([row], rest);
    assert TableOf(lines) == [row] + rest;
  }

  /** A row without cells reads back as one empty cell; both are dropped. */
  lemma SameWhenBlank(row: Row)
    ensures DropBlankRows([RowRead(row)]) == DropBlankRows([row])
  {
  }

  /** Text after an optional byte order mark. */
  predicate Follows(mark: string, text: string) {
    mark == BOM || (mark == "" && (text == [] || text[0] != '\U{FEFF}'))
  }

  /**
   * Whatever the cells, wherever quotes stand that need not, and whichever of its lines end in LF, in
   * CR LF or, the last one, in nothing: a file is read as its table without the blank rows.
   */
  lemma WrittenReadBack(mark: string, lines: seq<Line>)
    requires WellWritten(lines) && Follows(mark, LinesText(lines))
    ensures ReadTable(mark + LinesText(lines)) == DropBlankRows(TableOf(lines))
  {
    assert WithoutBom(mark + LinesText(lines)) == LinesText(lines);
    ReadLines(lines);
  }

  lemma ReadLines(lines: seq<Line>)
    requires WellWritten(lines)
    ensures DropBlankRows(Close(Scan(LinesText(lines), START))) == DropBlankRows(TableOf(lines))
  {
    ScanLines(lines, []);
    assert [] + DropBlankRows(TableOf(lines)) == DropBlankRows(TableOf(lines));
  }

  // ---- Round trip ----

  function GuardRow(row: Row): Row {
    seq(|row|, j requires 0 <= j < |row| => Guard(row[j]))
  }

  function GuardTable(table: Table): Table {
    seq(|table|, i requires 0 <= i < |table| => GuardRow(table[i]))
  }

  /** How the export writes a row: quotes only where they must be. */
  function CellsOf(row: Row): seq<Cell> {
    seq(|row|, j requires 0 <= j < |row| => Cell(Guard(row[j]), MustQuote(Guard(row[j]))))
  }

  function LinesOf(table: Table): seq<Line> {
    seq(|table|, i requires 0 <= i < |table| => Line(CellsOf(table[i]), if i < |table| - 1 then "\r\n" else ""))
  }

  lemma {:induction false} PrintRowIs(row: Row)
    ensures PrintRow(row) == CellsText(CellsOf(row))
  {
    if |row| > 1 {
      PrintRowIs(row[1..]);
      assert CellsOf(row)[1..] == CellsOf(row[1..]);
    }
  }

  lemma {:induction false} PrintRowsIs(table: Table)
    ensures PrintRows(table) == LinesText(LinesOf(table))
  {
    if table != [] {
      PrintRowIs(table[0]);
      assert LinesOf(table)[1..] == LinesOf(table[1..]);
      if |table| > 1 {
        PrintRowsIs(table[1..]);
      }
    }
  }

  /** Reading what was printed gives the guarded table without its blank rows, for every table whatsoever. */
  lemma ReadBack(table: Table)
    ensures ReadTable(PrintTable(table)) == DropBlankRows(GuardTable(table))
  {
    PrintRowsIs(table);
    WrittenReadBack(BOM, LinesOf(table));
    forall i | 0 <= i < |table| ensures TableOf(LinesOf(table))[i] == GuardTable(table)[i] {
      assert Values(CellsOf(table[i])) == GuardRow(table[i]);
    }
    assert TableOf(LinesOf(table)) == GuardTable(table);
  }

  lemma {:induction false} DropBlankMember(table: Table, row: Row)
    ensures row in DropBlankRows(table) <==> row in table && !IsBlankRow(row)
  {
    if table != [] {
      DropBlankMember(table[1..], row);
      assert row in table <==> row == table[0] || row in table[1..];
    }
  }

  /** No cell read back from an export can be run as a formula. */
  lemma NoFormulaReadBack(table: Table, row: Row, cell: string)
    requires row in ReadTable(PrintTable(table)) && cell in row
    ensures cell == [] || !IsFormulaStart(cell[0])
  {
    ReadBack(table);
    DropBlankMember(GuardTable(table), row);
  }

  lemma {:induction false} DropBlankFixpoint(table: Table)
    ensures DropBlankRows(table) == table <==> forall i | 0 <= i < |table| :: !IsBlankRow(table[i])
    ensures |DropBlankRows(table)| <= |table|
  {
    if table != [] {
      DropBlankFixpoint(table[1..]);
      assert forall i | 1 <= i < |table| :: table[i] == table[1..][i - 1];
      if !IsBlankRow(table[0]) {
        assert DropBlankRows(table)[1..] == DropBlankRows(table[1..]);
        assert table == [table[0]] + table[1..];
      }
    }
  }

  predicate IsGuarded(cell: string) {
    cell == [] || !IsFormulaStart(cell[0])
  }

  /** The export is lossless exactly for tables without blank rows and without formula-like cells. */
  lemma LosslessExactlyWhenGuarded(table: Table)
    ensures ReadTable(PrintTable(table)) == table <==>
            forall i | 0 <= i < |table| ::
              !IsBlankRow(table[i]) && forall j | 0 <= j < |table[i]| :: IsGuarded(table[i][j])
  {
    ReadBack(table);
    var guarded := GuardTable(table);
    DropBlankFixpoint(guarded);
    if DropBlankRows(guarded) == table {
      assert |DropBlankRows(guarded)| == |guarded|;
      SameLengthKeepsAll(guarded);
      forall i | 0 <= i < |table| ensures !IsBlankRow(table[i]) && forall j | 0 <= j < |table[i]| :: IsGuarded(table[i][j]) {
        assert guarded[i] == GuardRow(table[i]);
        forall j | 0 <= j < |table[i]| ensures IsGuarded(table[i][j]) {
          assert GuardRow(table[i])[j] == Guard(table[i][j]);
        }
      }
    }
    if forall i | 0 <= i < |table| :: !IsBlankRow(table[i]) && forall j | 0 <= j < |table[i]| :: IsGuarded(table[i][j]) {
      forall i | 0 <= i < |table| ensures guarded[i] == table[i] {
        assert GuardRow(table[i]) == table[i];
      }
      assert guarded == table;
    }
  }

  lemma {:induction false} SameLengthKeepsAll(table: Table)
    requires |DropBlankRows(table)| == |table|
    ensures DropBlankRows(table) == table
  {
    if table != [] {
      DropBlankFixpoint(table[1..]);
      SameLengthKeepsAll(table[1..]);
    }
  }
}
