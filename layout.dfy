/**
 * Sheet positions, the row writer and the dictionary merge of `plan_b/exporters/xlsx/utils.py`.
 * A worksheet is a class whose cells, column widths and merged ranges the writers update; cell
 * references are rendered in A1 notation (bijective base-26 column letters, then row + 1).
 */
module Layout {
  import opened Wrappers
  import opened Text
  import opened Dates

  // ---------------------------------------------------------------------------
  // Positions

  /** A zero-based cell position, with the sheet it belongs to when one is named. */
  datatype Pos = Pos(row: int, column: int, sheet: Option<string>)

  /** `RelPos(base, dr, dc, sheet)`: shifted by (dr, dc); the sheet is the one passed, never the base's. */
  function RelPos(base: Pos, dr: int, dc: int, sheet: Option<string>): Pos {
    Pos(base.row + dr, base.column + dc, sheet)
  }

  /** Relative positions compose by adding offsets, and only the outermost sheet name survives. */
  lemma RelPosCompose(base: Pos, r1: int, c1: int, s1: Option<string>, r2: int, c2: int, s2: Option<string>)
    ensures RelPos(RelPos(base, r1, c1, s1), r2, c2, s2) == RelPos(base, r1 + r2, c1 + c2, s2)
    ensures RelPos(base, 0, 0, base.sheet) == base
  {
  }

  datatype Region = Region(offset: Pos, rows: int, columns: int)

  /** `Region.pos_below()`: the first position under the region, in its first column and on no sheet. */
  function PosBelow(r: Region): (p: Pos)
    ensures p == RelPos(r.offset, r.rows, 0, None)
  {
    Pos(r.offset.row + r.rows, r.offset.column, None)
  }

  /** The position below a region depends on its offset and height only. */
  lemma PosBelowIgnoresWidth(r: Region, columns: int)
    ensures PosBelow(Region(r.offset, r.rows, columns)) == PosBelow(r)
    ensures PosBelow(r).row == r.offset.row + r.rows && PosBelow(r).column == r.offset.column
  {
  }

  // ---------------------------------------------------------------------------
  // A1 notation

  predicate IsLetter(c: char) { 'A' <= c <= 'Z' }

  predicate AllLetters(s: string) {
    forall i :: 0 <= i < |s| ==> IsLetter(s[i])
  }

  /** The column letters of a zero-based column: A..Z, AA..AZ, BA, ... */
  function ColumnName(c: nat): (s: string)
    ensures |s| >= 1 && AllLetters(s)
  {
    if c < 26 then [('A' as int + c) as char]
    else ColumnName(c / 26 - 1) + [('A' as int + c % 26) as char]
  }

  /** The zero-based column a run of letters names. */
  function ColumnNumber(s: string): (n: nat)
    requires |s| >= 1 && AllLetters(s)
  {
    if |s| == 1 then s[0] as int - 'A' as int
    else (ColumnNumber(s[..|s| - 1]) + 1) * 26 + (s[|s| - 1] as int - 'A' as int)
  }

  lemma {:induction false} ColumnRoundTrip(c: nat)
    ensures ColumnNumber(ColumnName(c)) == c
  {
    if c >= 26 {
      var s := ColumnName(c);
      assert s[..|s| - 1] == ColumnName(c / 26 - 1);
      ColumnRoundTrip(c / 26 - 1);
    }
  }

  /** `xl_rowcol_to_cell(row, column)`. */
  function A1(row: nat, column: nat): string {
    ColumnName(column) + NatToString(row + 1)
  }

  /** The length of the leading run of letters. */
  function LetterRun(s: string): (k: nat)
    ensures k <= |s|
  {
    if s == [] || !IsLetter(s[0]) then 0 else 1 + LetterRun(s[1..])
  }

  lemma {:induction false} LetterRunOfLettersThenDigits(letters: string, digits: string)
    requires AllLetters(letters) && IsDigits(digits)
    ensures LetterRun(letters + digits) == |letters|
  {
    if letters != [] {
      assert (letters + digits)[1..] == letters[1..] + digits;
      LetterRunOfLettersThenDigits(letters[1..], digits);
    } else {
      assert digits[0] == (letters + digits)[0];
      assert IsDigit(digits[0]);
    }
  }

  /** Reads back a plain A1 reference as (row, column). */
  function ParseA1(s: string): Option<(nat, nat)> {
    var k := LetterRun(s);
    if k == 0 || !IsDigits(s[k..]) then None
    else
      assert AllLetters(s[..k]) by {
        LetterRunPrefix(s);
      }
      var n := DigitsValue(s[k..]);
      if n == 0 then None else Some((n - 1, ColumnNumber(s[..k])))
  }

  lemma {:induction false} LetterRunPrefix(s: string)
    ensures AllLetters(s[..LetterRun(s)])
  {
    if s != [] && IsLetter(s[0]) {
      LetterRunPrefix(s[1..]);
      assert s[..LetterRun(s)] == [s[0]] + s[1..][..LetterRun(s[1..])];
    }
  }

  /** Every A1 reference reads back as the row and column it was made from. */
  lemma A1RoundTrip(row: nat, column: nat)
    ensures ParseA1(A1(row, column)) == Some((row, column))
  {
    var letters := ColumnName(column);
    var digits := NatToString(row + 1);
    var s := A1(row, column);
    LetterRunOfLettersThenDigits(letters, digits);
    assert s[|letters|..] == digits;
    assert s[..|letters|] == letters;
    DigitsRoundTrip(row + 1);
    ColumnRoundTrip(column);
  }

  /** Distinct cells have distinct A1 references. */
  lemma A1Injective(r1: nat, c1: nat, r2: nat, c2: nat)
    requires A1(r1, c1) == A1(r2, c2)
    ensures r1 == r2 && c1 == c2
  {
    A1RoundTrip(r1, c1);
    A1RoundTrip(r2, c2);
  }

  /** A position on the sheet: neither its row nor its column is negative. */
  predicate Placed(p: Pos) {
    p.row >= 0 && p.column >= 0
  }

  predicate OnNamedSheet(p: Pos) {
    p.sheet.Some? && p.sheet.value != []
  }

  /** `Pos.to_cell()`: the A1 reference, prefixed by `'sheet'!` when a sheet name is set. */
  function ToCell(p: Pos): string
    requires p.row >= 0 && p.column >= 0
  {
    if OnNamedSheet(p) then "'" + p.sheet.value + "'!" + A1(p.row, p.column)
    else A1(p.row, p.column)
  }

  /** The first index of `c` in `s`. */
  function IndexOf(s: string, c: char): (r: Option<nat>)
    ensures r.Some? ==> r.value < |s| && s[r.value] == c
  {
    if s == [] then None
    else if s[0] == c then Some(0)
    else
      var rest := IndexOf(s[1..], c);
      if rest.None? then None else Some(rest.value + 1)
  }

  lemma {:induction false} IndexOfAfter(s: string, c: char, rest: string)
    requires c !in s
    ensures IndexOf(s + [c] + rest, c) == Some(|s|)
  {
    if s != [] {
      assert (s + [c] + rest)[1..] == s[1..] + [c] + rest;
      IndexOfAfter(s[1..], c, rest);
    }
  }

  /** Reads back a reference as (sheet, row, column); an unquoted reference has no sheet. */
  function ParseCell(s: string): Option<(Option<string>, nat, nat)> {
    if s != [] && s[0] == '\'' then
      var close := IndexOf(s[1..], '\'');
      if close.None? || close.value + 2 >= |s| || s[close.value + 2] != '!' then None
      else
        match ParseA1(s[close.value + 3..])
        case None => None
        case Some(rc) => Some((Some(s[1..close.value + 1]), rc.0, rc.1))
    else
      match ParseA1(s)
      case None => None
      case Some(rc) => Some((None, rc.0, rc.1))
  }

  /**
   * Every reference reads back as the position it was made from, for sheet names without a
   * quote; an empty sheet name counts as none.
   */
  lemma ToCellRoundTrip(p: Pos)
    requires p.row >= 0 && p.column >= 0
    requires p.sheet.Some? ==> '\'' !in p.sheet.value
    ensures ParseCell(ToCell(p)) == Some((if OnNamedSheet(p) then p.sheet else None, p.row, p.column))
  {
    var a1 := A1(p.row, p.column);
    A1RoundTrip(p.row, p.column);
    if OnNamedSheet(p) {
      var name := p.sheet.value;
      var s := ToCell(p);
      assert s[1..] == name + ['\''] + ("!" + a1);
      IndexOfAfter(name, '\'', "!" + a1);
      assert s[|name| + 2] == '!';
      assert s[|name| + 3..] == a1;
      assert s[1..|name| + 1] == name;
    } else {
      var letters := ColumnName(p.column);
      assert a1[0] == letters[0];
    }
  }

  // ---------------------------------------------------------------------------
  // Cells and the worksheet

  /** Cell formats are opaque named styles, except the confidence-level styles built per value. */
  datatype Colour = HighConfidence | MediumConfidence | LowConfidence
  datatype Border = LeftBorder | RightBorder
  datatype Format = Style(name: string) | ConfidenceStyle(colour: Option<Colour>, border: Border)

  /** A value handed to a cell writer. */
  datatype Value = Blank | Text(text: string) | Number(x: real) | Whole(n: int) | Day(date: Date)

  /** What a cell holds once written. */
  datatype Content = Empty | Str(text: string) | Num(x: real) | DateCell(date: Date) | Formula(formula: string) | Url(url: string, caption: string)

  datatype Cell = Cell(content: Content, format: Option<Format>)

  datatype ColumnWidth = ColumnWidth(first: int, last: int, width: real)

  datatype Merge = Merge(first: (int, int), last: (int, int), caption: string, format: Option<Format>)

  /** The shared named styles of `formats.py` that more than one sheet uses. */
  const NumericFormat: Format := Style("numeric")
  const TotalFormat: Format := Style("bold_total")
  const GreenHeaderFormat: Format := Style("green_header")

  /** How `worksheet.write` stores a value: by kind, with a string starting with `=` as a formula. */
  function Stored(v: Value): Content {
    match v
    case Blank => Empty
    case Text(s) => if s == [] then Empty else if StartsWith(s, "=") then Formula(s) else Str(s)
    case Number(x) => Num(x)
    case Whole(n) => Num(n as real)
    case Day(d) => DateCell(d)
  }

  /**
   * What a reader of the saved workbook gets back from a cell, as a value to write again: text
   * for strings and formulas (a formula reads as its text), the number, the date, the caption of
   * a link, and nothing for an empty cell.
   */
  function ReadBack(c: Content): Value {
    match c
    case Empty => Blank
    case Str(s) => Text(s)
    case Num(x) => Number(x)
    case DateCell(d) => Day(d)
    case Formula(f) => Text(f)
    case Url(_, caption) => Text(caption)
  }

  /** Writing back what was read from a written cell stores the same content again. */
  lemma ReadBackStored(v: Value)
    ensures Stored(ReadBack(Stored(v))) == Stored(v)
  {
  }

  class Sheet {
    const name: string
    var cells: map<(int, int), Cell>
    var widths: seq<ColumnWidth>
    var merges: seq<Merge>

    constructor (name: string)
      ensures this.name == name && cells == map[] && widths == [] && merges == []
    {
      this.name := name;
      cells := map[];
      widths := [];
      merges := [];
    }

    method Write(row: int, column: int, v: Value, format: Option<Format>)
      modifies this
      ensures cells == old(cells)[(row, column) := Cell(Stored(v), format)]
      ensures widths == old(widths) && merges == old(merges)
    {
      cells := cells[(row, column) := Cell(Stored(v), format)];
    }

    method WriteFormula(row: int, column: int, formula: string, format: Option<Format>)
      modifies this
      ensures cells == old(cells)[(row, column) := Cell(Formula(formula), format)]
      ensures widths == old(widths) && merges == old(merges)
    {
      cells := cells[(row, column) := Cell(Formula(formula), format)];
    }

    /** `write_url(row, column, url=..., string=...)`: a link with the default hyperlink style. */
    method WriteUrl(row: int, column: int, url: string, caption: string)
      modifies this
      ensures cells == old(cells)[(row, column) := Cell(Url(url, caption), None)]
      ensures widths == old(widths) && merges == old(merges)
    {
      cells := cells[(row, column) := Cell(Url(url, caption), None)];
    }

    method SetColumn(first: int, last: int, width: real)
      modifies this
      ensures widths == old(widths) + [ColumnWidth(first, last, width)]
      ensures cells == old(cells) && merges == old(merges)
    {
      widths := widths + [ColumnWidth(first, last, width)];
    }

    method MergeRange(first: (int, int), last: (int, int), caption: string, format: Option<Format>)
      modifies this
      ensures merges == old(merges) + [Merge(first, last, caption, format)]
      ensures cells == old(cells) && widths == old(widths)
    {
      merges := merges + [Merge(first, last, caption, format)];
    }
  }

  /** `merge_cells`: records the range and, when a width is given, sets it on the start column. */
  method MergeCells(sheet: Sheet, start: Pos, end: Pos, caption: string, format: Option<Format>, width: Option<real>)
    returns (row: int, column: int)
    modifies sheet
    ensures row == start.row && column == start.column
    ensures sheet.merges == old(sheet.merges) + [Merge((start.row, start.column), (end.row, end.column), caption, format)]
    ensures sheet.widths == old(sheet.widths) + (if width.Some? then [ColumnWidth(start.column, start.column, width.value)] else [])
    ensures sheet.cells == old(sheet.cells)
  {
    sheet.MergeRange((start.row, start.column), (end.row, end.column), caption, format);
    if width.Some? {
      sheet.SetColumn(start.column, start.column, width.value);
    }
    return start.row, start.column;
  }

  // ---------------------------------------------------------------------------
  // write_row

  /**
   * An element of a row: a value in the row's format, a value with its own format, or a link
   * written with `write_url`.
   */
  datatype RowItem = Plain(value: Value) | Styled(value: Value, format: Option<Format>) | Link(url: string, caption: string)

  /** The cell map after writing `row_cells` rightwards from (row, column). */
  function Written(m: map<(int, int), Cell>, row: int, column: int, rowCells: seq<Cell>): map<(int, int), Cell> {
    if rowCells == [] then m
    else Written(m, row, column, rowCells[..|rowCells| - 1])[(row, column + |rowCells| - 1) := rowCells[|rowCells| - 1]]
  }

  predicate InSpan(key: (int, int), row: int, column: int, n: int) {
    key.0 == row && column <= key.1 < column + n
  }

  /** Writing a row sets exactly the cells of its span and keeps every other cell. */
  lemma {:induction false} WrittenAt(m: map<(int, int), Cell>, row: int, column: int, rowCells: seq<Cell>, key: (int, int))
    ensures key in Written(m, row, column, rowCells) <==> key in m || InSpan(key, row, column, |rowCells|)
    ensures InSpan(key, row, column, |rowCells|) ==> Written(m, row, column, rowCells)[key] == rowCells[key.1 - column]
    ensures !InSpan(key, row, column, |rowCells|) && key in m ==> Written(m, row, column, rowCells)[key] == m[key]
  {
    if rowCells != [] {
      WrittenAt(m, row, column, rowCells[..|rowCells| - 1], key);
    }
  }

  /** Writing one more cell of a row: the first `i + 1` cells are the first `i` and then cell `i`. */
  lemma WrittenExtend(m: map<(int, int), Cell>, row: int, column: int, rowCells: seq<Cell>, i: int)
    requires 0 <= i < |rowCells|
    ensures Written(m, row, column, rowCells[..i + 1]) == Written(m, row, column, rowCells[..i])[(row, column + i) := rowCells[i]]
  {
    assert rowCells[..i + 1][..i] == rowCells[..i];
  }

  function ApplyCellFunc(v: Value, column: int, cellFunc: Option<(int, Value) -> Value>): Value {
    if cellFunc.Some? then cellFunc.value(column, v) else v
  }

  /** The cell one row element becomes at `column`. */
  function RowCell(item: RowItem, column: int, cellFunc: Option<(int, Value) -> Value>, format: Option<Format>): Cell {
    match item
    case Link(url, caption) => Cell(Url(url, caption), None)
    case Plain(v) => Cell(Stored(ApplyCellFunc(v, column, cellFunc)), format)
    case Styled(v, f) => Cell(Stored(ApplyCellFunc(v, column, cellFunc)), f)
  }

  function RowCells(column: int, items: seq<RowItem>, cellFunc: Option<(int, Value) -> Value>, format: Option<Format>): (cs: seq<Cell>)
    ensures |cs| == |items|
    ensures forall i :: 0 <= i < |items| ==> cs[i] == RowCell(items[i], column + i, cellFunc, format)
  {
    seq(|items|, i requires 0 <= i < |items| => RowCell(items[i], column + i, cellFunc, format))
  }

  /** The indices 0..count-1, the elements `range(0, col_count)` supplies. */
  function Indices(count: nat): (r: seq<RowItem>)
    ensures |r| == count && forall i :: 0 <= i < count ==> r[i] == Plain(Whole(i))
  {
    seq(count, i => Plain(Whole(i)))
  }

  /** The elements written: the given ones when non-empty, otherwise the column count's indices. */
  function RowSource(items: Option<seq<RowItem>>, count: Option<nat>): Option<seq<RowItem>> {
    if items.Some? && items.value != [] then items
    else if count.Some? then Some(Indices(count.value))
    else None
  }

  /** The exporter's promise for one row: the i-th element lands at (row, column + i) and nothing else is touched. */
  lemma RowWriteEffect(m: map<(int, int), Cell>, offset: Pos, items: seq<RowItem>, cellFunc: Option<(int, Value) -> Value>,
                       format: Option<Format>, key: (int, int))
    ensures var w := Written(m, offset.row, offset.column, RowCells(offset.column, items, cellFunc, format));
      && (key in w <==> key in m || InSpan(key, offset.row, offset.column, |items|))
      && (InSpan(key, offset.row, offset.column, |items|) ==> w[key] == RowCell(items[key.1 - offset.column], key.1, cellFunc, format))
      && (!InSpan(key, offset.row, offset.column, |items|) && key in m ==> w[key] == m[key])
  {
    WrittenAt(m, offset.row, offset.column, RowCells(offset.column, items, cellFunc, format), key);
  }

  /** With no elements, the row holds `cell_func(column, index)` for each of the `count` columns. */
  lemma CountedRowCells(column: int, count: nat, cellFunc: (int, Value) -> Value, format: Option<Format>, i: int)
    requires 0 <= i < count
    ensures RowCells(column, Indices(count), Some(cellFunc), format)[i] == Cell(Stored(cellFunc(column + i, Whole(i))), format)
  {
  }

  /** `write_row`: returns the number of cells written; fails only when there is neither an element nor a count. */
  method WriteRow(sheet: Sheet, offset: Pos, items: Option<seq<RowItem>>, cellFunc: Option<(int, Value) -> Value>,
                  count: Option<nat>, format: Option<Format>, width: Option<real>)
    returns (r: Result<nat>)
    modifies sheet
    ensures RowSource(items, count).None? ==> r == Err(NoRowSource) && unchanged(sheet)
    ensures RowSource(items, count).Some? ==>
      var src := RowSource(items, count).value;
      && r == Ok(|src|)
      && sheet.cells == Written(old(sheet.cells), offset.row, offset.column, RowCells(offset.column, src, cellFunc, format))
      && sheet.widths == old(sheet.widths) + (if width.Some? then [ColumnWidth(offset.column, offset.column + |src| - 1, width.value)] else [])
      && sheet.merges == old(sheet.merges)
  {
    var source := RowSource(items, count);
    if source.None? {
      return Err(NoRowSource);
    }
    var elements := source.value;
    ghost var wanted := RowCells(offset.column, elements, cellFunc, format);
    var column := offset.column;
    for i := 0 to |elements|
      invariant column == offset.column + i
      invariant sheet.cells == Written(old(sheet.cells), offset.row, offset.column, wanted[..i])
      invariant sheet.widths == old(sheet.widths) && sheet.merges == old(sheet.merges)
    {
      assert wanted[..i + 1][..i] == wanted[..i];
      WriteElement(sheet, offset.row, column, elements[i], cellFunc, format);
      column := column + 1;
    }
    assert wanted[..|elements|] == wanted;
    var written := column - offset.column;
    if width.Some? {
      sheet.SetColumn(offset.column, offset.column + written - 1, width.value);
    }
    return Ok(written);
  }

  /** One `write_row` call of a builder: where it starts, what it writes and the row's format. */
  datatype RowWrite = RowWrite(at: Pos, items: seq<RowItem>, format: Option<Format>)

  /** The cell map after the row writes `rows`, in order. */
  function WrittenRows(m: map<(int, int), Cell>, rows: seq<RowWrite>): map<(int, int), Cell> {
    if rows == [] then m
    else
      var w := rows[|rows| - 1];
      Written(WrittenRows(m, rows[..|rows| - 1]), w.at.row, w.at.column, RowCells(w.at.column, w.items, None, w.format))
  }

  /** The cell at `key` holds `c`. */
  predicate Shows(cells: map<(int, int), Cell>, key: (int, int), c: Cell) {
    key in cells && cells[key] == c
  }

  predicate InRow(key: (int, int), w: RowWrite) {
    InSpan(key, w.at.row, w.at.column, |w.items|)
  }

  /** A cell keeps the last value written to it: the cell of row write `i` when no later write covers it. */
  lemma {:induction false} WrittenRowsAt(m: map<(int, int), Cell>, rows: seq<RowWrite>, i: nat, key: (int, int))
    requires i < |rows| && InRow(key, rows[i])
    requires forall j :: i < j < |rows| ==> !InRow(key, rows[j])
    ensures key in WrittenRows(m, rows)
    ensures WrittenRows(m, rows)[key] == RowCell(rows[i].items[key.1 - rows[i].at.column], key.1, None, rows[i].format)
  {
    var w := rows[|rows| - 1];
    var before := rows[..|rows| - 1];
    WrittenAt(WrittenRows(m, before), w.at.row, w.at.column, RowCells(w.at.column, w.items, None, w.format), key);
    if i < |rows| - 1 {
      WrittenRowsAt(m, before, i, key);
    }
  }

  /** A cell no row write covers keeps its old value, and no cell is added outside the rows. */
  lemma {:induction false} WrittenRowsOutside(m: map<(int, int), Cell>, rows: seq<RowWrite>, key: (int, int))
    requires forall j :: 0 <= j < |rows| ==> !InRow(key, rows[j])
    ensures key in WrittenRows(m, rows) <==> key in m
    ensures key in m ==> WrittenRows(m, rows)[key] == m[key]
  {
    if rows != [] {
      var w := rows[|rows| - 1];
      var before := rows[..|rows| - 1];
      WrittenAt(WrittenRows(m, before), w.at.row, w.at.column, RowCells(w.at.column, w.items, None, w.format), key);
      WrittenRowsOutside(m, before, key);
    }
  }

  /**
   * A cell that write `i` of `a` covers and that no later write of `a`, and no write of `b`, even
   * touches the row of, ends with the value write `i` gave it.
   */
  lemma WrittenRowsLast(m: map<(int, int), Cell>, a: seq<RowWrite>, b: seq<RowWrite>, i: nat, key: (int, int))
    requires i < |a| && InRow(key, a[i])
    requires forall j :: i < j < |a| ==> a[j].at.row != key.0
    requires forall j :: 0 <= j < |b| ==> b[j].at.row != key.0
    ensures key in WrittenRows(m, a + b)
    ensures WrittenRows(m, a + b)[key] == RowCell(a[i].items[key.1 - a[i].at.column], key.1, None, a[i].format)
  {
    WrittenRowsAppend(m, a, b);
    assert forall j :: i < j < |a| ==> !InRow(key, a[j]);
    assert forall j :: 0 <= j < |b| ==> !InRow(key, b[j]);
    WrittenRowsAt(m, a, i, key);
    WrittenRowsOutside(WrittenRows(m, a), b, key);
  }

  lemma WrittenRowsAppend(m: map<(int, int), Cell>, rows: seq<RowWrite>, more: seq<RowWrite>)
    ensures WrittenRows(m, rows + more) == WrittenRows(WrittenRows(m, rows), more)
    decreases |more|
  {
    if more != [] {
      assert (rows + more)[..|rows + more| - 1] == rows + more[..|more| - 1];
      WrittenRowsAppend(m, rows, more[..|more| - 1]);
    } else {
      assert rows + more == rows;
    }
  }

  /** Writing the rows one at a time: the first `k + 1` rows are the first `k` and then row `k`. */
  lemma WrittenRowsStep(m: map<(int, int), Cell>, rows: seq<RowWrite>, k: nat)
    requires k < |rows|
    ensures WrittenRows(WrittenRows(m, rows[..k]), [rows[k]]) == WrittenRows(m, rows[..k + 1])
  {
    assert rows[..k + 1] == rows[..k] + [rows[k]];
    WrittenRowsAppend(m, rows[..k], [rows[k]]);
  }

  /** Three batches of row writes, one after another. */
  lemma WrittenRowsThree(m: map<(int, int), Cell>, a: seq<RowWrite>, b: seq<RowWrite>, c: seq<RowWrite>)
    ensures WrittenRows(WrittenRows(WrittenRows(m, a), b), c) == WrittenRows(m, a + b + c)
  {
    WrittenRowsAppend(m, a, b);
    WrittenRowsAppend(m, a + b, c);
  }

  /** Three batches of row writes, the last two taken together. */
  lemma WrittenRowsNested(m: map<(int, int), Cell>, a: seq<RowWrite>, b: seq<RowWrite>, c: seq<RowWrite>)
    ensures WrittenRows(WrittenRows(WrittenRows(m, a), b), c) == WrittenRows(m, a + (b + c))
  {
    WrittenRowsAppend(WrittenRows(m, a), b, c);
    WrittenRowsAppend(m, a, b + c);
  }

  /**
   * Row write `i` of `rows` covers `key` with `cell`, and no later write of `rows` touches the row
   * of `key`.
   */
  predicate Decides(rows: seq<RowWrite>, i: int, key: (int, int), cell: Cell) {
    0 <= i < |rows| && InRow(key, rows[i])
    && RowCell(rows[i].items[key.1 - rows[i].at.column], key.1, None, rows[i].format) == cell
    && forall j :: i < j < |rows| ==> rows[j].at.row != key.0
  }

  /** Write `i` of `rows` is `w`, which covers `key` with `cell`, and the later writes avoid its row. */
  lemma DecidesAt(rows: seq<RowWrite>, i: int, key: (int, int), cell: Cell, w: RowWrite)
    requires 0 <= i < |rows| && rows[i] == w && InRow(key, w)
    requires RowCell(w.items[key.1 - w.at.column], key.1, None, w.format) == cell
    requires forall j :: i < j < |rows| ==> rows[j].at.row != key.0
    ensures Decides(rows, i, key, cell)
  {
  }

  /** No write of `rows` touches row `row`. */
  predicate Avoids(rows: seq<RowWrite>, row: int) {
    forall j :: 0 <= j < |rows| ==> rows[j].at.row != row
  }

  /** The write that decides a cell gives it its final value. */
  lemma ShowsAt(m: map<(int, int), Cell>, rows: seq<RowWrite>, i: int, key: (int, int), cell: Cell)
    requires Decides(rows, i, key, cell)
    ensures Shows(WrittenRows(m, rows), key, cell)
  {
    assert forall j :: i < j < |rows| ==> !InRow(key, rows[j]);
    WrittenRowsAt(m, rows, i, key);
  }

  /** Of three batches, a write of the first decides a cell the other two batches avoid the row of. */
  lemma ShowsFirst(m: map<(int, int), Cell>, a: seq<RowWrite>, b: seq<RowWrite>, c: seq<RowWrite>, i: int, key: (int, int), cell: Cell)
    requires Decides(a, i, key, cell) && Avoids(b, key.0) && Avoids(c, key.0)
    ensures Shows(WrittenRows(m, a + (b + c)), key, cell)
  {
    assert Avoids(b + c, key.0) by {
      forall j | 0 <= j < |b + c|
        ensures (b + c)[j].at.row != key.0
      {
        if j >= |b| {
          assert (b + c)[j] == c[j - |b|];
        }
      }
    }
    WrittenRowsLast(m, a, b + c, i, key);
  }

  /** Of three batches, a write of the second decides a cell the third batch avoids the row of. */
  lemma ShowsMiddle(m: map<(int, int), Cell>, a: seq<RowWrite>, b: seq<RowWrite>, c: seq<RowWrite>, i: int, key: (int, int), cell: Cell)
    requires Decides(b, i, key, cell) && Avoids(c, key.0)
    ensures Shows(WrittenRows(m, a + (b + c)), key, cell)
  {
    WrittenRowsLast(WrittenRows(m, a), b, c, i, key);
    WrittenRowsAppend(m, a, b + c);
  }

  /** Of three batches, a write of the third decides a cell. */
  lemma ShowsEnd(m: map<(int, int), Cell>, a: seq<RowWrite>, b: seq<RowWrite>, c: seq<RowWrite>, i: int, key: (int, int), cell: Cell)
    requires Decides(c, i, key, cell)
    ensures Shows(WrittenRows(m, a + (b + c)), key, cell)
  {
    WrittenRowsLast(WrittenRows(WrittenRows(m, a), b), c, [], i, key);
    assert c + [] == c;
    WrittenRowsNested(m, a, b, c);
  }

  /** Of two batches, a write of the second decides a cell. */
  lemma ShowsSecond(m: map<(int, int), Cell>, a: seq<RowWrite>, b: seq<RowWrite>, i: int, key: (int, int), cell: Cell)
    requires Decides(b, i, key, cell)
    ensures Shows(WrittenRows(m, a + b), key, cell)
  {
    ShowsAt(WrittenRows(m, a), b, i, key, cell);
    WrittenRowsAppend(m, a, b);
  }

  /** The width `col_width` sets over the span a row write covers. */
  function RowWidth(w: RowWrite, width: real): ColumnWidth {
    ColumnWidth(w.at.column, w.at.column + |w.items| - 1, width)
  }

  /** One `write_row` call with a list of elements and no cell function. */
  method PutRow(sheet: Sheet, w: RowWrite, width: Option<real>)
    modifies sheet
    ensures sheet.cells == WrittenRows(old(sheet.cells), [w])
    ensures sheet.widths == old(sheet.widths) + (if width.Some? then [RowWidth(w, width.value)] else [])
    ensures sheet.merges == old(sheet.merges)
  {
    var written := WriteRow(sheet, w.at, Some(w.items), None, Some(0), w.format, width);
    assert [w][..0] == [];
  }

  /** `sheet.write(row, column, value, format)`, seen as a row write of a single cell. */
  method PutCell(sheet: Sheet, row: int, column: int, v: Value, format: Option<Format>)
    modifies sheet
    ensures sheet.cells == WrittenRows(old(sheet.cells), [RowWrite(Pos(row, column, None), [Plain(v)], format)])
    ensures sheet.widths == old(sheet.widths) && sheet.merges == old(sheet.merges)
  {
    sheet.Write(row, column, v, format);
    ghost var w := RowWrite(Pos(row, column, None), [Plain(v)], format);
    ghost var cs := RowCells(column, [Plain(v)], None, format);
    assert [w][..0] == [] && cs[..0] == [];
    assert WrittenRows(old(sheet.cells), [w]) == Written(old(sheet.cells), row, column, cs);
    assert Written(old(sheet.cells), row, column, cs) == old(sheet.cells)[(row, column) := cs[0]];
  }

  /** A single row write is the write of its cells. */
  lemma WrittenRowsSingle(m: map<(int, int), Cell>, w: RowWrite)
    ensures WrittenRows(m, [w]) == Written(m, w.at.row, w.at.column, RowCells(w.at.column, w.items, None, w.format))
  {
    assert [w][..0] == [];
  }

  /** A `sheet.write` of a single value, then a `write_row`: the two row writes `first` and `row`. */
  method PutLabelled(sheet: Sheet, first: RowWrite, row: RowWrite)
    requires first.at.sheet.None? && |first.items| == 1 && first.items[0].Plain?
    modifies sheet
    ensures sheet.cells == WrittenRows(old(sheet.cells), [first, row])
    ensures sheet.widths == old(sheet.widths) && sheet.merges == old(sheet.merges)
  {
    assert first == RowWrite(Pos(first.at.row, first.at.column, None), [Plain(first.items[0].value)], first.format);
    PutCell(sheet, first.at.row, first.at.column, first.items[0].value, first.format);
    PutRow(sheet, row, None);
    WrittenRowsAppend(old(sheet.cells), [first], [row]);
    assert [first] + [row] == [first, row];
  }

  /** The body of the `write_row` loop for one element. */
  method WriteElement(sheet: Sheet, row: int, column: int, item: RowItem, cellFunc: Option<(int, Value) -> Value>, format: Option<Format>)
    modifies sheet
    ensures sheet.cells == old(sheet.cells)[(row, column) := RowCell(item, column, cellFunc, format)]
    ensures sheet.widths == old(sheet.widths) && sheet.merges == old(sheet.merges)
  {
    if item.Link? {
      sheet.WriteUrl(row, column, item.url, item.caption);
      return;
    }
    var current := if item.Styled? then item.format else format;
    var value := item.value;
    if cellFunc.Some? {
      value := cellFunc.value(column, value);
    }
    if value.Text? && StartsWith(value.text, "=") {
      sheet.WriteFormula(row, column, value.text, current);
    } else {
      sheet.Write(row, column, value, current);
    }
  }

  // ---------------------------------------------------------------------------
  // merge_dicts

  /** A dictionary value: a single item, or a list of them. */
  datatype Entry<T> = One(item: T) | Many(items: seq<T>)

  function Listed<T>(e: Entry<T>): seq<T> {
    match e
    case One(x) => [x]
    case Many(xs) => xs
  }

  /** The result of `merge_dicts(d1, d2)`: every key of either, with d1's items before d2's. */
  function Merged<K(!new), T>(d1: map<K, Entry<T>>, d2: map<K, Entry<T>>): (r: map<K, seq<T>>)
    ensures r.Keys == d1.Keys + d2.Keys
  {
    map k | k in d1.Keys + d2.Keys :: if k in d1 then Listed(d1[k]) + (if k in d2 then Listed(d2[k]) else []) else Listed(d2[k])
  }

  /** A merged dictionary fed back as the first argument. */
  function AsEntries<K(!new), T>(m: map<K, seq<T>>): (r: map<K, Entry<T>>)
    ensures r.Keys == m.Keys
  {
    map k | k in m :: Many(m[k])
  }

  /** The items `d` holds for `k`, none when the key is absent. */
  function Part<K, T>(d: map<K, Entry<T>>, k: K): seq<T> {
    if k in d then Listed(d[k]) else []
  }

  /** Each merged list is d1's items (a single item wrapped) followed by d2's. */
  lemma MergedItems<K(!new), T>(d1: map<K, Entry<T>>, d2: map<K, Entry<T>>, k: K)
    requires k in d1.Keys + d2.Keys
    ensures Merged(d1, d2)[k] == Part(d1, k) + Part(d2, k)
  {
    if k !in d1 {
      assert [] + Listed(d2[k]) == Listed(d2[k]);
    }
  }

  lemma MergedLeftAt<K(!new), T>(a: map<K, Entry<T>>, b: map<K, Entry<T>>, c: map<K, Entry<T>>, k: K)
    requires k in a.Keys + b.Keys + c.Keys
    ensures Merged(AsEntries(Merged(a, b)), c)[k] == Part(a, k) + Part(b, k) + Part(c, k)
  {
    var ab := AsEntries(Merged(a, b));
    if k in a.Keys + b.Keys {
      MergedItems(a, b, k);
      assert Part(ab, k) == Part(a, k) + Part(b, k);
    } else {
      assert Part(ab, k) == [] && Part(a, k) == [] && Part(b, k) == [];
    }
    MergedItems(ab, c, k);
  }

  lemma MergedRightAt<K(!new), T>(a: map<K, Entry<T>>, b: map<K, Entry<T>>, c: map<K, Entry<T>>, k: K)
    requires k in a.Keys + b.Keys + c.Keys
    ensures Merged(a, AsEntries(Merged(b, c)))[k] == Part(a, k) + (Part(b, k) + Part(c, k))
  {
    var bc := AsEntries(Merged(b, c));
    if k in b.Keys + c.Keys {
      MergedItems(b, c, k);
      assert Part(bc, k) == Part(b, k) + Part(c, k);
    } else {
      assert Part(bc, k) == [] && Part(b, k) == [] && Part(c, k) == [];
    }
    MergedItems(a, bc, k);
  }

  /**
   * Accumulating with `merge_dicts` is associative, so folding the per-release references
   * gathers each team's references in release order.
   */
  lemma MergeAssociative<K(!new), T>(a: map<K, Entry<T>>, b: map<K, Entry<T>>, c: map<K, Entry<T>>)
    ensures Merged(AsEntries(Merged(a, b)), c) == Merged(a, AsEntries(Merged(b, c)))
  {
    MergedValuesAgree(a, b, c);
    SameMaps(Merged(AsEntries(Merged(a, b)), c), Merged(a, AsEntries(Merged(b, c))));
  }

  lemma MergedValuesAgree<K(!new), T>(a: map<K, Entry<T>>, b: map<K, Entry<T>>, c: map<K, Entry<T>>)
    ensures Merged(AsEntries(Merged(a, b)), c).Keys == Merged(a, AsEntries(Merged(b, c))).Keys
    ensures forall k :: k in Merged(AsEntries(Merged(a, b)), c) ==>
      Merged(AsEntries(Merged(a, b)), c)[k] == Merged(a, AsEntries(Merged(b, c)))[k]
  {
    forall k | k in Merged(AsEntries(Merged(a, b)), c)
      ensures Merged(AsEntries(Merged(a, b)), c)[k] == Merged(a, AsEntries(Merged(b, c)))[k]
    {
      MergedLeftAt(a, b, c, k);
      MergedRightAt(a, b, c, k);
    }
  }

  /** Every key's items as a list: what `merge_dicts` makes of a dictionary merged with nothing. */
  function Values<K, T>(m: map<K, Entry<T>>): (r: map<K, seq<T>>)
    ensures r.Keys == m.Keys
  {
    map k | k in m :: Listed(m[k])
  }

  /** Listing a dictionary's items before merging it changes nothing. */
  lemma MergedValues<K(!new), T>(d1: map<K, Entry<T>>, d2: map<K, Entry<T>>)
    ensures Merged(AsEntries(Values(d1)), d2) == Merged(d1, d2)
  {
    SameMaps(Merged(AsEntries(Values(d1)), d2), Merged(d1, d2));
  }

  /** Merging `parts` one after the other, starting from nothing, the way a loop of `merge_dicts` calls accumulates them. */
  function MergedAll<K(!new), T>(parts: seq<map<K, seq<T>>>): map<K, seq<T>> {
    if parts == [] then map[]
    else Merged(AsEntries(MergedAll(parts[..|parts| - 1])), AsEntries(parts[|parts| - 1]))
  }

  /** The items every part holds for `k`, part after part. */
  function ItemsOf<K, T>(parts: seq<map<K, seq<T>>>, k: K): seq<T> {
    if parts == [] then []
    else ItemsOf(parts[..|parts| - 1], k) + (if k in parts[|parts| - 1] then parts[|parts| - 1][k] else [])
  }

  lemma {:induction false} ItemsOfAbsent<K, T>(parts: seq<map<K, seq<T>>>, k: K)
    requires forall i :: 0 <= i < |parts| ==> k !in parts[i]
    ensures ItemsOf(parts, k) == []
  {
    if parts != [] {
      var n := |parts| - 1;
      assert forall i :: 0 <= i < n ==> parts[..n][i] == parts[i];
      ItemsOfAbsent(parts[..n], k);
    }
  }

  /** The accumulated dictionary has a key exactly when some part has it. */
  lemma {:induction false} MergedAllKeys<K(!new), T>(parts: seq<map<K, seq<T>>>, k: K)
    ensures k in MergedAll(parts) <==> exists i :: 0 <= i < |parts| && k in parts[i]
  {
    if parts != [] {
      var n := |parts| - 1;
      var prefix := parts[..n];
      MergedAllKeys(prefix, k);
      if k in parts[n] {
        assert k in MergedAll(parts);
      } else if k in MergedAll(prefix) {
        var i :| 0 <= i < n && k in prefix[i];
        assert prefix[i] == parts[i];
      } else {
        forall i | 0 <= i < |parts| ensures k !in parts[i] {
          if i < n {
            assert prefix[i] == parts[i];
          }
        }
      }
    }
  }

  /** For a key it has, the accumulated dictionary holds the key's items of every part, in order. */
  lemma {:induction false} MergedAllItems<K(!new), T>(parts: seq<map<K, seq<T>>>, k: K)
    requires k in MergedAll(parts)
    ensures MergedAll(parts)[k] == ItemsOf(parts, k)
  {
    var n := |parts| - 1;
    var prefix, last := parts[..n], parts[n];
    var before := MergedAll(prefix);
    MergedItems(AsEntries(before), AsEntries(last), k);
    var own := if k in last then last[k] else [];
    assert ItemsOf(parts, k) == ItemsOf(prefix, k) + own;
    assert Part(AsEntries(last), k) == own;
    if k in before {
      MergedAllItems(prefix, k);
      assert Part(AsEntries(before), k) == before[k];
    } else {
      MergedAllKeys(prefix, k);
      forall i | 0 <= i < n ensures k !in prefix[i] { }
      ItemsOfAbsent(prefix, k);
      assert Part(AsEntries(before), k) == [] == ItemsOf(prefix, k);
    }
  }

  lemma SameMaps<K, V>(m1: map<K, V>, m2: map<K, V>)
    requires m1.Keys == m2.Keys
    requires forall k :: k in m1 ==> m1[k] == m2[k]
    ensures m1 == m2
  {
  }

  /** `merge_dicts`: a loop over d1's keys, then over d2's keys not in d1. */
  method MergeDicts<K(!new), T>(d1: map<K, Entry<T>>, d2: map<K, Entry<T>>) returns (result: map<K, seq<T>>)
    ensures result == Merged(d1, d2)
  {
    result := map[];
    var pending := d1.Keys;
    while pending != {}
      invariant pending <= d1.Keys
      invariant result.Keys == d1.Keys - pending
      invariant forall k :: k in result ==> result[k] == Merged(d1, d2)[k]
      decreases pending
    {
      var k :| k in pending;
      var items := Listed(d1[k]);
      var other := if k in d2 then d2[k] else Many([]);
      match other {
        case Many(xs) => items := items + xs;
        case One(x) => items := items + [x];
      }
      result := result[k := items];
      pending := pending - {k};
    }
    pending := d2.Keys - d1.Keys;
    while pending != {}
      invariant pending <= d2.Keys - d1.Keys
      invariant result.Keys == d1.Keys + (d2.Keys - d1.Keys - pending)
      invariant forall k :: k in result ==> result[k] == Merged(d1, d2)[k]
      decreases pending
    {
      var k :| k in pending;
      result := result[k := Listed(d2[k])];
      pending := pending - {k};
    }
  }
}
