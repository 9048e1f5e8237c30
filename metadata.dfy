/**
 * The metadata sheet of `plan_b/exporters/xlsx/metadata.py`: the records the exporter keeps
 * about where each team's allocation rows were written, and the round trip through the sheet.
 */
module Metadata {
  import opened Wrappers
  import opened Dates
  import opened Layout
  import opened Dicts

  /** A reference to a total on a release sheet, with the title of the row it feeds. */
  datatype CellReference = CellReference(pos: Pos, title: string)

  /** Every reference points at a cell on its sheet. */
  predicate RefsPlaced(refs: seq<CellReference>) {
    forall j :: 0 <= j < |refs| ==> Placed(refs[j].pos)
  }

  /** The values of one allocation row as read back, each paired with the month of its column. */
  datatype ItemAllocation = ItemAllocation(name: string, allocations: seq<(Date, Value)>)

  /** The allocation rows read back from one team's calendar, by item name. */
  datatype TeamAllocation = TeamAllocation(teamName: string, items: map<string, ItemAllocation>)

  /** The first record of the sheet; a sheet that starts otherwise is refused when read. */
  const MetadataHeader: string := "CAPACITY PLAN METADATA v0.2 - DO NOT EDIT"

  // ---------------------------------------------------------------------------
  // save_metadata

  /** The three opening records: the header, the period with both dates in ISO form, the section title. */
  function HeadRecords(start: Date, end: Date): seq<seq<Value>>
    requires start.Valid() && end.Valid()
  {
    [[Text(MetadataHeader)], [Text("Period"), Text(IsoFormat(start)), Text(IsoFormat(end))], [Text("Team calendars")]]
  }

  function TeamRecord(team: string): seq<Value> {
    [Text("Team"), Text(team)]
  }

  /** An item's record: its name, then the first cell, the rows and the columns of its region. */
  function ItemRecord(name: string, region: Region): seq<Value> {
    [Text("Item"), Text(name), Whole(region.offset.row), Whole(region.offset.column), Whole(region.rows), Whole(region.columns)]
  }

  function ItemRecords(items: Dict<string, Region>): (r: seq<seq<Value>>)
    ensures |r| == |items|
    ensures forall i :: 0 <= i < |items| ==> r[i] == ItemRecord(items[i].0, items[i].1)
  {
    seq(|items|, i requires 0 <= i < |items| => ItemRecord(items[i].0, items[i].1))
  }

  /** For every team in order, its record and then one record per item of that team. */
  function TeamRecords(regions: Dict<string, Dict<string, Region>>): seq<seq<Value>> {
    if regions == [] then []
    else
      var (team, items) := regions[|regions| - 1];
      TeamRecords(regions[..|regions| - 1]) + [TeamRecord(team)] + ItemRecords(items)
  }

  /** Everything `save_metadata` writes, one list of values per row, from row 0 down. */
  function Records(start: Date, end: Date, regions: Dict<string, Dict<string, Region>>): seq<seq<Value>>
    requires start.Valid() && end.Valid()
  {
    HeadRecords(start, end) + TeamRecords(regions)
  }

  function Plains(values: seq<Value>): (r: seq<RowItem>)
    ensures |r| == |values| && forall i :: 0 <= i < |values| ==> r[i] == Plain(values[i])
  {
    seq(|values|, i requires 0 <= i < |values| => Plain(values[i]))
  }

  /** Record `row` is written from the first column of row `row`, without a format. */
  function RecordRow(row: int, record: seq<Value>): RowWrite {
    RowWrite(Pos(row, 0, None), Plains(record), None)
  }

  function RecordRows(records: seq<seq<Value>>): (r: seq<RowWrite>)
    ensures |r| == |records| && forall i :: 0 <= i < |records| ==> r[i] == RecordRow(i, records[i])
  {
    seq(|records|, i requires 0 <= i < |records| => RecordRow(i, records[i]))
  }

  lemma RecordRowsAppend(done: seq<seq<Value>>, record: seq<Value>)
    ensures RecordRows(done + [record]) == RecordRows(done) + [RecordRow(|done|, record)]
  {
  }

  /** One `write_row` of a record at row `row`, the next row after the records `done`. */
  method PutRecord(sheet: Sheet, row: int, record: seq<Value>, ghost base: map<(int, int), Cell>, ghost done: seq<seq<Value>>)
    requires row == |done| && sheet.cells == WrittenRows(base, RecordRows(done))
    modifies sheet
    ensures sheet.cells == WrittenRows(base, RecordRows(done + [record]))
    ensures sheet.widths == old(sheet.widths) && sheet.merges == old(sheet.merges)
  {
    PutRow(sheet, RecordRow(row, record), None);
    RecordRowsAppend(done, record);
    WrittenRowsAppend(base, RecordRows(done), [RecordRow(row, record)]);
  }

  /** The opening records, in rows 0 to 2. */
  method PutHeadRecords(sheet: Sheet, start: Date, end: Date)
    requires start.Valid() && end.Valid()
    modifies sheet
    ensures sheet.cells == WrittenRows(old(sheet.cells), RecordRows(Records(start, end, [])))
    ensures |Records(start, end, [])| == 3
    ensures sheet.widths == old(sheet.widths) && sheet.merges == old(sheet.merges)
  {
    HeadOnly(start, end);
    PutThreeRecords(sheet, Records(start, end, []));
  }

  lemma HeadOnly(start: Date, end: Date)
    requires start.Valid() && end.Valid()
    ensures Records(start, end, []) == HeadRecords(start, end) && |Records(start, end, [])| == 3
  {
  }

  /** Three records, one `write_row` each, in rows 0 to 2. */
  method PutThreeRecords(sheet: Sheet, records: seq<seq<Value>>)
    requires |records| == 3
    modifies sheet
    ensures sheet.cells == WrittenRows(old(sheet.cells), RecordRows(records))
    ensures sheet.widths == old(sheet.widths) && sheet.merges == old(sheet.merges)
  {
    ghost var base := sheet.cells;
    assert records[..0] == [] && records[..0] + [records[0]] == records[..1];
    PutRecord(sheet, 0, records[0], base, records[..0]);
    assert records[..1] + [records[1]] == records[..2];
    PutRecord(sheet, 1, records[1], base, records[..1]);
    assert records[..2] + [records[2]] == records;
    PutRecord(sheet, 2, records[2], base, records[..2]);
  }

  lemma ItemRecordsStep(written: seq<seq<Value>>, items: Dict<string, Region>, i: int)
    requires 0 <= i < |items|
    ensures written + ItemRecords(items[..i + 1]) == (written + ItemRecords(items[..i])) + [ItemRecord(items[i].0, items[i].1)]
  {
    assert ItemRecords(items[..i + 1]) == ItemRecords(items[..i]) + [ItemRecord(items[i].0, items[i].1)];
  }

  /** The record of item `i`, in the row after those of the items before it. */
  method PutItemRecord(sheet: Sheet, row: int, items: Dict<string, Region>, i: int,
                       ghost base: map<(int, int), Cell>, ghost written: seq<seq<Value>>)
    requires 0 <= i < |items| && row == |written| + i
    requires sheet.cells == WrittenRows(base, RecordRows(written + ItemRecords(items[..i])))
    modifies sheet
    ensures sheet.cells == WrittenRows(base, RecordRows(written + ItemRecords(items[..i + 1])))
    ensures sheet.widths == old(sheet.widths) && sheet.merges == old(sheet.merges)
  {
    var (name, region) := items[i];
    PutRecord(sheet, row, ItemRecord(name, region), base, written + ItemRecords(items[..i]));
    ItemRecordsStep(written, items, i);
  }

  /** A team's record at row `row`, then its items' records in the rows under it. */
  method PutTeamRecords(sheet: Sheet, row: int, team: string, items: Dict<string, Region>,
                        ghost base: map<(int, int), Cell>, ghost done: seq<seq<Value>>) returns (next: int)
    requires row == |done| && sheet.cells == WrittenRows(base, RecordRows(done))
    modifies sheet
    ensures next == |done| + 1 + |items|
    ensures sheet.cells == WrittenRows(base, RecordRows(done + [TeamRecord(team)] + ItemRecords(items)))
    ensures sheet.widths == old(sheet.widths) && sheet.merges == old(sheet.merges)
  {
    PutRecord(sheet, row, TeamRecord(team), base, done);
    ghost var written := done + [TeamRecord(team)];
    assert written + ItemRecords(items[..0]) == written;
    next := row + 1;
    for i := 0 to |items|
      invariant next == |written| + i
      invariant sheet.cells == WrittenRows(base, RecordRows(written + ItemRecords(items[..i])))
      invariant sheet.widths == old(sheet.widths) && sheet.merges == old(sheet.merges)
    {
      PutItemRecord(sheet, next, items, i, base, written);
      next := next + 1;
    }
    assert items[..|items|] == items;
  }

  lemma RecordsStep(start: Date, end: Date, regions: Dict<string, Dict<string, Region>>, t: int)
    requires start.Valid() && end.Valid() && 0 <= t < |regions|
    ensures Records(start, end, regions[..t + 1]) == Records(start, end, regions[..t]) + [TeamRecord(regions[t].0)] + ItemRecords(regions[t].1)
  {
    TeamRecordsStep(regions, t);
    AppendStep(HeadRecords(start, end), TeamRecords(regions[..t]), TeamRecords(regions[..t + 1]),
               TeamRecord(regions[t].0), ItemRecords(regions[t].1));
  }

  lemma TeamRecordsStep(regions: Dict<string, Dict<string, Region>>, t: int)
    requires 0 <= t < |regions|
    ensures TeamRecords(regions[..t + 1]) == TeamRecords(regions[..t]) + ([TeamRecord(regions[t].0)] + ItemRecords(regions[t].1))
  {
    assert regions[..t + 1][..t] == regions[..t];
  }

  lemma AppendStep<T>(head: seq<T>, before: seq<T>, after: seq<T>, x: T, rest: seq<T>)
    requires after == before + ([x] + rest)
    ensures head + after == head + before + [x] + rest
  {
  }

  /**
   * `save_metadata`: the opening records in rows 0 to 2, then from row 3 on, for every team in
   * order, its record followed by those of its items, a row counter advancing after each.
   */
  method SaveMetadata(sheet: Sheet, start: Date, end: Date, regions: Dict<string, Dict<string, Region>>)
    requires start.Valid() && end.Valid()
    modifies sheet
    ensures sheet.cells == WrittenRows(old(sheet.cells), RecordRows(Records(start, end, regions)))
    ensures sheet.widths == old(sheet.widths) && sheet.merges == old(sheet.merges)
  {
    PutHeadRecords(sheet, start, end);
    var row := 3;
    for t := 0 to |regions|
      invariant row == |Records(start, end, regions[..t])|
      invariant sheet.cells == WrittenRows(old(sheet.cells), RecordRows(Records(start, end, regions[..t])))
      invariant sheet.widths == old(sheet.widths) && sheet.merges == old(sheet.merges)
    {
      var (team, items) := regions[t];
      row := PutTeamRecords(sheet, row, team, items, old(sheet.cells), Records(start, end, regions[..t]));
      RecordsStep(start, end, regions, t);
    }
    assert regions[..|regions|] == regions;
  }

  /** The number of items over all teams. */
  function ItemCount(regions: Dict<string, Dict<string, Region>>): nat {
    if regions == [] then 0 else ItemCount(regions[..|regions| - 1]) + |regions[|regions| - 1].1|
  }

  lemma {:induction false} TeamRecordCount(regions: Dict<string, Dict<string, Region>>)
    ensures |TeamRecords(regions)| == |regions| + ItemCount(regions)
  {
    if regions != [] {
      TeamRecordCount(regions[..|regions| - 1]);
    }
  }

  /** The sheet holds one row per team and per item, after the three opening rows. */
  lemma RecordCount(start: Date, end: Date, regions: Dict<string, Dict<string, Region>>)
    requires start.Valid() && end.Valid()
    ensures |Records(start, end, regions)| == 3 + |regions| + ItemCount(regions)
  {
    TeamRecordCount(regions);
  }

  /** Record `r` sits in row `r`, its values from the first column on, each in its own cell. */
  lemma RecordCell(m: map<(int, int), Cell>, records: seq<seq<Value>>, r: int, c: int)
    requires 0 <= r < |records| && 0 <= c < |records[r]|
    ensures Shows(WrittenRows(m, RecordRows(records)), (r, c), Cell(Stored(records[r][c]), None))
  {
    assert Decides(RecordRows(records), r, (r, c), Cell(Stored(records[r][c]), None));
    ShowsAt(m, RecordRows(records), r, (r, c), Cell(Stored(records[r][c]), None));
  }

  /** A cell to the right of a record, or in a row past the records, keeps what it held. */
  lemma RecordGap(m: map<(int, int), Cell>, records: seq<seq<Value>>, r: int, c: int)
    requires !(0 <= r < |records| && 0 <= c < |records[r]|)
    ensures (r, c) in WrittenRows(m, RecordRows(records)) <==> (r, c) in m
    ensures (r, c) in m ==> WrittenRows(m, RecordRows(records))[(r, c)] == m[(r, c)]
  {
    WrittenRowsOutside(m, RecordRows(records), (r, c));
  }

  // ---------------------------------------------------------------------------
  // Reading a workbook back

  /**
   * A worksheet as a reader returns it: its rows from the first on, each a list of cell values
   * padded with blanks to the width of the sheet.
   */
  type Table = seq<seq<Value>>

  /** The table of a written cell map with `height` rows and `width` columns. */
  function TableOf(cells: map<(int, int), Cell>, height: nat, width: nat): Table {
    seq(height, r requires 0 <= r < height =>
      seq(width, c requires 0 <= c < width => if (r, c) in cells then ReadBack(cells[(r, c)].content) else Blank))
  }

  /** What a reader returns for a record written on its own row of a sheet `width` columns wide. */
  function ReadRecord(record: seq<Value>, width: nat): (r: seq<Value>)
    ensures |r| == width
  {
    seq(width, c requires 0 <= c < width => if c < |record| then ReadBack(Stored(record[c])) else Blank)
  }

  function ReadRecords(records: seq<seq<Value>>, width: nat): (r: seq<seq<Value>>)
    ensures |r| == |records| && forall i :: 0 <= i < |records| ==> r[i] == ReadRecord(records[i], width)
  {
    seq(|records|, i requires 0 <= i < |records| => ReadRecord(records[i], width))
  }

  lemma ReadRecordsAppend(a: seq<seq<Value>>, b: seq<seq<Value>>, width: nat)
    ensures ReadRecords(a + b, width) == ReadRecords(a, width) + ReadRecords(b, width)
  {
  }

  /** Every record fits in `width` columns. */
  predicate Fits(records: seq<seq<Value>>, width: nat) {
    forall r :: 0 <= r < |records| ==> |records[r]| <= width
  }

  /**
   * Reading back a sheet the records were written to, and nothing else, gives the records' values
   * as written, padded with blanks.
   */
  lemma SavedTable(records: seq<seq<Value>>, width: nat)
    requires Fits(records, width)
    ensures TableOf(WrittenRows(map[], RecordRows(records)), |records|, width) == ReadRecords(records, width)
  {
    var cells := WrittenRows(map[], RecordRows(records));
    var t := TableOf(cells, |records|, width);
    forall r | 0 <= r < |records|
      ensures t[r] == ReadRecord(records[r], width)
    {
      forall c | 0 <= c < width
        ensures t[r][c] == ReadRecord(records[r], width)[c]
      {
        if c < |records[r]| {
          RecordCell(map[], records, r, c);
        } else {
          RecordGap(map[], records, r, c);
        }
      }
    }
  }

  /** A text reads back as itself unless it is empty: an empty string is written as a blank cell. */
  lemma TextReadBack(s: string)
    ensures ReadBack(Stored(Text(s))) == (if s == [] then Blank else Text(s))
  {
  }

  /** Python's `s[i:j]`: a negative bound counts from the end, and both are clamped to the sequence. */
  function SliceBound(i: int, n: nat): (b: nat)
    ensures b <= n
    ensures 0 <= i <= n ==> b == i
  {
    if i < 0 then (if i + n < 0 then 0 else i + n) else if i > n then n else i
  }

  function PySlice<T>(s: seq<T>, i: int, j: int): (r: seq<T>)
    ensures |r| <= |s|
    ensures forall k :: 0 <= k < |r| ==> SliceBound(i, |s|) + k < |s| && r[k] == s[SliceBound(i, |s|) + k]
  {
    var a := SliceBound(i, |s|);
    var b := SliceBound(j, |s|);
    if a < b then s[a..b] else []
  }

  /**
   * From a column on the sheet, a slice of `n >= 0` cells takes at most `n` of them, and all of
   * them when the row is long enough. (A negative `n` makes the end count from the end of the row.)
   */
  lemma SliceLength<T>(s: seq<T>, i: int, n: int)
    requires 0 <= i && 0 <= n
    ensures |PySlice(s, i, i + n)| <= n
    ensures i + n <= |s| ==> PySlice(s, i, i + n) == s[i..i + n]
  {
    var a := SliceBound(i, |s|);
    var b := SliceBound(i + n, |s|);
    assert a == if i <= |s| then i else |s|;
    assert b == if i + n <= |s| then i + n else |s|;
  }

  /** A whole number as read back: a stored number without a fraction. */
  function AsInt(v: Value): (r: Option<int>)
    ensures r.Some? ==> v == Whole(r.value) || v == Number(r.value as real)
  {
    match v
    case Whole(n) => Some(n)
    case Number(x) => if x == x.Floor as real then Some(x.Floor) else None
    case _ => None
  }

  lemma WholeReadBack(n: int)
    ensures AsInt(ReadBack(Stored(Whole(n)))) == Some(n)
  {
    assert (n as real).Floor == n;
  }

  /** Python's `zip`: pairs up to the shorter of the two. */
  function Zip<A, B>(a: seq<A>, b: seq<B>): (r: seq<(A, B)>)
    ensures |r| == if |a| <= |b| then |a| else |b|
    ensures forall k :: 0 <= k < |r| ==> r[k] == (a[k], b[k])
  {
    var n := if |a| <= |b| then |a| else |b|;
    seq(n, k requires 0 <= k < n => (a[k], b[k]))
  }

  /** The state of the reading loop: the row index, whether the team section began, the months, the team. */
  datatype LoadState = LoadState(index: nat, flag: bool, months: Option<seq<Date>>, team: Option<string>,
                                 allocations: map<string, TeamAllocation>)

  const Initial := LoadState(0, false, None, None, map[])

  /** `row[i].value`; a short row is an error. */
  function Field(row: seq<Value>, i: nat): (r: Result<Value>)
    ensures r.Ok? <==> i < |row|
    ensures r.Ok? ==> r.value == row[i]
  {
    if i < |row| then Ok(row[i]) else Err(MalformedMetadata("missing field"))
  }

  /** The Period record's months: every month from the start's to the end's, both read as ISO dates. */
  function ReadPeriod(row: seq<Value>): Result<seq<Date>> {
    var first :- Field(row, 1);
    var last :- Field(row, 2);
    if first.Text? && last.Text? && ParseIso(first.text).Some? && ParseIso(last.text).Some? then
      Ok(MonthsRange(ParseIso(first.text).value, ParseIso(last.text).value))
    else Err(MalformedMetadata("period"))
  }

  /**
   * The cells of an item, `team_sheet[item_row + 1][start:start + count]`: the row counts from 1
   * there, so the recorded 0-based row is read. A row before the first or past the last is an error.
   */
  function ItemCells(sheet: Table, row: int, start: int, count: int): (r: Result<seq<Value>>)
    ensures r.Ok? <==> 0 <= row < |sheet|
    ensures r.Ok? ==> r.value == PySlice(sheet[row], start, start + count)
  {
    if 0 <= row < |sheet| then Ok(PySlice(sheet[row], start, start + count)) else Err(MalformedMetadata("item row"))
  }

  /** The inner loop: cell `k` with month `k`; running out of months, or having none, is an error. */
  function Paired(months: Option<seq<Date>>, cells: seq<Value>): (r: Result<seq<(Date, Value)>>)
    ensures r.Ok? <==> cells == [] || (months.Some? && |cells| <= |months.value|)
    ensures r.Ok? ==> |r.value| == |cells|
    ensures r.Ok? ==> forall k :: 0 <= k < |cells| ==>
      months.Some? && k < |months.value| && r.value[k] == (months.value[k], cells[k])
  {
    if cells == [] then Ok([])
    else if months.None? || |cells| > |months.value| then Err(MalformedMetadata("month index"))
    else Ok(Zip(months.value, cells))
  }

  /** A Team record: the team becomes current, with no items yet, and its sheet must exist. */
  function ReadTeam(s: LoadState, row: seq<Value>, book: map<string, Table>): Result<LoadState> {
    var name :- Field(row, 1);
    if name.Text? && name.text in book then
      Ok(s.(team := Some(name.text), allocations := s.allocations[name.text := TeamAllocation(name.text, map[])]))
    else Err(MalformedMetadata("team sheet"))
  }

  /**
   * An Item record: the values of its span on the current team's sheet, with their months, stored
   * under its name in the current team. A name that is not text is read but not kept.
   */
  function ReadItem(s: LoadState, row: seq<Value>, book: map<string, Table>): Result<LoadState> {
    if s.team.None? || s.team.value !in s.allocations || s.team.value !in book then Err(MalformedMetadata("item outside a team"))
    else
      var itemRow :- Field(row, 2);
      var start :- Field(row, 3);
      var count :- Field(row, 5);
      var name :- Field(row, 1);
      if AsInt(itemRow).None? || AsInt(start).None? || AsInt(count).None? then Err(MalformedMetadata("not a whole number"))
      else
        var cells :- ItemCells(book[s.team.value], AsInt(itemRow).value, AsInt(start).value, AsInt(count).value);
        var pairs :- Paired(s.months, cells);
        var current := s.allocations[s.team.value];
        if name.Text? then
          Ok(s.(allocations := s.allocations[s.team.value := current.(items := current.items[name.text := ItemAllocation(name.text, pairs)])]))
        else Ok(s)
  }

  /** The Period record sets the months; any other record keeps them. */
  function PeriodAfter(s: LoadState, row: seq<Value>): Result<Option<seq<Date>>>
    requires row != []
  {
    if row[0] == Text("Period") then
      var months :- ReadPeriod(row);
      Ok(Some(months))
    else Ok(s.months)
  }

  /** One pass of the reading loop over a row. */
  function LoadRow(s: LoadState, row: seq<Value>, book: map<string, Table>): Result<LoadState> {
    if row == [] then Err(MalformedMetadata("empty row"))
    else if s.index == 0 && row[0] != Text(MetadataHeader) then Err(InvalidMetadataHeader)
    else
      var months :- PeriodAfter(s, row);
      var next := s.(months := months, flag := s.flag || row[0] == Text("Team calendars"));
      var read :-
        if !next.flag then Ok(next)
        else if row[0] == Text("Team") then ReadTeam(next, row, book)
        else if row[0] == Text("Item") then ReadItem(next, row, book)
        else Ok(next);
      Ok(read.(index := s.index + 1))
  }

  /** The reading loop over `rows` from state `s`; the first error ends it. */
  function LoadFrom(s: LoadState, rows: seq<seq<Value>>, book: map<string, Table>): Result<LoadState> {
    if rows == [] then Ok(s)
    else
      match LoadFrom(s, rows[..|rows| - 1], book)
      case Err(e) => Err(e)
      case Ok(t) => LoadRow(t, rows[|rows| - 1], book)
  }

  /** `load_metadata` over a workbook given as its sheets by name. */
  function Loaded(book: map<string, Table>): Result<map<string, TeamAllocation>> {
    if "Meta" !in book then Err(MalformedMetadata("no Meta sheet"))
    else
      var s :- LoadFrom(Initial, book["Meta"], book);
      Ok(s.allocations)
  }

  /** Reading more rows after an error does not undo it. */
  lemma {:induction false} ErrorSticks(s: LoadState, rows: seq<seq<Value>>, k: nat, book: map<string, Table>)
    requires k <= |rows| && LoadFrom(s, rows[..k], book).Err?
    ensures LoadFrom(s, rows, book) == LoadFrom(s, rows[..k], book)
    decreases |rows| - k
  {
    if k < |rows| {
      assert rows[..k + 1][..k] == rows[..k];
      ErrorSticks(s, rows, k + 1, book);
    } else {
      assert rows[..k] == rows;
    }
  }

  lemma {:induction false} LoadFromAppend(s: LoadState, a: seq<seq<Value>>, b: seq<seq<Value>>, book: map<string, Table>)
    ensures LoadFrom(s, a + b, book) == match LoadFrom(s, a, book) case Err(e) => Err(e) case Ok(t) => LoadFrom(t, b, book)
  {
    if b == [] {
      assert a + b == a;
    } else {
      assert (a + b)[..|a + b| - 1] == a + b[..|b| - 1];
      LoadFromAppend(s, a, b[..|b| - 1], book);
    }
  }

  /** The inner loop of `load_metadata`: cell after cell, paired with the month of the same index. */
  method PairMonths(months: Option<seq<Date>>, cells: seq<Value>) returns (r: Result<seq<(Date, Value)>>)
    ensures r == Paired(months, cells)
  {
    var allocations: seq<(Date, Value)> := [];
    var monthIndex := 0;
    for k := 0 to |cells|
      invariant monthIndex == k == |allocations|
      invariant months.Some? && k <= |months.value| ==> allocations == Zip(months.value, cells[..k])
      invariant k > 0 ==> months.Some? && k <= |months.value|
    {
      if months.None? || monthIndex >= |months.value| {
        return Err(MalformedMetadata("month index"));
      }
      allocations := allocations + [(months.value[monthIndex], cells[k])];
      monthIndex := monthIndex + 1;
    }
    if cells == [] {
      return Ok([]);
    }
    assert cells[..|cells|] == cells;
    return Ok(allocations);
  }

  /** One pass of the loop body of `load_metadata`, on its state variables. */
  method LoadRecord(s: LoadState, row: seq<Value>, book: map<string, Table>) returns (r: Result<LoadState>)
    ensures r == LoadRow(s, row, book)
  {
    if row == [] {
      return Err(MalformedMetadata("empty row"));
    }
    if s.index == 0 && row[0] != Text(MetadataHeader) {
      return Err(InvalidMetadataHeader);
    }
    var months := s.months;
    if row[0] == Text("Period") {
      var period := ReadPeriod(row);
      if period.Err? {
        return Err(period.error);
      }
      months := Some(period.value);
    }
    var flag := s.flag;
    if row[0] == Text("Team calendars") {
      flag := true;
    }
    var team := s.team;
    var allocations := s.allocations;
    if flag {
      if row[0] == Text("Team") {
        if |row| < 2 {
          assert Field(row, 1).Err?;
          return Err(MalformedMetadata("missing field"));
        }
        if !row[1].Text? || row[1].text !in book {
          return Err(MalformedMetadata("team sheet"));
        }
        team := Some(row[1].text);
        allocations := allocations[row[1].text := TeamAllocation(row[1].text, map[])];
      } else if row[0] == Text("Item") {
        if team.None? || team.value !in allocations || team.value !in book {
          return Err(MalformedMetadata("item outside a team"));
        }
        var current := allocations[team.value];
        if |row| < 6 {
          return Err(MalformedMetadata("missing field"));
        }
        var itemRow, start, count := AsInt(row[2]), AsInt(row[3]), AsInt(row[5]);
        if itemRow.None? || start.None? || count.None? {
          return Err(MalformedMetadata("not a whole number"));
        }
        var sheet := book[team.value];
        if !(0 <= itemRow.value < |sheet|) {
          return Err(MalformedMetadata("item row"));
        }
        var cells := PySlice(sheet[itemRow.value], start.value, start.value + count.value);
        var pairs := PairMonths(months, cells);
        if pairs.Err? {
          return Err(pairs.error);
        }
        if row[1].Text? {
          allocations := allocations[team.value := current.(items := current.items[row[1].text := ItemAllocation(row[1].text, pairs.value)])];
        }
      }
    }
    return Ok(LoadState(s.index + 1, flag, months, team, allocations));
  }

  /**
   * `load_metadata`: the rows of the Meta sheet in order, through the loop's state, to the
   * allocations of every team recorded.
   */
  method LoadMetadata(book: map<string, Table>) returns (r: Result<map<string, TeamAllocation>>)
    ensures r == Loaded(book)
  {
    if "Meta" !in book {
      return Err(MalformedMetadata("no Meta sheet"));
    }
    var rows := book["Meta"];
    var s := Initial;
    for i := 0 to |rows|
      invariant LoadFrom(Initial, rows[..i], book) == Ok(s)
    {
      assert rows[..i + 1][..i] == rows[..i];
      var next := LoadRecord(s, rows[i], book);
      if next.Err? {
        ErrorSticks(Initial, rows, i + 1, book);
        return Err(next.error);
      }
      s := next.value;
    }
    assert rows[..|rows|] == rows;
    return Ok(s.allocations);
  }

  // ---------------------------------------------------------------------------
  // What the reading loop does with each kind of row

  /** The first values that tell the records apart are all different. */
  lemma KindsDistinct()
    ensures Text(MetadataHeader) != Text("Period") && Text(MetadataHeader) != Text("Team calendars")
    ensures Text(MetadataHeader) != Text("Team") && Text(MetadataHeader) != Text("Item")
    ensures Text("Period") != Text("Team calendars") && Text("Period") != Text("Team") && Text("Period") != Text("Item")
    ensures Text("Team calendars") != Text("Team") && Text("Team calendars") != Text("Item") && Text("Team") != Text("Item")
  {
  }

  /** The first row must start with the header: otherwise reading fails, whatever follows. */
  lemma HeaderChecked(book: map<string, Table>)
    requires "Meta" in book && book["Meta"] != [] && book["Meta"][0] != []
    ensures book["Meta"][0][0] != Text(MetadataHeader) ==> Loaded(book) == Err(InvalidMetadataHeader)
    ensures book["Meta"][0][0] == Text(MetadataHeader) ==> LoadFrom(Initial, book["Meta"][..1], book) == Ok(Initial.(index := 1))
  {
    var rows := book["Meta"];
    assert rows[..1][..0] == [];
    if rows[0][0] != Text(MetadataHeader) {
      ErrorSticks(Initial, rows, 1, book);
    }
  }

  /** Before the 'Team calendars' record, Team and Item records, like any other but Period, change nothing. */
  lemma IgnoredBeforeSection(s: LoadState, row: seq<Value>, book: map<string, Table>)
    requires !s.flag && s.index > 0 && row != [] && row[0] != Text("Period") && row[0] != Text("Team calendars")
    ensures LoadRow(s, row, book) == Ok(s.(index := s.index + 1))
  {
    KindsDistinct();
  }

  /** A Period record with two ISO dates sets the months to those from the first date's month to the second date. */
  lemma PeriodRead(s: LoadState, row: seq<Value>, start: Date, end: Date, book: map<string, Table>)
    requires s.index > 0 && |row| >= 3 && row[0] == Text("Period") && end.Valid()
    requires row[1].Text? && ParseIso(row[1].text) == Some(start) && row[2].Text? && ParseIso(row[2].text) == Some(end)
    ensures LoadRow(s, row, book) == Ok(s.(index := s.index + 1, months := Some(MonthsRange(start, end))))
  {
    PeriodParsed(row, start, end);
    assert PeriodAfter(s, row) == Ok(Some(MonthsRange(start, end)));
    KindsDistinct();
  }

  lemma PeriodParsed(row: seq<Value>, start: Date, end: Date)
    requires |row| >= 3 && end.Valid()
    requires row[1].Text? && ParseIso(row[1].text) == Some(start) && row[2].Text? && ParseIso(row[2].text) == Some(end)
    ensures ReadPeriod(row) == Ok(MonthsRange(start, end))
  {
  }

  /** The state after an item's values are stored under `name` in the current team. */
  function ItemStored(s: LoadState, name: string, pairs: seq<(Date, Value)>): LoadState
    requires s.team.Some? && s.team.value in s.allocations
  {
    var current := s.allocations[s.team.value];
    s.(index := s.index + 1, allocations := s.allocations[s.team.value := current.(items := current.items[name := ItemAllocation(name, pairs)])])
  }

  /** The state after a Team record: the team is current and starts with no items. */
  function TeamStarted(s: LoadState, team: string): LoadState {
    s.(index := s.index + 1, team := Some(team), allocations := s.allocations[team := TeamAllocation(team, map[])])
  }

  /** The header record, first, is accepted and changes nothing else. */
  lemma HeaderRead(row: seq<Value>, book: map<string, Table>)
    requires row != [] && row[0] == Text(MetadataHeader)
    ensures LoadRow(Initial, row, book) == Ok(Initial.(index := 1))
  {
    KindsDistinct();
  }

  /** The 'Team calendars' record opens the section where Team and Item records count. */
  lemma SectionRead(s: LoadState, row: seq<Value>, book: map<string, Table>)
    requires s.index > 0 && row != [] && row[0] == Text("Team calendars")
    ensures LoadRow(s, row, book) == Ok(s.(index := s.index + 1, flag := true))
  {
    KindsDistinct();
  }

  /** In the section, a Team record naming a sheet of the workbook makes that team current, with no items yet. */
  lemma TeamRead(s: LoadState, row: seq<Value>, team: string, book: map<string, Table>)
    requires s.flag && s.index > 0 && |row| >= 2 && row[0] == Text("Team") && row[1] == Text(team) && team in book
    ensures LoadRow(s, row, book) == Ok(TeamStarted(s, team))
  {
    KindsDistinct();
  }

  /**
   * An Item record in the section, under a team, stores under its name the cells of its span on
   * the team's sheet, the `k`-th paired with the `k`-th month; a span within the row yields all
   * `count` cells it names, in order.
   */
  lemma ItemRead(s: LoadState, row: seq<Value>, book: map<string, Table>, name: string, r: int, c: int, n: int)
    requires s.flag && s.index > 0 && s.team.Some? && s.team.value in s.allocations && s.team.value in book
    requires s.months.Some? && 0 <= n <= |s.months.value|
    requires |row| >= 6 && row[0] == Text("Item") && row[1] == Text(name)
    requires AsInt(row[2]) == Some(r) && AsInt(row[3]) == Some(c) && AsInt(row[5]) == Some(n)
    requires 0 <= r < |book[s.team.value]| && 0 <= c
    ensures LoadRow(s, row, book) == Ok(ItemStored(s, name, Zip(s.months.value, PySlice(book[s.team.value][r], c, c + n))))
    ensures var cells := book[s.team.value][r];
      c + n <= |cells| ==>
        var stored := Zip(s.months.value, PySlice(cells, c, c + n));
        |stored| == n && forall k :: 0 <= k < n ==> stored[k] == (s.months.value[k], cells[c + k])
  {
    KindsDistinct();
    SliceLength(book[s.team.value][r], c, n);
  }

  // ---------------------------------------------------------------------------
  // The round trip: reading back what save_metadata recorded

  /** A region's span as read back: its row's cells from its first column on, as many as it has columns. */
  function SpanValues(sheet: Table, region: Region): seq<Value>
    requires 0 <= region.offset.row < |sheet|
  {
    PySlice(sheet[region.offset.row], region.offset.column, region.offset.column + region.columns)
  }

  /** Every item's region lies on `sheet`, with a non-empty name and no more columns than months. */
  predicate ItemsRecordable(items: Dict<string, Region>, months: nat, sheet: Table) {
    forall i :: 0 <= i < |items| ==>
      items[i].0 != [] && Placed(items[i].1.offset) && items[i].1.offset.row < |sheet| && 0 <= items[i].1.columns <= months
  }

  /** Every team has a non-empty name and a sheet of that name, and its items are recordable there. */
  predicate Recordable(regions: Dict<string, Dict<string, Region>>, months: nat, book: map<string, Table>) {
    forall t :: 0 <= t < |regions| ==>
      regions[t].0 != [] && regions[t].0 in book && ItemsRecordable(regions[t].1, months, book[regions[t].0])
  }

  /** The items of one team as a reader of the records should find them: each span's values with their months, later names replacing earlier ones. */
  function ItemsRead(base: map<string, ItemAllocation>, items: Dict<string, Region>, months: seq<Date>, sheet: Table)
    : map<string, ItemAllocation>
    requires ItemsRecordable(items, |months|, sheet)
  {
    if items == [] then base
    else
      var (name, region) := items[|items| - 1];
      ItemsRead(base, items[..|items| - 1], months, sheet)[name := ItemAllocation(name, Zip(months, SpanValues(sheet, region)))]
  }

  /** Every team's allocations as they should read back, later team names replacing earlier ones. */
  function TeamsRead(regions: Dict<string, Dict<string, Region>>, months: seq<Date>, book: map<string, Table>)
    : map<string, TeamAllocation>
    requires Recordable(regions, |months|, book)
  {
    if regions == [] then map[]
    else
      var (team, items) := regions[|regions| - 1];
      TeamsRead(regions[..|regions| - 1], months, book)[team := TeamAllocation(team, ItemsRead(map[], items, months, book[team]))]
  }

  /** Each opening record reads back as written: a header row, a period row with both dates readable, the section row. */
  lemma HeadRows(start: Date, end: Date, width: nat)
    requires start.Valid() && end.Valid() && width >= 3
    ensures var rows := ReadRecords(HeadRecords(start, end), width);
      |rows| == 3 && rows[0] != [] && rows[0][0] == Text(MetadataHeader)
      && |rows[1]| >= 3 && rows[1][0] == Text("Period")
      && rows[1][1].Text? && ParseIso(rows[1][1].text) == Some(start)
      && rows[1][2].Text? && ParseIso(rows[1][2].text) == Some(end)
      && rows[2] != [] && rows[2][0] == Text("Team calendars")
  {
    var records := HeadRecords(start, end);
    var rows := ReadRecords(records, width);
    assert rows[0] == ReadRecord(records[0], width) && rows[1] == ReadRecord(records[1], width)
        && rows[2] == ReadRecord(records[2], width);
    TextCellReadBack(records[0], width, 0, MetadataHeader);
    TextCellReadBack(records[1], width, 0, "Period");
    DateCellReadBack(records[1], width, 1, start);
    DateCellReadBack(records[1], width, 2, end);
    TextCellReadBack(records[2], width, 0, "Team calendars");
  }

  /** A non-empty text in a record's column `c` reads back as itself. */
  lemma TextCellReadBack(record: seq<Value>, width: nat, c: nat, s: string)
    requires c < |record| && c < width && record[c] == Text(s) && s != []
    ensures ReadRecord(record, width)[c] == Text(s)
  {
    TextReadBack(s);
  }

  /** A date written in ISO form in a record's column `c` reads back as text that parses to that date. */
  lemma DateCellReadBack(record: seq<Value>, width: nat, c: nat, d: Date)
    requires d.Valid() && c < |record| && c < width && record[c] == Text(IsoFormat(d))
    ensures ReadRecord(record, width)[c].Text? && ParseIso(ReadRecord(record, width)[c].text) == Some(d)
  {
    IsoRoundTrip(d);
    TextCellReadBack(record, width, c, IsoFormat(d));
  }

  /** The opening records leave the reader in the section, with the recorded months and nothing else. */
  lemma HeadLoads(start: Date, end: Date, book: map<string, Table>, width: nat)
    requires start.Valid() && end.Valid() && width >= 3
    ensures LoadFrom(Initial, ReadRecords(HeadRecords(start, end), width), book)
         == Ok(LoadState(3, true, Some(MonthsRange(start, end)), None, map[]))
  {
    HeadRows(start, end, width);
    HeadChain(ReadRecords(HeadRecords(start, end), width), start, end, book);
  }

  lemma HeadChain(rows: seq<seq<Value>>, start: Date, end: Date, book: map<string, Table>)
    requires end.Valid() && |rows| == 3 && rows[0] != [] && rows[0][0] == Text(MetadataHeader)
    requires |rows[1]| >= 3 && rows[1][0] == Text("Period")
    requires rows[1][1].Text? && ParseIso(rows[1][1].text) == Some(start) && rows[1][2].Text? && ParseIso(rows[1][2].text) == Some(end)
    requires rows[2] != [] && rows[2][0] == Text("Team calendars")
    ensures LoadFrom(Initial, rows, book) == Ok(LoadState(3, true, Some(MonthsRange(start, end)), None, map[]))
  {
    var r0, r1, r2 := rows[0], rows[1], rows[2];
    assert [r0] == [] + [r0] && [r0, r1] == [r0] + [r1] && rows == [r0, r1] + [r2];
    var s1 := Initial.(index := 1);
    var s2 := s1.(index := 2, months := Some(MonthsRange(start, end)));
    HeaderRead(r0, book);
    PeriodRead(s1, r1, start, end, book);
    SectionRead(s2, r2, book);
    LoadStep(Initial, [], r0, Initial, s1, book);
    LoadStep(Initial, [r0], r1, s1, s2, book);
    LoadStep(Initial, [r0, r1], r2, s2, s2.(index := 3, flag := true), book);
  }

  lemma TeamRowLoads(s: LoadState, team: string, book: map<string, Table>, width: nat)
    requires s.flag && s.index > 0 && team != [] && team in book && width >= 2
    ensures LoadRow(s, ReadRecord(TeamRecord(team), width), book) == Ok(TeamStarted(s, team))
  {
    TextReadBack(team);
    TextReadBack("Team");
    var row := ReadRecord(TeamRecord(team), width);
    TeamRead(s, row, team, book);
  }

  lemma ItemRowLoads(s: LoadState, team: string, name: string, region: Region, months: seq<Date>,
                     book: map<string, Table>, width: nat)
    requires s.flag && s.index > 0 && s.team == Some(team) && team in s.allocations && team in book && s.months == Some(months)
    requires name != [] && Placed(region.offset) && region.offset.row < |book[team]| && 0 <= region.columns <= |months|
    requires width >= 6
    ensures LoadRow(s, ReadRecord(ItemRecord(name, region), width), book)
         == Ok(ItemStored(s, name, Zip(months, SpanValues(book[team], region))))
  {
    var row := ReadRecord(ItemRecord(name, region), width);
    TextReadBack(name);
    TextReadBack("Item");
    WholeReadBack(region.offset.row);
    WholeReadBack(region.offset.column);
    WholeReadBack(region.columns);
    ItemRead(s, row, book, name, region.offset.row, region.offset.column, region.columns);
  }

  /** The state reached after the records of `items`, from `s`. */
  function ItemsLoaded(s: LoadState, team: string, items: Dict<string, Region>, months: seq<Date>, sheet: Table): LoadState
    requires team in s.allocations && ItemsRecordable(items, |months|, sheet)
  {
    s.(index := s.index + |items|, allocations := s.allocations[team := s.allocations[team].(items :=
      ItemsRead(s.allocations[team].items, items, months, sheet))])
  }

  lemma ItemsLoadedStep(s: LoadState, team: string, items: Dict<string, Region>, months: seq<Date>, sheet: Table)
    requires s.team == Some(team) && team in s.allocations && ItemsRecordable(items, |months|, sheet) && items != []
    ensures ItemsRecordable(items[..|items| - 1], |months|, sheet)
    ensures var t := ItemsLoaded(s, team, items[..|items| - 1], months, sheet);
      t.team == Some(team) && team in t.allocations
      && ItemStored(t, items[|items| - 1].0, Zip(months, SpanValues(sheet, items[|items| - 1].1))) == ItemsLoaded(s, team, items, months, sheet)
  {
    var n := |items|;
    assert ItemsRecordable(items[..n - 1], |months|, sheet) by {
      forall i | 0 <= i < n - 1 ensures items[..n - 1][i] == items[i] {}
    }
  }

  /** From a state `s` under team `team`, the item records load every item in turn. */
  lemma {:induction false} ItemRecordsLoad(s: LoadState, team: string, items: Dict<string, Region>, months: seq<Date>,
                                           book: map<string, Table>, width: nat)
    requires s.flag && s.index > 0 && s.team == Some(team) && team in s.allocations && team in book && s.months == Some(months)
    requires ItemsRecordable(items, |months|, book[team]) && (items != [] ==> width >= 6)
    ensures LoadFrom(s, ReadRecords(ItemRecords(items), width), book) == Ok(ItemsLoaded(s, team, items, months, book[team]))
  {
    if items == [] {
      assert s.allocations[team := s.allocations[team]] == s.allocations;
    } else {
      var n := |items|;
      var prefix := items[..n - 1];
      var (name, region) := items[n - 1];
      ItemsLoadedStep(s, team, items, months, book[team]);
      ItemRecordsSnoc(items, width);
      ItemRecordsLoad(s, team, prefix, months, book, width);
      var t := ItemsLoaded(s, team, prefix, months, book[team]);
      ItemRowLoads(t, team, name, region, months, book, width);
      LoadStep(s, ReadRecords(ItemRecords(prefix), width), ReadRecord(ItemRecord(name, region), width), t,
               ItemsLoaded(s, team, items, months, book[team]), book);
    }
  }

  lemma LoadStep(s: LoadState, rows: seq<seq<Value>>, row: seq<Value>, t: LoadState, u: LoadState, book: map<string, Table>)
    requires LoadFrom(s, rows, book) == Ok(t) && LoadRow(t, row, book) == Ok(u)
    ensures LoadFrom(s, rows + [row], book) == Ok(u)
  {
    LoadFromSnoc(s, rows, row, book);
  }

  lemma ItemRecordsSnoc(items: Dict<string, Region>, width: nat)
    requires items != []
    ensures ReadRecords(ItemRecords(items), width)
         == ReadRecords(ItemRecords(items[..|items| - 1]), width) + [ReadRecord(ItemRecord(items[|items| - 1].0, items[|items| - 1].1), width)]
  {
  }

  /** One more row read after the rows `rows`. */
  lemma LoadFromSnoc(s: LoadState, rows: seq<seq<Value>>, row: seq<Value>, book: map<string, Table>)
    ensures LoadFrom(s, rows + [row], book) == match LoadFrom(s, rows, book) case Err(e) => Err(e) case Ok(t) => LoadRow(t, row, book)
  {
    assert (rows + [row])[..|rows|] == rows;
  }

  /** The state reached after the records of `regions`, from `s` with no allocations yet. */
  function TeamsLoaded(s: LoadState, regions: Dict<string, Dict<string, Region>>, months: seq<Date>, book: map<string, Table>): LoadState
    requires Recordable(regions, |months|, book)
  {
    s.(index := s.index + |TeamRecords(regions)|,
       team := if regions == [] then s.team else Some(regions[|regions| - 1].0),
       allocations := TeamsRead(regions, months, book))
  }

  lemma TeamsLoadedStep(s: LoadState, regions: Dict<string, Dict<string, Region>>, months: seq<Date>, book: map<string, Table>)
    requires Recordable(regions, |months|, book) && regions != []
    ensures Recordable(regions[..|regions| - 1], |months|, book)
    ensures var team, items := regions[|regions| - 1].0, regions[|regions| - 1].1;
      var started := TeamStarted(TeamsLoaded(s, regions[..|regions| - 1], months, book), team);
      team != [] && team in book && team in started.allocations && ItemsRecordable(items, |months|, book[team])
      && ItemsLoaded(started, team, items, months, book[team]) == TeamsLoaded(s, regions, months, book)
  {
    var n := |regions|;
    RecordablePrefix(regions, months, book);
    TeamRecordsLength(regions);
  }

  lemma RecordablePrefix(regions: Dict<string, Dict<string, Region>>, months: seq<Date>, book: map<string, Table>)
    requires Recordable(regions, |months|, book) && regions != []
    ensures Recordable(regions[..|regions| - 1], |months|, book)
  {
    var n := |regions|;
    forall t | 0 <= t < n - 1 ensures regions[..n - 1][t] == regions[t] {}
  }

  lemma ItemsRecordablePrefix(items: Dict<string, Region>, months: nat, sheet: Table)
    requires ItemsRecordable(items, months, sheet) && items != []
    ensures ItemsRecordable(items[..|items| - 1], months, sheet)
  {
    var n := |items|;
    forall i | 0 <= i < n - 1 ensures items[..n - 1][i] == items[i] {}
  }

  /** A key that no later entry repeats keeps that property, and its entry, in the prefix without the last entry. */
  lemma LaterKeysPrefix<K, V>(d: seq<(K, V)>, p: seq<(K, V)>, i: int)
    requires 0 <= i < |d| - 1 && p == d[..|d| - 1] && forall j :: i < j < |d| ==> d[j].0 != d[i].0
    ensures p[i] == d[i] && forall j :: i < j < |p| ==> p[j].0 != p[i].0
  {
    forall j | i < j < |p| ensures p[j].0 != p[i].0 {
      assert p[j] == d[j];
    }
  }

  lemma TeamRecordsLength(regions: Dict<string, Dict<string, Region>>)
    requires regions != []
    ensures |TeamRecords(regions)| == |TeamRecords(regions[..|regions| - 1])| + 1 + |regions[|regions| - 1].1|
  {
  }

  lemma TeamRecordsSnoc(regions: Dict<string, Dict<string, Region>>, width: nat)
    requires regions != []
    ensures ReadRecords(TeamRecords(regions), width)
         == ReadRecords(TeamRecords(regions[..|regions| - 1]), width) + [ReadRecord(TeamRecord(regions[|regions| - 1].0), width)]
            + ReadRecords(ItemRecords(regions[|regions| - 1].1), width)
  {
    var n := |regions|;
    var team, items := regions[n - 1].0, regions[n - 1].1;
    var before := TeamRecords(regions[..n - 1]);
    assert TeamRecords(regions) == before + [TeamRecord(team)] + ItemRecords(items);
    ReadRecordsAppend(before + [TeamRecord(team)], ItemRecords(items), width);
    ReadRecordsAppend(before, [TeamRecord(team)], width);
    assert ReadRecords([TeamRecord(team)], width) == [ReadRecord(TeamRecord(team), width)];
  }

  /** A team's records fit wherever all of them do; so do its items', which have six values. */
  lemma TeamRecordsFit(regions: Dict<string, Dict<string, Region>>, width: nat)
    requires regions != [] && Fits(TeamRecords(regions), width)
    ensures Fits(TeamRecords(regions[..|regions| - 1]), width) && (regions[|regions| - 1].1 != [] ==> width >= 6)
  {
    var n := |regions|;
    var (team, items) := regions[n - 1];
    var before := TeamRecords(regions[..n - 1]);
    FitsParts(before + [TeamRecord(team)], ItemRecords(items), width);
    FitsParts(before, [TeamRecord(team)], width);
    if items != [] {
      assert ItemRecords(items)[0] == ItemRecord(items[0].0, items[0].1);
    }
  }

  lemma FitsParts(a: seq<seq<Value>>, b: seq<seq<Value>>, width: nat)
    requires Fits(a + b, width)
    ensures Fits(a, width) && Fits(b, width)
  {
    assert forall r :: 0 <= r < |a| ==> (a + b)[r] == a[r];
    assert forall r :: 0 <= r < |b| ==> (a + b)[|a| + r] == b[r];
  }

  lemma LoadChain(s: LoadState, a: seq<seq<Value>>, b: seq<seq<Value>>, t: LoadState, u: LoadState, book: map<string, Table>)
    requires LoadFrom(s, a, book) == Ok(t) && LoadFrom(t, b, book) == Ok(u)
    ensures LoadFrom(s, a + b, book) == Ok(u)
  {
    LoadFromAppend(s, a, b, book);
  }

  /** From a state in the section with no allocations yet, the team records load every team in turn. */
  lemma {:induction false} TeamRecordsLoad(s: LoadState, regions: Dict<string, Dict<string, Region>>, months: seq<Date>,
                                           book: map<string, Table>, width: nat)
    requires s.flag && s.index > 0 && s.months == Some(months) && s.allocations == map[]
    requires Recordable(regions, |months|, book) && Fits(TeamRecords(regions), width) && width >= 2
    ensures LoadFrom(s, ReadRecords(TeamRecords(regions), width), book) == Ok(TeamsLoaded(s, regions, months, book))
  {
    if regions != [] {
      var n := |regions|;
      var prefix := regions[..n - 1];
      var (team, items) := regions[n - 1];
      TeamsLoadedStep(s, regions, months, book);
      TeamRecordsSnoc(regions, width);
      TeamRecordsFit(regions, width);
      TeamRecordsLoad(s, prefix, months, book, width);
      var mid := TeamsLoaded(s, prefix, months, book);
      TeamRowLoads(mid, team, book, width);
      var started := TeamStarted(mid, team);
      LoadStep(s, ReadRecords(TeamRecords(prefix), width), ReadRecord(TeamRecord(team), width), mid, started, book);
      ItemRecordsLoad(started, team, items, months, book, width);
      LoadChain(s, ReadRecords(TeamRecords(prefix), width) + [ReadRecord(TeamRecord(team), width)], ReadRecords(ItemRecords(items), width),
                started, TeamsLoaded(s, regions, months, book), book);
    }
  }

  /**
   * Reading back a Meta sheet holding exactly what `save_metadata` wrote, padded to any width its
   * records fit in, gives every recorded team the values of its items' spans on its own sheet,
   * each with its month.
   */
  lemma SaveLoadRoundTrip(start: Date, end: Date, regions: Dict<string, Dict<string, Region>>, book: map<string, Table>, width: nat)
    requires start.Valid() && end.Valid()
    requires Recordable(regions, |MonthsRange(start, end)|, book)
    requires Fits(Records(start, end, regions), width)
    requires "Meta" in book
    requires book["Meta"] == TableOf(WrittenRows(map[], RecordRows(Records(start, end, regions))), |Records(start, end, regions)|, width)
    ensures Loaded(book) == Ok(TeamsRead(regions, MonthsRange(start, end), book))
  {
    var months := MonthsRange(start, end);
    HeadFits(start, end, regions, width);
    SavedTable(Records(start, end, regions), width);
    RecordsLoad(start, end, regions, book, width);
    LoadedMeta(book, TeamsLoaded(LoadState(3, true, Some(months), None, map[]), regions, months, book));
  }

  /** The period record has three values, so the records fit only in three columns or more. */
  lemma HeadFits(start: Date, end: Date, regions: Dict<string, Dict<string, Region>>, width: nat)
    requires start.Valid() && end.Valid() && Fits(Records(start, end, regions), width)
    ensures width >= 3
  {
    PeriodRecord(start, end, regions);
    FitsRow(Records(start, end, regions), width, 1);
  }

  lemma PeriodRecord(start: Date, end: Date, regions: Dict<string, Dict<string, Region>>)
    requires start.Valid() && end.Valid()
    ensures |Records(start, end, regions)| > 1 && |Records(start, end, regions)[1]| == 3
  {
    HeadShape(start, end);
    SecondOfConcat(HeadRecords(start, end), TeamRecords(regions), 3);
  }

  lemma HeadShape(start: Date, end: Date)
    requires start.Valid() && end.Valid()
    ensures |HeadRecords(start, end)| == 3 && |HeadRecords(start, end)[1]| == 3
  {
  }

  lemma SecondOfConcat<T>(a: seq<seq<T>>, b: seq<seq<T>>, n: nat)
    requires |a| > 1 && |a[1]| == n
    ensures |a + b| > 1 && |(a + b)[1]| == n
  {
  }

  lemma FitsRow(records: seq<seq<Value>>, width: nat, r: int)
    requires Fits(records, width) && 0 <= r < |records|
    ensures |records[r]| <= width
  {
  }

  lemma LoadedMeta(book: map<string, Table>, s: LoadState)
    requires "Meta" in book && LoadFrom(Initial, book["Meta"], book) == Ok(s)
    ensures Loaded(book) == Ok(s.allocations)
  {
  }

  /** The records read back take the reader from its initial state through every team. */
  lemma RecordsLoad(start: Date, end: Date, regions: Dict<string, Dict<string, Region>>, book: map<string, Table>, width: nat)
    requires start.Valid() && end.Valid() && width >= 3
    requires Recordable(regions, |MonthsRange(start, end)|, book)
    requires Fits(Records(start, end, regions), width)
    ensures LoadFrom(Initial, ReadRecords(Records(start, end, regions), width), book)
         == Ok(TeamsLoaded(LoadState(3, true, Some(MonthsRange(start, end)), None, map[]), regions, MonthsRange(start, end), book))
  {
    var head := HeadRecords(start, end);
    var months := MonthsRange(start, end);
    var s3 := LoadState(3, true, Some(months), None, map[]);
    FitsParts(head, TeamRecords(regions), width);
    ReadRecordsAppend(head, TeamRecords(regions), width);
    HeadLoads(start, end, book, width);
    TeamRecordsLoad(s3, regions, months, book, width);
    LoadChain(Initial, ReadRecords(head, width), ReadRecords(TeamRecords(regions), width), s3, TeamsLoaded(s3, regions, months, book), book);
  }

  // ---------------------------------------------------------------------------
  // What the round trip gives for one item

  /** The last record of an item name decides what is read back under that name. */
  lemma {:induction false} ItemsReadLast(base: map<string, ItemAllocation>, items: Dict<string, Region>, months: seq<Date>, sheet: Table, i: int)
    requires ItemsRecordable(items, |months|, sheet) && 0 <= i < |items|
    requires forall j :: i < j < |items| ==> items[j].0 != items[i].0
    ensures items[i].0 in ItemsRead(base, items, months, sheet)
    ensures ItemsRead(base, items, months, sheet)[items[i].0] == ItemAllocation(items[i].0, Zip(months, SpanValues(sheet, items[i].1)))
  {
    var n := |items|;
    if i < n - 1 {
      var prefix := items[..n - 1];
      ItemsRecordablePrefix(items, |months|, sheet);
      LaterKeysPrefix(items, prefix, i);
      ItemsReadLast(base, prefix, months, sheet, i);
      assert items[n - 1].0 != items[i].0;
    }
  }

  /** The last record of a team name decides that team's items as read back. */
  lemma {:induction false} TeamsReadLast(regions: Dict<string, Dict<string, Region>>, months: seq<Date>, book: map<string, Table>, t: int)
    requires Recordable(regions, |months|, book) && 0 <= t < |regions|
    requires forall j :: t < j < |regions| ==> regions[j].0 != regions[t].0
    ensures regions[t].0 in TeamsRead(regions, months, book)
    ensures TeamsRead(regions, months, book)[regions[t].0] == TeamAllocation(regions[t].0, ItemsRead(map[], regions[t].1, months, book[regions[t].0]))
  {
    var n := |regions|;
    if t < n - 1 {
      var prefix := regions[..n - 1];
      RecordablePrefix(regions, months, book);
      LaterKeysPrefix(regions, prefix, t);
      TeamsReadLast(prefix, months, book, t);
      assert regions[n - 1].0 != regions[t].0;
    }
  }

  /** A span within its row reads back as exactly its cells, in order, the `k`-th with the `k`-th month. */
  lemma SpanRead(sheet: Table, region: Region, months: seq<Date>)
    requires Placed(region.offset) && region.offset.row < |sheet| && 0 <= region.columns <= |months|
    requires region.offset.column + region.columns <= |sheet[region.offset.row]|
    ensures var stored := Zip(months, SpanValues(sheet, region));
      |stored| == region.columns
      && forall k :: 0 <= k < region.columns ==> stored[k] == (months[k], sheet[region.offset.row][region.offset.column + k])
  {
    SliceLength(sheet[region.offset.row], region.offset.column, region.columns);
  }

  /**
   * What the round trip reads back for item `i` of team `t` (the last records of those names): the
   * values of its span on the team's sheet, one per column, each with the month of its column.
   */
  lemma SpanValuesRead(regions: Dict<string, Dict<string, Region>>, months: seq<Date>, book: map<string, Table>, t: int, i: int)
    requires Recordable(regions, |months|, book)
    requires 0 <= t < |regions| && forall j :: t < j < |regions| ==> regions[j].0 != regions[t].0
    requires 0 <= i < |regions[t].1| && forall j :: i < j < |regions[t].1| ==> regions[t].1[j].0 != regions[t].1[i].0
    requires var region := regions[t].1[i].1;
      region.offset.column + region.columns <= |book[regions[t].0][region.offset.row]|
    ensures var team, name, region := regions[t].0, regions[t].1[i].0, regions[t].1[i].1;
      var read := TeamsRead(regions, months, book);
      team in read && name in read[team].items
      && var stored := read[team].items[name].allocations;
         |stored| == region.columns
         && forall k :: 0 <= k < region.columns ==> stored[k] == (months[k], book[team][region.offset.row][region.offset.column + k])
  {
    var team, items := regions[t].0, regions[t].1;
    TeamsReadLast(regions, months, book, t);
    ItemsReadLast(map[], items, months, book[team], i);
    SpanRead(book[team], items[i].1, months);
  }
}
