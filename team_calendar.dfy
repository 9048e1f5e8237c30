/**
 * The team calendar sheet of `plan_b/exporters/xlsx/team_calendar.py`: the capacity table (one
 * efficiency row per member and a row of monthly totals), the calendar table under it (working
 * time per month, one allocation row per release reference, the difference row and a summary),
 * and the re-application of allocations kept from a previous export.
 */
module TeamCalendar {
  import opened Wrappers
  import opened Dates
  import opened Layout
  import opened Teams
  import opened Dicts
  import opened Metadata
  import opened Plan
  import Text

  // ---------------------------------------------------------------------------
  // Formulas

  /** The formulas the calendar sheet writes, kept as syntax and rendered by FormulaText. */
  datatype Formula =
    | Copy(source: Pos)                                   // =source
    | Fifth(days: Pos)                                    // =days / 5
    | Product(left: Pos, right: Pos)                      // =left * right
    | VacationShare(total: Pos)                           // =total * 5 / 12
    | Remainder(whole: Pos, less: Pos, lesser: Pos)       // =whole-less-lesser
    | Sum(first: Pos, last: Pos)                          // =SUM(first:last)
    | Shortfall(available: Pos, first: Pos, last: Pos)    // =available-SUM(first:last)
    | Minus(left: Pos, right: Pos)                        // =left-right

  predicate FormulaPlaced(f: Formula) {
    match f
    case Copy(p) => Placed(p)
    case Fifth(p) => Placed(p)
    case Product(a, b) => Placed(a) && Placed(b)
    case VacationShare(p) => Placed(p)
    case Remainder(a, b, c) => Placed(a) && Placed(b) && Placed(c)
    case Sum(a, b) => Placed(a) && Placed(b)
    case Shortfall(a, b, c) => a.column >= 0 && b.column >= 0 && c.column >= 0
    case Minus(a, b) => Placed(a) && Placed(b)
  }

  /**
   * A reference that may lie above the first row. Such a reference is rendered the way older
   * XlsxWriter releases render it, with the row number printed as it is: row -3 of column B
   * reads `B-2`, which no cell answers to. Newer releases return `None` for it instead.
   */
  function CellText(p: Pos): (s: string)
    requires p.column >= 0
    ensures Placed(p) ==> s == ToCell(p)
  {
    if Placed(p) then ToCell(p)
    else
      var a1 := ColumnName(p.column) + Text.IntToString(p.row + 1);
      if OnNamedSheet(p) then "'" + p.sheet.value + "'!" + a1 else a1
  }

  /** The text of the formula as the sheet receives it. */
  function FormulaText(f: Formula): (s: string)
    requires FormulaPlaced(f)
    ensures |s| >= 2 && s[0] == '='
  {
    match f
    case Copy(p) => "=" + ToCell(p)
    case Fifth(p) => "=" + ToCell(p) + " / 5"
    case Product(a, b) => "=" + ToCell(a) + " * " + ToCell(b)
    case VacationShare(p) => "=" + ToCell(p) + " * 5 / 12"
    case Remainder(a, b, c) => "=" + ToCell(a) + "-" + ToCell(b) + "-" + ToCell(c)
    case Sum(a, b) => "=SUM(" + ToCell(a) + ":" + ToCell(b) + ")"
    case Shortfall(a, b, c) => "=" + CellText(a) + "-SUM(" + CellText(b) + ":" + CellText(c) + ")"
    case Minus(a, b) => "=" + ToCell(a) + "-" + ToCell(b)
  }

  /** The value handed to the sheet for a formula: its text, which the sheet stores as a formula. */
  function FormulaValue(f: Formula): (v: Value)
    requires FormulaPlaced(f)
    ensures Stored(v) == Formula(FormulaText(f))
  {
    Text(FormulaText(f))
  }

  function FormulaItem(f: Formula): RowItem
    requires FormulaPlaced(f)
  {
    Plain(FormulaValue(f))
  }

  /** A text element of a row. */
  function Label(s: string): seq<RowItem> {
    [Plain(Text(s))]
  }

  /**
   * The month header cells, one per month. The header shows the month as `strftime('%b/%Y')`
   * renders it; the cell here holds the month's date itself.
   */
  function MonthHeaders(months: seq<Date>): (r: seq<RowItem>)
    ensures |r| == |months| && forall i :: 0 <= i < |months| ==> r[i] == Plain(Day(months[i]))
  {
    seq(|months|, i requires 0 <= i < |months| => Plain(Day(months[i])))
  }

  predicate AllValid(months: seq<Date>) {
    forall i :: 0 <= i < |months| ==> months[i].Valid()
  }

  /** `get_months_range(start_date, end_date)`, whose months are all valid dates. */
  function Months(start: Date, end: Date): (months: seq<Date>)
    requires start.Valid() && end.Valid()
    ensures months == MonthsRange(start, end) && AllValid(months)
  {
    MonthsRangeValid(start, end);
    MonthsRange(start, end)
  }

  // ---------------------------------------------------------------------------
  // The capacity table

  predicate WellFormedWorkers(ws: seq<Worker>) {
    forall j :: 0 <= j < |ws| ==> WellFormedWorker(ws[j])
  }

  /** A to-be-hired worker without a start date: its efficiency cannot be computed. */
  predicate Unstarted(w: Worker) {
    w.TbhWorker? && w.worksSince.None?
  }

  /** The cell value of an efficiency: the number, or an empty cell for None. */
  function EfficiencyValue(e: Option<real>): Value {
    if e.Some? then Number(e.value) else Blank
  }

  /**
   * `worker.efficiency(dt)` for each month, the row of one member. It fails, at the first month,
   * exactly for a to-be-hired worker without a start date.
   */
  function EfficiencyCells(w: Worker, months: seq<Date>): (r: Result<seq<RowItem>>)
    requires WellFormedWorker(w) && AllValid(months)
    ensures r.Err? <==> months != [] && Unstarted(w)
    ensures r.Err? ==> r.error == MissingWorksSince(w.name)
    ensures r.Ok? ==> |r.value| == |months| && forall i :: 0 <= i < |months| ==>
      Efficiency(w, months[i]).Ok? && r.value[i] == Plain(EfficiencyValue(Efficiency(w, months[i]).value))
  {
    if months == [] then Ok([])
    else
      var first := Efficiency(w, months[0]);
      if first.Err? then Err(first.error)
      else
        var rest := EfficiencyCells(w, months[1..]);
        if rest.Err? then rest
        else
          var r := [Plain(EfficiencyValue(first.value))] + rest.value;
          assert forall i :: 1 <= i < |months| ==> r[i] == rest.value[i - 1] && months[i] == months[1..][i - 1];
          Ok(r)
  }

  /** Every member's efficiency can be computed for the months of the plan. */
  predicate Staffed(ws: seq<Worker>, months: seq<Date>) {
    months == [] || forall j :: 0 <= j < |ws| ==> !Unstarted(ws[j])
  }

  /** Member `j`'s two writes: the name in the table's first column, then the efficiencies. */
  function MemberRows(offset: Pos, j: int, w: Worker, cells: seq<RowItem>): seq<RowWrite> {
    [RowWrite(Pos(offset.row + 1 + j, offset.column, None), Label(w.name), None),
     RowWrite(Pos(offset.row + 1 + j, offset.column + 1, None), cells, Some(NumericFormat))]
  }

  /** The member rows, one under another from the row under the header. */
  function MembersRows(offset: Pos, ws: seq<Worker>, months: seq<Date>): (r: seq<RowWrite>)
    requires WellFormedWorkers(ws) && AllValid(months) && Staffed(ws, months)
    ensures |r| == 2 * |ws|
  {
    if ws == [] then []
    else
      var n := |ws| - 1;
      assert Staffed(ws[..n], months) && WellFormedWorkers(ws[..n]);
      MembersRows(offset, ws[..n], months) + MemberRows(offset, n, ws[n], EfficiencyCells(ws[n], months).value)
  }

  /** The monthly totals: in the column `col` the exporter writes to, the SUM over the member rows. */
  function CapacityTotals(offset: Pos, members: nat, count: nat): (r: seq<RowItem>)
    requires Placed(offset)
    ensures |r| == count
  {
    seq(count, i requires 0 <= i < count =>
      var col := offset.column + 1 + i;
      FormulaItem(Sum(RelPos(offset, 1, col, None), RelPos(offset, members, col, None))))
  }

  /** The header of the capacity table: 'People', then one column per month. */
  function CapacityHead(offset: Pos, months: seq<Date>): seq<RowWrite> {
    [RowWrite(Pos(offset.row, offset.column, None), Label("People"), Some(GreenHeaderFormat)),
     RowWrite(RelPos(offset, 0, 1, None), MonthHeaders(months), Some(GreenHeaderFormat))]
  }

  /** The total row: 'Total' in column 0 of the sheet, then the monthly totals. */
  function CapacityTail(offset: Pos, members: nat, count: nat): seq<RowWrite>
    requires Placed(offset)
  {
    [RowWrite(Pos(offset.row + members + 1, 0, None), Label("Total"), Some(TotalFormat)),
     RowWrite(RelPos(offset, members + 1, 1, None), CapacityTotals(offset, members, count), Some(TotalFormat))]
  }

  /** Everything `_create_team_capacity_table` writes, in order. */
  function CapacityRows(offset: Pos, ws: seq<Worker>, months: seq<Date>): seq<RowWrite>
    requires Placed(offset) && WellFormedWorkers(ws) && AllValid(months) && Staffed(ws, months)
  {
    CapacityHead(offset, months) + MembersRows(offset, ws, months) + CapacityTail(offset, |ws|, |months|)
  }

  /**
   * `_create_team_capacity_table`. It fails when some member's efficiency cannot be computed
   * (a to-be-hired worker without a start date, with at least one month in the plan); otherwise
   * it returns the region of the header, member and total rows, anchored at the sheet's origin.
   */
  method CreateTeamCapacityTable(sheet: Sheet, start: Date, end: Date, team: Team, offset: Pos) returns (r: Result<Region>)
    requires Placed(offset) && start.Valid() && end.Valid() && WellFormedWorkers(team.members)
    modifies sheet
    ensures r.Err? <==> !Staffed(team.members, Months(start, end))
    ensures r.Err? ==>
      exists j :: 0 <= j < |team.members| && Unstarted(team.members[j]) && r.error == MissingWorksSince(team.members[j].name)
    ensures r.Ok? ==> r.value == Region(Pos(0, 0, None), 2 + |team.members|, |Months(start, end)|)
    ensures r.Ok? ==> sheet.cells == WrittenRows(old(sheet.cells), CapacityRows(offset, team.members, Months(start, end)))
    ensures r.Ok? ==> sheet.widths == old(sheet.widths) && sheet.merges == old(sheet.merges)
  {
    var months := Months(start, end);
    var columnCount := PutCapacityHead(sheet, offset, months);
    ghost var afterHead := sheet.cells;
    var written := WriteMemberRows(sheet, offset, team.members, months);
    if written.Err? {
      return Err(written.error);
    }
    ghost var afterMembers := sheet.cells;
    PutCapacityTail(sheet, offset, |team.members|, columnCount);
    WrittenRowsThree(old(sheet.cells), CapacityHead(offset, months), MembersRows(offset, team.members, months),
                     CapacityTail(offset, |team.members|, columnCount));
    return Ok(Region(Pos(0, 0, None), 2 + |team.members|, columnCount));
  }

  /** The header writes of `_create_team_capacity_table`; returns the month column count. */
  method PutCapacityHead(sheet: Sheet, offset: Pos, months: seq<Date>) returns (columnCount: nat)
    modifies sheet
    ensures columnCount == |months|
    ensures sheet.cells == WrittenRows(old(sheet.cells), CapacityHead(offset, months))
    ensures sheet.widths == old(sheet.widths) && sheet.merges == old(sheet.merges)
  {
    var head := CapacityHead(offset, months);
    PutLabelled(sheet, head[0], head[1]);
    assert [head[0], head[1]] == head;
    return |months|;
  }

  /** The total writes of `_create_team_capacity_table`. */
  method PutCapacityTail(sheet: Sheet, offset: Pos, members: nat, columnCount: nat)
    requires Placed(offset)
    modifies sheet
    ensures sheet.cells == WrittenRows(old(sheet.cells), CapacityTail(offset, members, columnCount))
    ensures sheet.widths == old(sheet.widths) && sheet.merges == old(sheet.merges)
  {
    var tail := CapacityTail(offset, members, columnCount);
    PutLabelled(sheet, tail[0], tail[1]);
    assert [tail[0], tail[1]] == tail;
  }

  /** The member loop of `_create_team_capacity_table`: a name and an efficiency row per member. */
  method WriteMemberRows(sheet: Sheet, offset: Pos, ws: seq<Worker>, months: seq<Date>) returns (r: Result<()>)
    requires WellFormedWorkers(ws) && AllValid(months)
    modifies sheet
    ensures r.Err? <==> !Staffed(ws, months)
    ensures r.Err? ==> exists j :: 0 <= j < |ws| && Unstarted(ws[j]) && r.error == MissingWorksSince(ws[j].name)
    ensures r.Ok? ==> sheet.cells == WrittenRows(old(sheet.cells), MembersRows(offset, ws, months))
    ensures r.Ok? ==> sheet.widths == old(sheet.widths) && sheet.merges == old(sheet.merges)
  {
    for j := 0 to |ws|
      invariant Staffed(ws[..j], months)
      invariant sheet.cells == WrittenRows(old(sheet.cells), MembersRows(offset, ws[..j], months))
      invariant sheet.widths == old(sheet.widths) && sheet.merges == old(sheet.merges)
    {
      var cells := EfficiencyCells(ws[j], months);
      if cells.Err? {
        return Err(cells.error);
      }
      MembersRowsStep(offset, ws, months, j);
      ghost var before := MembersRows(offset, ws[..j], months);
      PutMemberRows(sheet, offset, j, ws[j], cells.value);
      WrittenRowsAppend(old(sheet.cells), before, MemberRows(offset, j, ws[j], cells.value));
    }
    assert ws[..|ws|] == ws;
    return Ok(());
  }

  /** The member rows of the first `j + 1` members: those of the first `j`, then member `j`'s. */
  lemma MembersRowsStep(offset: Pos, ws: seq<Worker>, months: seq<Date>, j: int)
    requires 0 <= j < |ws| && WellFormedWorkers(ws) && AllValid(months)
    requires Staffed(ws[..j], months) && EfficiencyCells(ws[j], months).Ok?
    ensures Staffed(ws[..j + 1], months)
    ensures MembersRows(offset, ws[..j + 1], months)
      == MembersRows(offset, ws[..j], months) + MemberRows(offset, j, ws[j], EfficiencyCells(ws[j], months).value)
  {
    assert ws[..j + 1][..j] == ws[..j];
    assert months == [] || !Unstarted(ws[j]);
    assert forall k :: 0 <= k < j ==> ws[..j + 1][k] == ws[..j][k];
  }

  /** One pass of the member loop of `_create_team_capacity_table`. */
  method PutMemberRows(sheet: Sheet, offset: Pos, j: int, w: Worker, cells: seq<RowItem>)
    modifies sheet
    ensures sheet.cells == WrittenRows(old(sheet.cells), MemberRows(offset, j, w, cells))
    ensures sheet.widths == old(sheet.widths) && sheet.merges == old(sheet.merges)
  {
    var rows := MemberRows(offset, j, w, cells);
    PutLabelled(sheet, rows[0], rows[1]);
    assert [rows[0], rows[1]] == rows;
  }

  // ---------------------------------------------------------------------------
  // The calendar table: working time per month

  /** The seven rows under the calendar's month header, in order. */
  datatype Line = People | WorkingDays | WorkingWeeks | ManWeeks | Vacations | Support | Remaining

  /** The row of a line, counted from the calendar's month header row. */
  function LineIndex(l: Line): int {
    match l
    case People => 1
    case WorkingDays => 2
    case WorkingWeeks => 3
    case ManWeeks => 4
    case Vacations => 5
    case Support => 6
    case Remaining => 7
  }

  function LineLabel(l: Line): string {
    match l
    case People => "People"
    case WorkingDays => "Working days"
    case WorkingWeeks => "Working weeks"
    case ManWeeks => "Man * weeks"
    case Vacations => "Vacations"
    case Support => "Support tasks"
    case Remaining => "Remaining"
  }

  function LabelFormat(l: Line): Option<Format> {
    if l == Remaining then Some(TotalFormat) else None
  }

  function LineFormat(l: Line): Option<Format> {
    match l
    case WorkingDays => None
    case WorkingWeeks => None
    case Remaining => Some(TotalFormat)
    case _ => Some(NumericFormat)
  }

  /**
   * The cell of line `l` in the month column `col`, for a calendar whose month header row is
   * `offset.row`, under a capacity table whose monthly totals are on row `totalsRow`; `days` is
   * the month's working-day count.
   */
  function LineValue(l: Line, offset: Pos, totalsRow: int, days: nat, col: int): Value
    requires Placed(offset) && totalsRow >= 0 && col >= 0
  {
    match l
    case People => FormulaValue(Copy(Pos(totalsRow, col, None)))
    case WorkingDays => Whole(days)
    case WorkingWeeks => FormulaValue(Fifth(Pos(offset.row + 2, col, None)))
    case ManWeeks => FormulaValue(Product(Pos(offset.row + 1, col, None), Pos(offset.row + 3, col, None)))
    case Vacations => FormulaValue(VacationShare(Pos(totalsRow, col, None)))
    case Support => Number(1.5)
    case Remaining =>
      FormulaValue(Remainder(Pos(offset.row + 4, col, None), Pos(offset.row + 5, col, None), Pos(offset.row + 6, col, None)))
  }

  function LineItems(l: Line, offset: Pos, totalsRow: int, days: seq<nat>): (r: seq<RowItem>)
    requires Placed(offset) && totalsRow >= 0
    ensures |r| == |days|
    ensures forall i :: 0 <= i < |days| ==> r[i] == Plain(LineValue(l, offset, totalsRow, days[i], offset.column + 1 + i))
  {
    seq(|days|, i requires 0 <= i < |days| => Plain(LineValue(l, offset, totalsRow, days[i], offset.column + 1 + i)))
  }

  /** A line's two writes: its label in the calendar's first column, then one cell per month. */
  function LineRows(l: Line, offset: Pos, totalsRow: int, days: seq<nat>): seq<RowWrite>
    requires Placed(offset) && totalsRow >= 0
  {
    [RowWrite(Pos(offset.row + LineIndex(l), offset.column, None), Label(LineLabel(l)), LabelFormat(l)),
     RowWrite(RelPos(offset, LineIndex(l), 1, None), LineItems(l, offset, totalsRow, days), LineFormat(l))]
  }

  /** The calendar's header row: an empty corner cell, then the months. */
  function CalendarHeader(offset: Pos, months: seq<Date>): seq<RowWrite> {
    [RowWrite(Pos(offset.row, offset.column, None), Label(""), Some(GreenHeaderFormat)),
     RowWrite(RelPos(offset, 0, 1, None), MonthHeaders(months), Some(GreenHeaderFormat))]
  }

  /** The line `k` rows under the calendar's month header. */
  function LineAt(k: int): (l: Line)
    requires 1 <= k <= 7
    ensures LineIndex(l) == k
  {
    if k == 1 then People
    else if k == 2 then WorkingDays
    else if k == 3 then WorkingWeeks
    else if k == 4 then ManWeeks
    else if k == 5 then Vacations
    else if k == 6 then Support
    else Remaining
  }

  /** The writes of the first `k` lines, in order; every one lands on the row of its line. */
  function LinesThrough(offset: Pos, totalsRow: int, days: seq<nat>, k: int): (r: seq<RowWrite>)
    requires Placed(offset) && totalsRow >= 0 && 0 <= k <= 7
    ensures |r| == 2 * k
    ensures forall q :: 0 <= q < |r| ==> 2 * (r[q].at.row - offset.row - 1) <= q <= 2 * (r[q].at.row - offset.row) - 1
  {
    if k == 0 then [] else LinesThrough(offset, totalsRow, days, k - 1) + LineRows(LineAt(k), offset, totalsRow, days)
  }

  /** The working-time part of the calendar: the header and the seven lines. */
  function CalendarLines(offset: Pos, months: seq<Date>, totalsRow: int, days: seq<nat>): seq<RowWrite>
    requires Placed(offset) && totalsRow >= 0
  {
    CalendarHeader(offset, months) + LinesThrough(offset, totalsRow, days, 7)
  }

  /** The production calendar has an entry for every month of the plan. */
  predicate Covered(cal: ProductionCalendar, months: seq<Date>) {
    forall i :: 0 <= i < |months| ==> HasMonth(cal, months[i])
  }

  /** `get_month_workdays_count(...)[d]` for each month `d` of the plan, in order. */
  function MonthDays(months: seq<Date>, start: Date, end: Date, cal: ProductionCalendar): (r: seq<nat>)
    requires AllValid(months) && Covered(cal, months)
    ensures |r| == |months|
  {
    seq(|months|, i requires 0 <= i < |months| => WorkdaysInMonth(months[i], start, end, MonthOf(cal, months[i])))
  }

  /** One `sheet.write` of a line label and the `write_row` of its cells. */
  method PutLine(sheet: Sheet, l: Line, offset: Pos, totalsRow: int, days: seq<nat>)
    requires Placed(offset) && totalsRow >= 0
    modifies sheet
    ensures sheet.cells == WrittenRows(old(sheet.cells), LineRows(l, offset, totalsRow, days))
    ensures sheet.widths == old(sheet.widths) && sheet.merges == old(sheet.merges)
  {
    var rows := LineRows(l, offset, totalsRow, days);
    PutLabelled(sheet, rows[0], rows[1]);
    assert [rows[0], rows[1]] == rows;
  }

  /**
   * The working-time rows of `_create_team_calendar_table`. It fails when the production calendar
   * misses a month of the plan, naming the first one.
   */
  method WriteCalendarLines(sheet: Sheet, offset: Pos, start: Date, end: Date, cal: ProductionCalendar, totalsRow: int)
    returns (r: Result<seq<nat>>)
    requires Placed(offset) && totalsRow >= 0 && start.Valid() && end.Valid()
    modifies sheet
    ensures var months := Months(start, end);
      r.Err? <==> !Covered(cal, months)
    ensures var months := Months(start, end);
      r.Err? ==> exists k :: 0 <= k < |months| && !HasMonth(cal, months[k]) && r.error == MissingCalendarMonth(months[k].year, months[k].month)
    ensures r.Ok? ==> r.value == MonthDays(Months(start, end), start, end, cal)
    ensures r.Ok? ==> sheet.cells == WrittenRows(old(sheet.cells), CalendarLines(offset, Months(start, end), totalsRow, r.value))
    ensures r.Ok? ==> sheet.widths == old(sheet.widths) && sheet.merges == old(sheet.merges)
  {
    var months := Months(start, end);
    PutCalendarHeader(sheet, offset, months);
    PutLine(sheet, People, offset, totalsRow, seq(|months|, _ => 0));
    var counts := WorkdayCounts(start, end, cal);
    if counts.Err? {
      return Err(counts.error);
    }
    var days := counts.value;
    PeopleIgnoresDays(offset, totalsRow, seq(|months|, _ => 0), days);
    WrittenRowsAppend(old(sheet.cells), CalendarHeader(offset, months), LineRows(People, offset, totalsRow, days));
    assert LinesThrough(offset, totalsRow, days, 1) == [] + LineRows(People, offset, totalsRow, days);
    PutWorkingLines(sheet, offset, totalsRow, days, WrittenRows(old(sheet.cells), CalendarHeader(offset, months)));
    WrittenRowsAppend(old(sheet.cells), CalendarHeader(offset, months), LinesThrough(offset, totalsRow, days, 7));
    return Ok(days);
  }

  /** `get_month_workdays_count`, read back month by month in the order of the plan. */
  method WorkdayCounts(start: Date, end: Date, cal: ProductionCalendar) returns (r: Result<seq<nat>>)
    requires start.Valid() && end.Valid()
    ensures var months := Months(start, end);
      r.Err? <==> !Covered(cal, months)
    ensures var months := Months(start, end);
      r.Err? ==> exists k :: 0 <= k < |months| && !HasMonth(cal, months[k]) && r.error == MissingCalendarMonth(months[k].year, months[k].month)
    ensures r.Ok? ==> r.value == MonthDays(Months(start, end), start, end, cal)
  {
    var months := Months(start, end);
    var counts := MonthWorkdaysCount(start, end, cal);
    if counts.Err? {
      return Err(counts.error);
    }
    assert Covered(cal, months);
    return Ok(seq(|months|, i requires 0 <= i < |months| => counts.value[months[i]]));
  }

  /** The people line refers to the capacity totals and does not depend on the day counts. */
  lemma PeopleIgnoresDays(offset: Pos, totalsRow: int, d1: seq<nat>, d2: seq<nat>)
    requires Placed(offset) && totalsRow >= 0 && |d1| == |d2|
    ensures LineRows(People, offset, totalsRow, d1) == LineRows(People, offset, totalsRow, d2)
  {
    assert LineItems(People, offset, totalsRow, d1) == LineItems(People, offset, totalsRow, d2);
  }

  /**
   * The six line writes of `_create_team_calendar_table` from the working days down, on a sheet
   * that holds `base` with the people line written over it.
   */
  method PutWorkingLines(sheet: Sheet, offset: Pos, totalsRow: int, days: seq<nat>, ghost base: map<(int, int), Cell>)
    requires Placed(offset) && totalsRow >= 0
    requires sheet.cells == WrittenRows(base, LinesThrough(offset, totalsRow, days, 1))
    modifies sheet
    ensures sheet.cells == WrittenRows(base, LinesThrough(offset, totalsRow, days, 7))
    ensures sheet.widths == old(sheet.widths) && sheet.merges == old(sheet.merges)
  {
    PutNextLine(sheet, offset, totalsRow, days, base, 2);
    PutNextLine(sheet, offset, totalsRow, days, base, 3);
    PutNextLine(sheet, offset, totalsRow, days, base, 4);
    PutNextLine(sheet, offset, totalsRow, days, base, 5);
    PutNextLine(sheet, offset, totalsRow, days, base, 6);
    PutNextLine(sheet, offset, totalsRow, days, base, 7);
  }

  /** Line `k` written after the lines above it. */
  method PutNextLine(sheet: Sheet, offset: Pos, totalsRow: int, days: seq<nat>, ghost base: map<(int, int), Cell>, k: int)
    requires Placed(offset) && totalsRow >= 0 && 2 <= k <= 7
    requires sheet.cells == WrittenRows(base, LinesThrough(offset, totalsRow, days, k - 1))
    modifies sheet
    ensures sheet.cells == WrittenRows(base, LinesThrough(offset, totalsRow, days, k))
    ensures sheet.widths == old(sheet.widths) && sheet.merges == old(sheet.merges)
  {
    PutLine(sheet, LineAt(k), offset, totalsRow, days);
    WrittenRowsAppend(base, LinesThrough(offset, totalsRow, days, k - 1), LineRows(LineAt(k), offset, totalsRow, days));
  }

  /** The header row of `_create_team_calendar_table`. */
  method PutCalendarHeader(sheet: Sheet, offset: Pos, months: seq<Date>)
    modifies sheet
    ensures sheet.cells == WrittenRows(old(sheet.cells), CalendarHeader(offset, months))
    ensures sheet.widths == old(sheet.widths) && sheet.merges == old(sheet.merges)
  {
    var rows := CalendarHeader(offset, months);
    PutLabelled(sheet, rows[0], rows[1]);
    assert [rows[0], rows[1]] == rows;
  }

  // ---------------------------------------------------------------------------
  // The calendar table: allocations, difference and summary

  /** One title per release reference, the j-th on row `at.row + j` of the calendar's first column. */
  function AllocationRows(at: Pos, refs: seq<CellReference>): (r: seq<RowWrite>)
    ensures |r| == |refs|
    ensures forall j :: 0 <= j < |refs| ==> r[j] == RowWrite(Pos(at.row + j, at.column, None), Label(refs[j].title), None)
  {
    seq(|refs|, j requires 0 <= j < |refs| => RowWrite(Pos(at.row + j, at.column, None), Label(refs[j].title), None))
  }

  /** The allocation row of reference `j`: from its title cell, one row high and `columns` wide. */
  function AllocationRegion(at: Pos, j: int, columns: int): Region {
    Region(Pos(at.row + j, at.column, None), 1, columns)
  }

  /**
   * `time_allocation_cells_by_item`: the regions by reference title, in order of first appearance
   * (`AllocationRegionsTitles`: every title is a key; `AllocationRegionsUnique`: no title is listed
   * twice; `AllocationRegionsEntries`: each entry is the region of a reference with that title).
   */
  function AllocationRegions(at: Pos, refs: seq<CellReference>, columns: int): Dict<string, Region> {
    if refs == [] then []
    else
      var n := |refs| - 1;
      Put(AllocationRegions(at, refs[..n], columns), refs[n].title, AllocationRegion(at, n, columns))
  }

  /** Every title of `refs` is a key of the allocation regions. */
  lemma {:induction false} AllocationRegionsTitles(at: Pos, refs: seq<CellReference>, columns: int)
    ensures forall j :: 0 <= j < |refs| ==> refs[j].title in Keys(AllocationRegions(at, refs, columns))
  {
    if refs != [] {
      var n := |refs| - 1;
      AllocationRegionsTitles(at, refs[..n], columns);
      assert forall j :: 0 <= j < n ==> refs[..n][j] == refs[j];
    }
  }

  /** No title is listed twice among the allocation regions. */
  lemma {:induction false} AllocationRegionsUnique(at: Pos, refs: seq<CellReference>, columns: int)
    ensures UniqueKeys(AllocationRegions(at, refs, columns))
  {
    if refs != [] {
      var n := |refs| - 1;
      AllocationRegionsUnique(at, refs[..n], columns);
      PutUnique(AllocationRegions(at, refs[..n], columns), refs[n].title, AllocationRegion(at, n, columns));
    }
  }

  /** Every entry of the allocation regions is the title and the region of some reference. */
  lemma {:induction false} AllocationRegionsEntries(at: Pos, refs: seq<CellReference>, columns: int)
    ensures forall e :: e in AllocationRegions(at, refs, columns) ==>
      exists j :: 0 <= j < |refs| && e == (refs[j].title, AllocationRegion(at, j, columns))
  {
    if refs != [] {
      var n := |refs| - 1;
      var before := AllocationRegions(at, refs[..n], columns);
      AllocationRegionsEntries(at, refs[..n], columns);
      forall e | e in AllocationRegions(at, refs, columns)
        ensures exists j :: 0 <= j < |refs| && e == (refs[j].title, AllocationRegion(at, j, columns))
      {
        if e in before {
          var j :| 0 <= j < n && e == (refs[..n][j].title, AllocationRegion(at, j, columns));
          assert refs[..n][j] == refs[j];
        } else {
          assert e == (refs[n].title, AllocationRegion(at, n, columns));
        }
      }
    }
  }

  /** A title repeated in `refs` maps to the region of its last reference. */
  lemma {:induction false} AllocationRegionsGet(at: Pos, refs: seq<CellReference>, columns: int, k: int)
    requires 0 <= k < |refs|
    requires forall j :: k < j < |refs| ==> refs[j].title != refs[k].title
    ensures Get(AllocationRegions(at, refs, columns), refs[k].title) == Some(AllocationRegion(at, k, columns))
  {
    var n := |refs| - 1;
    var before := AllocationRegions(at, refs[..n], columns);
    var t := refs[k].title;
    assert AllocationRegions(at, refs, columns) == Put(before, refs[n].title, AllocationRegion(at, n, columns));
    PutGet(before, refs[n].title, AllocationRegion(at, n, columns), t);
    if k < n {
      assert refs[..n][k] == refs[k];
      AllocationRegionsGet(at, refs[..n], columns, k);
      assert refs[n].title != t;
    }
  }

  /** The allocation loop of `_create_team_calendar_table`. */
  method WriteAllocationRows(sheet: Sheet, at: Pos, refs: seq<CellReference>, columns: int)
    returns (regions: Dict<string, Region>)
    modifies sheet
    ensures regions == AllocationRegions(at, refs, columns)
    ensures sheet.cells == WrittenRows(old(sheet.cells), AllocationRows(at, refs))
    ensures sheet.widths == old(sheet.widths) && sheet.merges == old(sheet.merges)
  {
    regions := [];
    ghost var rows := AllocationRows(at, refs);
    var rowCount := 0;
    while rowCount < |refs|
      invariant 0 <= rowCount <= |refs|
      invariant regions == AllocationRegions(at, refs[..rowCount], columns)
      invariant sheet.cells == WrittenRows(old(sheet.cells), rows[..rowCount])
      invariant sheet.widths == old(sheet.widths) && sheet.merges == old(sheet.merges)
    {
      PutAllocationTitle(sheet, at, refs, rowCount);
      WrittenRowsStep(old(sheet.cells), rows, rowCount);
      AllocationRegionsStep(at, refs, columns, rowCount);
      regions := Put(regions, refs[rowCount].title, AllocationRegion(at, rowCount, columns));
      rowCount := rowCount + 1;
    }
    assert refs[..|refs|] == refs && rows[..|refs|] == rows;
  }

  /** One title cell of the allocation loop. */
  method PutAllocationTitle(sheet: Sheet, at: Pos, refs: seq<CellReference>, j: int)
    requires 0 <= j < |refs|
    modifies sheet
    ensures sheet.cells == WrittenRows(old(sheet.cells), [AllocationRows(at, refs)[j]])
    ensures sheet.widths == old(sheet.widths) && sheet.merges == old(sheet.merges)
  {
    var allocationPos := RelPos(at, j, 0, None);
    PutCell(sheet, allocationPos.row, allocationPos.column, Text(refs[j].title), None);
  }

  lemma AllocationRegionsStep(at: Pos, refs: seq<CellReference>, columns: int, j: int)
    requires 0 <= j < |refs|
    ensures AllocationRegions(at, refs[..j + 1], columns)
      == Put(AllocationRegions(at, refs[..j], columns), refs[j].title, AllocationRegion(at, j, columns))
  {
    assert refs[..j + 1][..j] == refs[..j];
  }

  /**
   * The difference cells: in column `at.column + c`, the row `releases + 1` rows up minus the SUM
   * of the `releases` rows directly above.
   */
  function DifferenceItems(at: Pos, releases: nat, count: nat): (r: seq<RowItem>)
    requires Placed(at)
    ensures |r| == count
  {
    seq(count, i requires 0 <= i < count =>
      FormulaItem(DifferenceFormula(at, releases, i + 1)))
  }

  /** The difference formula of column `at.column + c`. */
  function DifferenceFormula(at: Pos, releases: nat, c: int): (f: Formula)
    requires Placed(at) && c >= 0
    ensures FormulaPlaced(f)
  {
    Shortfall(RelPos(at, -(releases as int) - 1, c, None), RelPos(at, -(releases as int), c, None), RelPos(at, -1, c, None))
  }

  /** The difference row: 'Difference' in column 0 of the sheet, then one cell per month. */
  function DifferenceRows(at: Pos, releases: nat, count: nat): (r: seq<RowWrite>)
    requires Placed(at)
    ensures |r| == 2 && r[0].at.row == at.row && r[1].at.row == at.row
  {
    [RowWrite(Pos(at.row, 0, None), Label("Difference"), Some(TotalFormat)),
     RowWrite(Pos(at.row, at.column + 1, None), DifferenceItems(at, releases, count), Some(TotalFormat))]
  }

  /**
   * The difference row of `_create_team_calendar_table`: the label, then one `sheet.write` per
   * month column, which writes the cells a `write_row` of the formulas writes.
   */
  method PutDifferenceRow(sheet: Sheet, at: Pos, releases: nat, count: nat)
    requires Placed(at)
    modifies sheet
    ensures sheet.cells == WrittenRows(old(sheet.cells), DifferenceRows(at, releases, count))
    ensures sheet.widths == old(sheet.widths) && sheet.merges == old(sheet.merges)
  {
    var rows := DifferenceRows(at, releases, count);
    PutLabelled(sheet, rows[0], rows[1]);
    assert [rows[0], rows[1]] == rows;
  }

  /** The summary header row. */
  function SummaryHeader(at: Pos): RowWrite {
    RowWrite(at, [Plain(Text("Item")), Plain(Text("Needed")), Plain(Text("Allocated")), Plain(Text("Diff"))], Some(GreenHeaderFormat))
  }

  /** Every title of `refs` has a region in `regions`, and every recorded region starts on the sheet. */
  predicate Indexed(regions: Dict<string, Region>, refs: seq<CellReference>) {
    (forall j :: 0 <= j < |refs| ==> refs[j].title in Keys(regions)) &&
    (forall e :: e in regions ==> Placed(e.1.offset))
  }

  /** The allocation regions index every reference they were built from. */
  lemma AllocationRegionsIndexed(at: Pos, refs: seq<CellReference>, columns: int)
    requires Placed(at)
    ensures Indexed(AllocationRegions(at, refs, columns), refs)
  {
    var r := AllocationRegions(at, refs, columns);
    AllocationRegionsEntries(at, refs, columns);
    forall e | e in r
      ensures Placed(e.1.offset)
    {
      var j :| 0 <= j < |refs| && e == (refs[j].title, AllocationRegion(at, j, columns));
    }
  }

  /**
   * The summary row of a reference on row `rowAt`: its title, the needed total it refers to, the
   * SUM over its allocation row from `allocation` to `count` columns right of it, and the
   * allocated minus the needed.
   */
  function SummaryRow(rowAt: Pos, ref: CellReference, allocation: Pos, count: nat): RowWrite
    requires Placed(rowAt) && Placed(ref.pos) && Placed(allocation)
  {
    RowWrite(rowAt,
      [Plain(Text(ref.title)),
       FormulaItem(Copy(ref.pos)),
       FormulaItem(Sum(allocation, RelPos(allocation, 0, count, None))),
       FormulaItem(Minus(RelPos(rowAt, 0, 2, None), RelPos(rowAt, 0, 1, None)))],
      Some(NumericFormat))
  }

  /** One summary row per reference, the j-th on row `at.row + j`. */
  function SummaryRows(at: Pos, refs: seq<CellReference>, regions: Dict<string, Region>, count: nat): (r: seq<RowWrite>)
    requires Placed(at) && RefsPlaced(refs) && Indexed(regions, refs)
    ensures |r| == |refs|
  {
    seq(|refs|, j requires 0 <= j < |refs| =>
      SummaryRow(RelPos(at, j, 0, None), refs[j], Get(regions, refs[j].title).value.offset, count))
  }

  /** Summary row `j` sums the region its title reads in `regions`. */
  lemma SummaryRowsAt(at: Pos, refs: seq<CellReference>, regions: Dict<string, Region>, count: nat, j: int, region: Region)
    requires Placed(at) && RefsPlaced(refs) && Indexed(regions, refs) && 0 <= j < |refs|
    requires Get(regions, refs[j].title) == Some(region)
    ensures Placed(region.offset)
    ensures SummaryRows(at, refs, regions, count)[j] == SummaryRow(RelPos(at, j, 0, None), refs[j], region.offset, count)
  {
  }

  /** The summary loop of `_create_team_calendar_table`. */
  method WriteSummaryRows(sheet: Sheet, at: Pos, refs: seq<CellReference>, regions: Dict<string, Region>, count: nat)
    requires Placed(at) && RefsPlaced(refs) && Indexed(regions, refs)
    modifies sheet
    ensures sheet.cells == WrittenRows(old(sheet.cells), SummaryRows(at, refs, regions, count))
    ensures sheet.widths == old(sheet.widths) && sheet.merges == old(sheet.merges)
  {
    ghost var rows := SummaryRows(at, refs, regions, count);
    var rowCount := 0;
    while rowCount < |refs|
      invariant 0 <= rowCount <= |refs|
      invariant sheet.cells == WrittenRows(old(sheet.cells), rows[..rowCount])
      invariant sheet.widths == old(sheet.widths) && sheet.merges == old(sheet.merges)
    {
      var rowOffset := RelPos(at, rowCount, 0, None);
      var allocationPos := Get(regions, refs[rowCount].title).value.offset;
      PutRow(sheet, SummaryRow(rowOffset, refs[rowCount], allocationPos, count), None);
      WrittenRowsStep(old(sheet.cells), rows, rowCount);
      rowCount := rowCount + 1;
    }
    assert rows[..|refs|] == rows;
  }

  /** Where the parts of the calendar table start, for a table whose month header row is `offset`. */
  function AllocationsAt(offset: Pos): Pos { RelPos(offset, 8, 0, None) }

  function DifferenceAt(offset: Pos, refs: seq<CellReference>): Pos { RelPos(AllocationsAt(offset), |refs|, 0, None) }

  function SummaryAt(offset: Pos, refs: seq<CellReference>, releases: nat): Pos {
    RelPos(DifferenceAt(offset, refs), releases, 0, None)
  }

  /**
   * The summary writes: the header on row `SummaryAt`, then one row per reference under it, each
   * summing the allocation row `regions` records for its title.
   */
  function SummaryTable(offset: Pos, count: nat, releases: nat, refs: seq<CellReference>, regions: Dict<string, Region>)
    : (r: seq<RowWrite>)
    requires Placed(offset) && RefsPlaced(refs) && Indexed(regions, refs)
    ensures |r| == |refs| + 1
    ensures forall q :: 0 <= q < |r| ==> r[q].at.row == offset.row + 8 + |refs| + releases + q
  {
    var s := SummaryAt(offset, refs, releases);
    [SummaryHeader(s)] + SummaryRows(RelPos(s, 1, 0, None), refs, regions, count)
  }

  /** The allocation, difference and summary writes of `_create_team_calendar_table`, in order. */
  function PlanRows(offset: Pos, count: nat, releases: nat, refs: seq<CellReference>): seq<RowWrite>
    requires Placed(offset) && RefsPlaced(refs)
  {
    AllocationRegionsIndexed(AllocationsAt(offset), refs, count);
    AllocationRows(AllocationsAt(offset), refs)
    + (DifferenceRows(DifferenceAt(offset, refs), releases, count)
       + SummaryTable(offset, count, releases, refs, AllocationRegions(AllocationsAt(offset), refs, count)))
  }

  /** The calendar table's month header row: one row under the capacity table. */
  function CalendarAt(capacity: Region): Pos { RelPos(PosBelow(capacity), 1, 0, None) }

  /** The capacity table's total row, which the people and vacation lines refer to. */
  function TotalsRow(capacity: Region): int { PosBelow(capacity).row - 1 }

  /**
   * `_create_team_calendar_table`. It fails when the production calendar misses a month of the
   * plan; otherwise it writes the working-time lines, sets the first column's width, writes the
   * allocation, difference and summary rows and returns the allocation region of every title.
   */
  method CreateTeamCalendarTable(sheet: Sheet, capacity: Region, start: Date, end: Date, cal: ProductionCalendar,
                                 releases: seq<ProductRelease>, refs: seq<CellReference>)
    returns (r: Result<Dict<string, Region>>)
    requires Placed(capacity.offset) && capacity.rows >= 1 && start.Valid() && end.Valid() && RefsPlaced(refs)
    modifies sheet
    ensures var months := Months(start, end);
      r.Err? <==> !Covered(cal, months)
    ensures var months := Months(start, end);
      r.Err? ==> exists k :: 0 <= k < |months| && !HasMonth(cal, months[k]) && r.error == MissingCalendarMonth(months[k].year, months[k].month)
    ensures r.Ok? ==> r.value == AllocationRegions(AllocationsAt(CalendarAt(capacity)), refs, |Months(start, end)|)
    ensures var months := Months(start, end);
      r.Ok? ==> sheet.cells == WrittenRows(old(sheet.cells),
        CalendarLines(CalendarAt(capacity), months, TotalsRow(capacity), MonthDays(months, start, end, cal))
        + PlanRows(CalendarAt(capacity), |months|, |releases|, refs))
    ensures r.Ok? ==> sheet.widths == old(sheet.widths) + [ColumnWidth(0, 0, 15.0)] && sheet.merges == old(sheet.merges)
  {
    var offset := CalendarAt(capacity);
    var lines := WriteCalendarLines(sheet, offset, start, end, cal, TotalsRow(capacity));
    if lines.Err? {
      return Err(lines.error);
    }
    var columnCount := |lines.value|;
    sheet.SetColumn(0, 0, 15.0);
    ghost var afterLines := sheet.cells;
    var regions := WritePlanRows(sheet, offset, columnCount, |releases|, refs);
    WrittenRowsAppend(old(sheet.cells), CalendarLines(offset, Months(start, end), TotalsRow(capacity), lines.value),
                      PlanRows(offset, columnCount, |releases|, refs));
    return Ok(regions);
  }

  /** The allocation, difference and summary parts of `_create_team_calendar_table`. */
  method WritePlanRows(sheet: Sheet, offset: Pos, count: nat, releases: nat, refs: seq<CellReference>)
    returns (regions: Dict<string, Region>)
    requires Placed(offset) && RefsPlaced(refs)
    modifies sheet
    ensures regions == AllocationRegions(AllocationsAt(offset), refs, count)
    ensures sheet.cells == WrittenRows(old(sheet.cells), PlanRows(offset, count, releases, refs))
    ensures sheet.widths == old(sheet.widths) && sheet.merges == old(sheet.merges)
  {
    var allocationsAt := AllocationsAt(offset);
    regions := WriteAllocationRows(sheet, allocationsAt, refs, count);
    var differenceAt := RelPos(allocationsAt, |refs|, 0, None);
    PutDifferenceRow(sheet, differenceAt, releases, count);
    var summaryAt := RelPos(differenceAt, releases, 0, None);
    AllocationRegionsIndexed(allocationsAt, refs, count);
    PutRow(sheet, SummaryHeader(summaryAt), None);
    ghost var header := [SummaryHeader(summaryAt)];
    WriteSummaryRows(sheet, RelPos(summaryAt, 1, 0, None), refs, regions, count);
    ghost var summary := SummaryRows(RelPos(summaryAt, 1, 0, None), refs, regions, count);
    WrittenRowsAppend(WrittenRows(WrittenRows(old(sheet.cells), AllocationRows(allocationsAt, refs)), DifferenceRows(differenceAt, releases, count)), header, summary);
    WrittenRowsNested(old(sheet.cells), AllocationRows(allocationsAt, refs), DifferenceRows(differenceAt, releases, count), header + summary);
    assert SummaryTable(offset, count, releases, refs, regions) == header + summary;
  }

  /**
   * Everything a team's calendar sheet receives, in order: the capacity table at the origin, then
   * the calendar table from row `3 + |members|`, with `days` the working days of each month.
   */
  function CalendarSheetRows(members: seq<Worker>, months: seq<Date>, days: seq<nat>, releases: nat, refs: seq<CellReference>)
    : seq<RowWrite>
    requires WellFormedWorkers(members) && AllValid(months) && Staffed(members, months) && RefsPlaced(refs)
  {
    var offset := Pos(3 + |members|, 0, None);
    CapacityRows(Pos(0, 0, None), members, months)
    + (CalendarLines(offset, months, 1 + |members|, days) + PlanRows(offset, |months|, releases, refs))
  }

  /**
   * `fill_calendar_plan_worksheet`: the capacity table at the sheet's origin, then the calendar
   * table under it. It fails when a member's efficiency cannot be computed or, after that, when
   * the production calendar misses a month of the plan.
   */
  method FillCalendarPlanWorksheet(sheet: Sheet, start: Date, end: Date, team: Team, cal: ProductionCalendar,
                                   releases: seq<ProductRelease>, refs: seq<CellReference>)
    returns (r: Result<Dict<string, Region>>)
    requires start.Valid() && end.Valid() && WellFormedWorkers(team.members) && RefsPlaced(refs)
    modifies sheet
    ensures var months := Months(start, end);
      r.Err? <==> !Staffed(team.members, months) || !Covered(cal, months)
    ensures var months := Months(start, end);
      r.Err? && !Staffed(team.members, months) ==>
        exists j :: 0 <= j < |team.members| && Unstarted(team.members[j]) && r.error == MissingWorksSince(team.members[j].name)
    ensures var months := Months(start, end);
      r.Err? && Staffed(team.members, months) ==>
        exists k :: 0 <= k < |months| && !HasMonth(cal, months[k]) && r.error == MissingCalendarMonth(months[k].year, months[k].month)
    ensures r.Ok? ==> r.value == AllocationRegions(Pos(11 + |team.members|, 0, None), refs, |Months(start, end)|)
    ensures var months := Months(start, end);
      r.Ok? ==> sheet.cells == WrittenRows(old(sheet.cells),
        CalendarSheetRows(team.members, months, MonthDays(months, start, end, cal), |releases|, refs))
    ensures r.Ok? ==> sheet.widths == old(sheet.widths) + [ColumnWidth(0, 0, 15.0)] && sheet.merges == old(sheet.merges)
  {
    var capacity := CreateTeamCapacityTable(sheet, start, end, team, Pos(0, 0, None));
    if capacity.Err? {
      return Err(capacity.error);
    }
    ghost var months := Months(start, end);
    ghost var n := |team.members|;
    assert CalendarAt(capacity.value) == Pos(3 + n, 0, None) && TotalsRow(capacity.value) == 1 + n;
    ghost var cap := CapacityRows(Pos(0, 0, None), team.members, months);
    r := CreateTeamCalendarTable(sheet, capacity.value, start, end, cal, releases, refs);
    if r.Ok? {
      ghost var days := MonthDays(months, start, end, cal);
      ghost var lines := CalendarLines(Pos(3 + n, 0, None), months, 1 + n, days);
      ghost var plan := PlanRows(Pos(3 + n, 0, None), |months|, |releases|, refs);
      WrittenRowsAppend(old(sheet.cells), cap, lines + plan);
      assert cap + (lines + plan) == CalendarSheetRows(team.members, months, days, |releases|, refs);
    }
  }

  // ---------------------------------------------------------------------------
  // Re-applying the allocations of a previous export

  /**
   * Why `apply_plan_edits_to_team_calendar` stops at the region of item `name`: the item is not
   * in the previous data, or it has fewer values than the region has columns. A region without
   * columns reads nothing and cannot fail.
   */
  function ItemError(items: map<string, ItemAllocation>, name: string, region: Region): Option<Error> {
    if region.columns <= 0 then None
    else if name !in items then Some(MissingPreviousItem(name))
    else if |items[name].allocations| < region.columns then Some(MissingPreviousValue(name, |items[name].allocations|))
    else None
  }

  /** The recorded values written back into a region: the first `columns` of them, in order. */
  function EditItems(items: map<string, ItemAllocation>, name: string, region: Region): (r: seq<RowItem>)
    requires ItemError(items, name, region).None?
    ensures |r| == if region.columns <= 0 then 0 else region.columns
    ensures forall i :: 0 <= i < |r| ==> r[i] == Plain(items[name].allocations[i].1)
  {
    if region.columns <= 0 then []
    else seq(region.columns, i requires 0 <= i < region.columns => Plain(items[name].allocations[i].1))
  }

  /** The writes of one region, from its first cell to the right, with no format. */
  function EditRow(items: map<string, ItemAllocation>, name: string, region: Region): RowWrite
    requires ItemError(items, name, region).None?
  {
    RowWrite(Pos(region.offset.row, region.offset.column, None), EditItems(items, name, region), None)
  }

  predicate Applicable(items: map<string, ItemAllocation>, regions: Dict<string, Region>) {
    forall k :: 0 <= k < |regions| ==> ItemError(items, regions[k].0, regions[k].1).None?
  }

  /** The writes of `apply_plan_edits_to_team_calendar`, region by region in dictionary order. */
  function EditRows(items: map<string, ItemAllocation>, regions: Dict<string, Region>): (r: seq<RowWrite>)
    requires Applicable(items, regions)
    ensures |r| == |regions|
    ensures forall k :: 0 <= k < |regions| ==> r[k] == EditRow(items, regions[k].0, regions[k].1)
  {
    seq(|regions|, k requires 0 <= k < |regions| => EditRow(items, regions[k].0, regions[k].1))
  }

  /**
   * `apply_plan_edits_to_team_calendar`: for every region in order, the recorded values of its
   * item are written over its cells. It fails at the first region whose item is missing from the
   * previous data or has fewer values than the region has columns.
   */
  method ApplyPlanEdits(sheet: Sheet, previous: TeamAllocation, regions: Dict<string, Region>) returns (r: Result<()>)
    modifies sheet
    ensures r.Ok? <==> Applicable(previous.items, regions)
    ensures r.Err? ==>
      exists k :: 0 <= k < |regions| && Applicable(previous.items, regions[..k]) && ItemError(previous.items, regions[k].0, regions[k].1) == Some(r.error)
    ensures r.Ok? ==> sheet.cells == WrittenRows(old(sheet.cells), EditRows(previous.items, regions))
    ensures sheet.widths == old(sheet.widths) && sheet.merges == old(sheet.merges)
  {
    for k := 0 to |regions|
      invariant Applicable(previous.items, regions[..k])
      invariant sheet.cells == WrittenRows(old(sheet.cells), EditRows(previous.items, regions[..k]))
      invariant sheet.widths == old(sheet.widths) && sheet.merges == old(sheet.merges)
    {
      ghost var before := EditRows(previous.items, regions[..k]);
      var (name, region) := regions[k];
      var written := ApplyItemEdits(sheet, previous.items, name, region);
      if written.Err? {
        return Err(written.error);
      }
      EditRowsStep(previous.items, regions, k);
      WrittenRowsAppend(old(sheet.cells), before, [EditRow(previous.items, name, region)]);
    }
    assert regions[..|regions|] == regions;
    return Ok(());
  }

  /** The edits of the first `k + 1` regions: those of the first `k`, then region `k`'s. */
  lemma EditRowsStep(items: map<string, ItemAllocation>, regions: Dict<string, Region>, k: int)
    requires 0 <= k < |regions| && Applicable(items, regions[..k]) && ItemError(items, regions[k].0, regions[k].1).None?
    ensures Applicable(items, regions[..k + 1])
    ensures EditRows(items, regions[..k + 1]) == EditRows(items, regions[..k]) + [EditRow(items, regions[k].0, regions[k].1)]
  {
    assert forall j :: 0 <= j < k ==> regions[..k + 1][j] == regions[..k][j];
  }

  /** The inner loop of `apply_plan_edits_to_team_calendar`: one region's cells, left to right. */
  method ApplyItemEdits(sheet: Sheet, items: map<string, ItemAllocation>, name: string, region: Region) returns (r: Result<()>)
    modifies sheet
    ensures r.Err? <==> ItemError(items, name, region).Some?
    ensures r.Err? ==> r.error == ItemError(items, name, region).value
    ensures r.Ok? ==> sheet.cells == WrittenRows(old(sheet.cells), [EditRow(items, name, region)])
    ensures sheet.widths == old(sheet.widths) && sheet.merges == old(sheet.merges)
  {
    var row := region.offset.row;
    var first := region.offset.column;
    var idx := 0;
    ghost var cells: seq<Cell> := [];
    var col := first;
    while col < first + region.columns
      invariant if region.columns > 0 then first <= col <= first + region.columns else col == first
      invariant idx == col - first
      invariant name in items ==> idx <= |items[name].allocations|
      invariant idx > 0 ==> name in items
      invariant |cells| == idx && forall i :: 0 <= i < idx ==> cells[i] == Cell(Stored(items[name].allocations[i].1), None)
      invariant sheet.cells == Written(old(sheet.cells), row, first, cells)
      invariant sheet.widths == old(sheet.widths) && sheet.merges == old(sheet.merges)
    {
      if name !in items {
        return Err(MissingPreviousItem(name));
      }
      if idx >= |items[name].allocations| {
        return Err(MissingPreviousValue(name, idx));
      }
      var value := items[name].allocations[idx].1;
      sheet.Write(row, col, value, None);
      WrittenExtend(old(sheet.cells), row, first, cells + [Cell(Stored(value), None)], idx);
      assert (cells + [Cell(Stored(value), None)])[..idx] == cells;
      cells := cells + [Cell(Stored(value), None)];
      assert cells[..idx + 1] == cells;
      idx := idx + 1;
      col := col + 1;
    }
    if ItemError(items, name, region).Some? {
      assert false;
    }
    ghost var w := EditRow(items, name, region);
    WrittenRowsSingle(old(sheet.cells), w);
    assert |w.items| == idx;
    forall i | 0 <= i < idx
      ensures RowCells(first, w.items, None, None)[i] == cells[i]
    {
      assert w.items[i] == Plain(items[name].allocations[i].1);
    }
    assert RowCells(first, w.items, None, None) == cells;
    return Ok(());
  }
}
