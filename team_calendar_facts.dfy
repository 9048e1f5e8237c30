/**
 * What the cells of a team calendar sheet hold once the builders of `TeamCalendar` have run:
 * the capacity table, the working-time lines, the allocation, difference and summary rows, and
 * the effect of re-applying a previous export's allocations.
 */
module TeamCalendarFacts {
  import opened Wrappers
  import opened Dates
  import opened Layout
  import opened Teams
  import opened Dicts
  import opened Metadata
  import opened TeamCalendar

  // ---------------------------------------------------------------------------
  // The capacity table

  /** Member `j`'s name and efficiency rows are the writes `2j` and `2j + 1` of the member loop. */
  lemma {:induction false} MembersRowsAt(offset: Pos, ws: seq<Worker>, months: seq<Date>, j: int)
    requires WellFormedWorkers(ws) && AllValid(months) && Staffed(ws, months) && 0 <= j < |ws|
    ensures EfficiencyCells(ws[j], months).Ok?
    ensures MembersRows(offset, ws, months)[2 * j] == RowWrite(Pos(offset.row + 1 + j, offset.column, None), Label(ws[j].name), None)
    ensures MembersRows(offset, ws, months)[2 * j + 1]
      == RowWrite(Pos(offset.row + 1 + j, offset.column + 1, None), EfficiencyCells(ws[j], months).value, Some(NumericFormat))
  {
    var n := |ws| - 1;
    assert Staffed(ws[..n], months) && WellFormedWorkers(ws[..n]);
    if j < n {
      assert ws[..n][j] == ws[j];
      MembersRowsAt(offset, ws[..n], months, j);
    }
  }

  /** Every write of the member loop lands on a member row, below the header and above the totals. */
  lemma {:induction false} MembersRowsRows(offset: Pos, ws: seq<Worker>, months: seq<Date>, q: int)
    requires WellFormedWorkers(ws) && AllValid(months) && Staffed(ws, months) && 0 <= q < 2 * |ws|
    ensures MembersRows(offset, ws, months)[q].at.row == offset.row + 1 + q / 2
  {
    MembersRowsAt(offset, ws, months, q / 2);
    if q % 2 == 1 {
      assert q == 2 * (q / 2) + 1;
    } else {
      assert q == 2 * (q / 2);
    }
  }

  /** The rows the capacity writes land on: the header row, one row per member, then the total row. */
  lemma {:induction false} CapacityRowsAt(offset: Pos, ws: seq<Worker>, months: seq<Date>, q: int)
    requires Placed(offset) && WellFormedWorkers(ws) && AllValid(months) && Staffed(ws, months)
    requires 0 <= q < |CapacityRows(offset, ws, months)|
    ensures CapacityRows(offset, ws, months)[q].at.row
      == if q < 2 then offset.row else if q < 2 + 2 * |ws| then offset.row + 1 + (q - 2) / 2 else offset.row + |ws| + 1
  {
    var head := CapacityHead(offset, months);
    var members := MembersRows(offset, ws, months);
    var tail := CapacityTail(offset, |ws|, |months|);
    var rows := head + members + tail;
    if q < 2 {
      assert rows[q] == head[q];
    } else if q < 2 + 2 * |ws| {
      assert rows[q] == members[q - 2];
      MembersRowsRows(offset, ws, months, q - 2);
    } else {
      assert rows[q] == tail[q - 2 - 2 * |ws|];
    }
  }

  /**
   * In the capacity table, the cell of member `j` and month `i` holds the member's efficiency in
   * that month (an empty cell when there is none), in the numeric format.
   */
  lemma {:induction false} CapacityEfficiencyCell(m: map<(int, int), Cell>, offset: Pos, ws: seq<Worker>, months: seq<Date>, j: int, i: int)
    requires Placed(offset) && WellFormedWorkers(ws) && AllValid(months) && Staffed(ws, months)
    requires 0 <= j < |ws| && 0 <= i < |months|
    ensures Efficiency(ws[j], months[i]).Ok?
    ensures Shows(WrittenRows(m, CapacityRows(offset, ws, months)), (offset.row + 1 + j, offset.column + 1 + i),
                  Cell(Stored(EfficiencyValue(Efficiency(ws[j], months[i]).value)), Some(NumericFormat)))
  {
    EfficiencyWrite(offset, ws, months, j, i);
    ShowsAt(m, CapacityRows(offset, ws, months), 2 + 2 * j + 1, (offset.row + 1 + j, offset.column + 1 + i),
            Cell(Stored(EfficiencyValue(Efficiency(ws[j], months[i]).value)), Some(NumericFormat)));
  }

  /** The efficiency row of member `j` decides month column `i` of the member's row. */
  lemma {:induction false} EfficiencyWrite(offset: Pos, ws: seq<Worker>, months: seq<Date>, j: int, i: int)
    requires Placed(offset) && WellFormedWorkers(ws) && AllValid(months) && Staffed(ws, months)
    requires 0 <= j < |ws| && 0 <= i < |months|
    ensures Efficiency(ws[j], months[i]).Ok?
    ensures Decides(CapacityRows(offset, ws, months), 2 + 2 * j + 1, (offset.row + 1 + j, offset.column + 1 + i),
                    Cell(Stored(EfficiencyValue(Efficiency(ws[j], months[i]).value)), Some(NumericFormat)))
  {
    var rows := CapacityRows(offset, ws, months);
    var members := MembersRows(offset, ws, months);
    MembersRowsAt(offset, ws, months, j);
    assert rows[2 + 2 * j + 1] == members[2 * j + 1] by {
      assert rows == CapacityHead(offset, months) + members + CapacityTail(offset, |ws|, |months|);
    }
    assert offset.column + 1 + i - rows[2 + 2 * j + 1].at.column == i;
    forall q | 2 + 2 * j + 1 < q < |rows|
      ensures rows[q].at.row != offset.row + 1 + j
    {
      CapacityRowsAt(offset, ws, months, q);
    }
  }

  /**
   * The total row of the capacity table: in month column `i`, a SUM over the member rows of the
   * column `offset.column + col` that the cell function's `RelPos(offset, 1, col)` names.
   */
  lemma {:induction false} CapacityTotalCell(m: map<(int, int), Cell>, offset: Pos, ws: seq<Worker>, months: seq<Date>, i: int)
    requires Placed(offset) && WellFormedWorkers(ws) && AllValid(months) && Staffed(ws, months)
    requires 0 <= i < |months|
    ensures Shows(WrittenRows(m, CapacityRows(offset, ws, months)), (offset.row + |ws| + 1, offset.column + 1 + i),
                  Cell(Formula(FormulaText(Sum(Pos(offset.row + 1, 2 * offset.column + 1 + i, None), Pos(offset.row + |ws|, 2 * offset.column + 1 + i, None)))),
                       Some(TotalFormat)))
  {
    TotalWrite(offset, ws, months, i);
    ShowsAt(m, CapacityRows(offset, ws, months), |CapacityRows(offset, ws, months)| - 1, (offset.row + |ws| + 1, offset.column + 1 + i),
            Cell(Formula(FormulaText(Sum(Pos(offset.row + 1, 2 * offset.column + 1 + i, None), Pos(offset.row + |ws|, 2 * offset.column + 1 + i, None)))),
                 Some(TotalFormat)));
  }

  /** The last capacity write decides month column `i` of the total row with its SUM. */
  lemma {:induction false} TotalWrite(offset: Pos, ws: seq<Worker>, months: seq<Date>, i: int)
    requires Placed(offset) && WellFormedWorkers(ws) && AllValid(months) && Staffed(ws, months)
    requires 0 <= i < |months|
    ensures Decides(CapacityRows(offset, ws, months), |CapacityRows(offset, ws, months)| - 1, (offset.row + |ws| + 1, offset.column + 1 + i),
                    Cell(Formula(FormulaText(Sum(Pos(offset.row + 1, 2 * offset.column + 1 + i, None), Pos(offset.row + |ws|, 2 * offset.column + 1 + i, None)))),
                         Some(TotalFormat)))
  {
    var rows := CapacityRows(offset, ws, months);
    var w := rows[|rows| - 1];
    var col := offset.column + 1 + i;
    assert w == RowWrite(RelPos(offset, |ws| + 1, 1, None), CapacityTotals(offset, |ws|, |months|), Some(TotalFormat));
    assert offset.column + 1 + i - w.at.column == i;
    assert w.items[i] == FormulaItem(Sum(RelPos(offset, 1, col, None), RelPos(offset, |ws|, col, None)));
  }

  /** The header of the capacity table: month `i` in column `offset.column + 1 + i`. */
  lemma {:induction false} CapacityMonthCell(m: map<(int, int), Cell>, offset: Pos, ws: seq<Worker>, months: seq<Date>, i: int)
    requires Placed(offset) && WellFormedWorkers(ws) && AllValid(months) && Staffed(ws, months)
    requires 0 <= i < |months|
    ensures Shows(WrittenRows(m, CapacityRows(offset, ws, months)), (offset.row, offset.column + 1 + i), Cell(DateCell(months[i]), Some(GreenHeaderFormat)))
  {
    MonthWrite(offset, ws, months, i);
    ShowsAt(m, CapacityRows(offset, ws, months), 1, (offset.row, offset.column + 1 + i), Cell(DateCell(months[i]), Some(GreenHeaderFormat)));
  }

  /** The second capacity write decides month column `i` of the header row with the month. */
  lemma {:induction false} MonthWrite(offset: Pos, ws: seq<Worker>, months: seq<Date>, i: int)
    requires Placed(offset) && WellFormedWorkers(ws) && AllValid(months) && Staffed(ws, months)
    requires 0 <= i < |months|
    ensures Decides(CapacityRows(offset, ws, months), 1, (offset.row, offset.column + 1 + i), Cell(DateCell(months[i]), Some(GreenHeaderFormat)))
  {
    var rows := CapacityRows(offset, ws, months);
    assert rows[1] == RowWrite(RelPos(offset, 0, 1, None), MonthHeaders(months), Some(GreenHeaderFormat));
    assert offset.column + 1 + i - rows[1].at.column == i;
    forall q | 1 < q < |rows|
      ensures rows[q].at.row != offset.row
    {
      CapacityRowsAt(offset, ws, months, q);
    }
  }

  // ---------------------------------------------------------------------------
  // The working-time lines

  /** Among the first `k` lines, the cells of line `j` are the second write of that line. */
  lemma {:induction false} LinesThroughAt(offset: Pos, totalsRow: int, days: seq<nat>, k: int, j: int)
    requires Placed(offset) && totalsRow >= 0 && 1 <= j <= k <= 7
    ensures LinesThrough(offset, totalsRow, days, k)[2 * j - 1] == LineRows(LineAt(j), offset, totalsRow, days)[1]
  {
    if j < k {
      LinesThroughAt(offset, totalsRow, days, k - 1, j);
    }
  }

  /** The cell line `l` shows in the month column `col`, with `days` working days in that month. */
  function LineCell(l: Line, offset: Pos, totalsRow: int, days: nat, col: int): Cell
    requires Placed(offset) && totalsRow >= 0 && col >= 0
  {
    Cell(Stored(LineValue(l, offset, totalsRow, days, col)), LineFormat(l))
  }

  /**
   * Line `l` of the calendar, `LineIndex(l)` rows under its month header, holds in month column
   * `i` the line's value for that month: the capacity total (people), the working-day count, a
   * fifth of it (weeks), people times weeks, five twelfths of the capacity total (vacations),
   * 1.5 (support), or man-weeks less vacations less support (remaining).
   */
  lemma {:induction false} CalendarLineCell(m: map<(int, int), Cell>, offset: Pos, months: seq<Date>, totalsRow: int, days: seq<nat>, l: Line, i: int)
    requires Placed(offset) && totalsRow >= 0 && 0 <= i < |days|
    ensures Shows(WrittenRows(m, CalendarLines(offset, months, totalsRow, days)), (offset.row + LineIndex(l), offset.column + 1 + i),
                  LineCell(l, offset, totalsRow, days[i], offset.column + 1 + i))
  {
    var key := (offset.row + LineIndex(l), offset.column + 1 + i);
    var lines := LinesThrough(offset, totalsRow, days, 7);
    LineAtIndex(l);
    LineCellWrite(offset, totalsRow, days, LineIndex(l), i);
    ShowsSecond(m, CalendarHeader(offset, months), lines, 2 * LineIndex(l) - 1, key, LineCell(l, offset, totalsRow, days[i], offset.column + 1 + i));
  }

  /** The write of the cells of line `j` decides month column `i` of the line's row. */
  lemma {:induction false} LineCellWrite(offset: Pos, totalsRow: int, days: seq<nat>, j: int, i: int)
    requires Placed(offset) && totalsRow >= 0 && 1 <= j <= 7 && 0 <= i < |days|
    ensures Decides(LinesThrough(offset, totalsRow, days, 7), 2 * j - 1, (offset.row + j, offset.column + 1 + i),
                    LineCell(LineAt(j), offset, totalsRow, days[i], offset.column + 1 + i))
  {
    var l := LineAt(j);
    var lines := LinesThrough(offset, totalsRow, days, 7);
    LinesThroughAt(offset, totalsRow, days, 7, j);
    LineItemCell(offset, totalsRow, days, l, i);
    LinesBelow(offset, totalsRow, days, 7, j);
    DecidesAt(lines, 2 * j - 1, (offset.row + j, offset.column + 1 + i),
              LineCell(l, offset, totalsRow, days[i], offset.column + 1 + i), LineRows(l, offset, totalsRow, days)[1]);
  }

  /** The second write of line `l` covers month column `i` with the line's value. */
  lemma {:induction false} LineItemCell(offset: Pos, totalsRow: int, days: seq<nat>, l: Line, i: int)
    requires Placed(offset) && totalsRow >= 0 && 0 <= i < |days|
    ensures var w := LineRows(l, offset, totalsRow, days)[1];
      && InRow((offset.row + LineIndex(l), offset.column + 1 + i), w)
      && RowCell(w.items[offset.column + 1 + i - w.at.column], offset.column + 1 + i, None, w.format)
        == LineCell(l, offset, totalsRow, days[i], offset.column + 1 + i)
  {
    var w := LineRows(l, offset, totalsRow, days)[1];
    assert offset.column + 1 + i - w.at.column == i;
    assert w.items[i] == Plain(LineValue(l, offset, totalsRow, days[i], offset.column + 1 + i));
  }

  /** The line `LineIndex(l)` rows under the month header is `l`. */
  lemma LineAtIndex(l: Line)
    ensures LineAt(LineIndex(l)) == l
  {
  }

  /** The writes after the second write of line `j` lie on the rows under it. */
  lemma {:induction false} LinesBelow(offset: Pos, totalsRow: int, days: seq<nat>, k: int, j: int)
    requires Placed(offset) && totalsRow >= 0 && 1 <= j <= k <= 7
    ensures forall q :: 2 * j - 1 < q < 2 * k ==> LinesThrough(offset, totalsRow, days, k)[q].at.row != offset.row + j
  {
  }

  // ---------------------------------------------------------------------------
  // Allocations, difference and summary

  /** The title of reference `j` is in the first column of the calendar, `8 + j` rows under its header. */
  lemma {:induction false} AllocationTitleCell(m: map<(int, int), Cell>, offset: Pos, count: nat, releases: nat, refs: seq<CellReference>, j: int)
    requires Placed(offset) && RefsPlaced(refs) && 0 <= j < |refs|
    ensures Shows(WrittenRows(m, PlanRows(offset, count, releases, refs)), (offset.row + 8 + j, offset.column), Cell(Stored(Text(refs[j].title)), None))
  {
    var row := offset.row + 8 + j;
    AllocationTitleWrite(offset, refs, j);
    DifferenceRowsAvoid(offset, refs, releases, count, row);
    var regions := AllocationRegions(AllocationsAt(offset), refs, count);
    AllocationRegionsIndexed(AllocationsAt(offset), refs, count);
    SummaryTableAvoids(offset, count, releases, refs, regions, row);
    ShowsFirst(m, AllocationRows(AllocationsAt(offset), refs), DifferenceRows(DifferenceAt(offset, refs), releases, count),
               SummaryTable(offset, count, releases, refs, regions), j, (row, offset.column), Cell(Stored(Text(refs[j].title)), None));
  }

  /** The allocation row of reference `j` decides its first cell with the title. */
  lemma {:induction false} AllocationTitleWrite(offset: Pos, refs: seq<CellReference>, j: int)
    requires 0 <= j < |refs|
    ensures Decides(AllocationRows(AllocationsAt(offset), refs), j, (offset.row + 8 + j, offset.column), Cell(Stored(Text(refs[j].title)), None))
  {
    var w := AllocationRows(AllocationsAt(offset), refs)[j];
    assert w == RowWrite(Pos(offset.row + 8 + j, offset.column, None), Label(refs[j].title), None);
    assert offset.column - w.at.column == 0;
  }

  /** The difference rows lie on the row under the allocation rows. */
  lemma {:induction false} DifferenceRowsAvoid(offset: Pos, refs: seq<CellReference>, releases: nat, count: nat, row: int)
    requires Placed(offset) && row != offset.row + 8 + |refs|
    ensures Avoids(DifferenceRows(DifferenceAt(offset, refs), releases, count), row)
  {
  }

  /** The summary table lies below the difference row and the `releases` rows under it. */
  lemma {:induction false} SummaryTableAvoids(offset: Pos, count: nat, releases: nat, refs: seq<CellReference>,
                                              regions: Dict<string, Region>, row: int)
    requires Placed(offset) && RefsPlaced(refs) && Indexed(regions, refs) && row < offset.row + 8 + |refs| + releases
    ensures Avoids(SummaryTable(offset, count, releases, refs, regions), row)
  {
  }

  /**
   * The difference row, right under the allocation rows: in month column `i`, the row
   * `releases + 1` rows up less the SUM of the `releases` rows directly above. With at least one
   * release the summary header does not cover it.
   */
  lemma {:induction false} DifferenceCell(m: map<(int, int), Cell>, offset: Pos, count: nat, releases: nat, refs: seq<CellReference>, i: int)
    requires Placed(offset) && RefsPlaced(refs) && releases >= 1 && 0 <= i < count
    ensures Shows(WrittenRows(m, PlanRows(offset, count, releases, refs)), (offset.row + 8 + |refs|, offset.column + 1 + i),
                  Cell(Formula(FormulaText(Shortfall(Pos(offset.row + 7 + |refs| - releases, offset.column + 1 + i, None),
                                                     Pos(offset.row + 8 + |refs| - releases, offset.column + 1 + i, None),
                                                     Pos(offset.row + 7 + |refs|, offset.column + 1 + i, None)))),
                       Some(TotalFormat)))
  {
    DifferenceItemCell(offset, count, releases, refs, i);
    var regions := AllocationRegions(AllocationsAt(offset), refs, count);
    AllocationRegionsIndexed(AllocationsAt(offset), refs, count);
    SummaryTableAvoids(offset, count, releases, refs, regions, offset.row + 8 + |refs|);
    ShowsMiddle(m, AllocationRows(AllocationsAt(offset), refs), DifferenceRows(DifferenceAt(offset, refs), releases, count),
                SummaryTable(offset, count, releases, refs, regions), 1, (offset.row + 8 + |refs|, offset.column + 1 + i),
                Cell(Formula(FormulaText(Shortfall(Pos(offset.row + 7 + |refs| - releases, offset.column + 1 + i, None),
                                                   Pos(offset.row + 8 + |refs| - releases, offset.column + 1 + i, None),
                                                   Pos(offset.row + 7 + |refs|, offset.column + 1 + i, None)))),
                     Some(TotalFormat)));
  }

  /** The second difference write decides month column `i` of the difference row. */
  lemma {:induction false} DifferenceItemCell(offset: Pos, count: nat, releases: nat, refs: seq<CellReference>, i: int)
    requires Placed(offset) && 0 <= i < count
    ensures Decides(DifferenceRows(DifferenceAt(offset, refs), releases, count), 1, (offset.row + 8 + |refs|, offset.column + 1 + i),
                    Cell(Formula(FormulaText(Shortfall(Pos(offset.row + 7 + |refs| - releases, offset.column + 1 + i, None),
                                                       Pos(offset.row + 8 + |refs| - releases, offset.column + 1 + i, None),
                                                       Pos(offset.row + 7 + |refs|, offset.column + 1 + i, None)))),
                         Some(TotalFormat)))
  {
    var d := DifferenceAt(offset, refs);
    assert d == Pos(offset.row + 8 + |refs|, offset.column, None);
    DifferenceDecides(d, releases, count, i);
    assert DifferenceFormula(d, releases, i + 1)
        == Shortfall(Pos(offset.row + 7 + |refs| - releases, offset.column + 1 + i, None),
                     Pos(offset.row + 8 + |refs| - releases, offset.column + 1 + i, None),
                     Pos(offset.row + 7 + |refs|, offset.column + 1 + i, None));
  }

  /** Month column `i` of the difference row anchored at `at` shows its difference formula. */
  lemma DifferenceDecides(at: Pos, releases: nat, count: nat, i: int)
    requires Placed(at) && 0 <= i < count
    ensures Decides(DifferenceRows(at, releases, count), 1, (at.row, at.column + 1 + i),
                    Cell(Formula(FormulaText(DifferenceFormula(at, releases, i + 1))), Some(TotalFormat)))
  {
    var rows := DifferenceRows(at, releases, count);
    var f := DifferenceFormula(at, releases, i + 1);
    assert rows[1].items == DifferenceItems(at, releases, count);
    assert rows[1].items[i] == Plain(FormulaValue(f));
    LastWriteDecides(rows, (at.row, at.column + 1 + i), i, f);
  }

  /** The second of two writes, covering `key` at its `k`-th element with formula `f`, decides it. */
  lemma LastWriteDecides(rows: seq<RowWrite>, key: (int, int), k: int, f: Formula)
    requires |rows| == 2 && 0 <= k < |rows[1].items| && FormulaPlaced(f)
    requires rows[1].at.row == key.0 && key.1 == rows[1].at.column + k
    requires rows[1].items[k] == Plain(FormulaValue(f))
    ensures Decides(rows, 1, key, Cell(Formula(FormulaText(f)), rows[1].format))
  {
  }

  /**
   * When there are as many release references as releases, the difference formula takes the
   * remaining line of the calendar and subtracts exactly the allocation rows.
   */
  lemma {:induction false} DifferenceCoversAllocations(offset: Pos, refs: seq<CellReference>, c: int)
    requires Placed(offset) && |refs| >= 1 && c >= 0
    ensures DifferenceFormula(DifferenceAt(offset, refs), |refs|, c)
      == Shortfall(Pos(offset.row + LineIndex(Remaining), offset.column + c, None),
                   Pos(offset.row + 8, offset.column + c, None), Pos(offset.row + 7 + |refs|, offset.column + c, None))
  {
  }

  /** The index of the last reference titled `t`, or -1 when there is none. */
  function LastTitled(refs: seq<CellReference>, t: string): (k: int)
    ensures -1 <= k < |refs|
    ensures k >= 0 ==> refs[k].title == t
    ensures forall q :: k < q < |refs| ==> refs[q].title != t
  {
    if refs == [] then -1
    else if refs[|refs| - 1].title == t then |refs| - 1
    else LastTitled(refs[..|refs| - 1], t)
  }

  /** The allocated cell of a summary row: the SUM over allocation row `k`, from its title cell to `count` columns right of it. */
  function AllocatedCell(offset: Pos, count: nat, k: int): Cell
    requires Placed(offset) && k >= 0
  {
    Cell(Formula(FormulaText(Sum(Pos(offset.row + 8 + k, offset.column, None), Pos(offset.row + 8 + k, offset.column + count, None)))),
         Some(NumericFormat))
  }

  /**
   * Summary row `j`, `1 + j` rows under the summary header: its allocated column holds the SUM
   * over the allocation row of `k`, the last reference with the same title (never above `j`), from
   * that row's title cell to `count` columns right of it.
   */
  lemma {:induction false} SummaryAllocatedCell(m: map<(int, int), Cell>, offset: Pos, count: nat, releases: nat, refs: seq<CellReference>, j: int, k: int)
    requires Placed(offset) && RefsPlaced(refs) && 0 <= j < |refs| && k == LastTitled(refs, refs[j].title)
    ensures j <= k < |refs|
    ensures Shows(WrittenRows(m, PlanRows(offset, count, releases, refs)), (offset.row + 9 + |refs| + releases + j, offset.column + 2),
      AllocatedCell(offset, count, k))
  {
    var regions := AllocationRegions(AllocationsAt(offset), refs, count);
    LastTitledAtLeast(refs, refs[j].title, j);
    AllocationRegionsIndexed(AllocationsAt(offset), refs, count);
    AllocationRegionsGet(AllocationsAt(offset), refs, count, k);
    SummaryAllocatedItem(offset, count, releases, refs, regions, j, k);
    ShowsEnd(m, AllocationRows(AllocationsAt(offset), refs), DifferenceRows(DifferenceAt(offset, refs), releases, count),
             SummaryTable(offset, count, releases, refs, regions), 1 + j, (offset.row + 9 + |refs| + releases + j, offset.column + 2),
             AllocatedCell(offset, count, k));
  }

  /** Summary row `j` decides its allocated column with the SUM over the allocation row `k` its title reads. */
  lemma {:induction false} SummaryAllocatedItem(offset: Pos, count: nat, releases: nat, refs: seq<CellReference>,
                                                regions: Dict<string, Region>, j: int, k: int)
    requires Placed(offset) && RefsPlaced(refs) && Indexed(regions, refs) && 0 <= j < |refs| && 0 <= k < |refs|
    requires Get(regions, refs[j].title) == Some(AllocationRegion(AllocationsAt(offset), k, count))
    ensures Decides(SummaryTable(offset, count, releases, refs, regions), 1 + j, (offset.row + 9 + |refs| + releases + j, offset.column + 2),
                    AllocatedCell(offset, count, k))
  {
    SummaryRowWrite(offset, count, releases, refs, regions, j, k);
    SummaryRowCell(SummaryTable(offset, count, releases, refs, regions)[1 + j], offset, count, releases, refs, j, k);
  }

  /** A summary row, `1 + j` rows under the header, covers the allocated column with its SUM. */
  lemma {:induction false} SummaryRowCell(w: RowWrite, offset: Pos, count: nat, releases: nat, refs: seq<CellReference>, j: int, k: int)
    requires Placed(offset) && RefsPlaced(refs) && 0 <= j < |refs| && 0 <= k < |refs|
    requires w == SummaryRowFor(offset, count, releases, refs, j, k)
    ensures InRow((offset.row + 9 + |refs| + releases + j, offset.column + 2), w)
    ensures RowCell(w.items[offset.column + 2 - w.at.column], offset.column + 2, None, w.format)
      == AllocatedCell(offset, count, k)
  {
    var allocation := Pos(offset.row + 8 + k, offset.column, None);
    assert offset.column + 2 - w.at.column == 2;
    assert w.items[2] == FormulaItem(Sum(allocation, RelPos(allocation, 0, count, None)));
    assert RelPos(allocation, 0, count, None) == Pos(offset.row + 8 + k, offset.column + count, None);
  }

  /** Summary row `j` sums the allocation row `k` its title reads in `regions`. */
  lemma {:induction false} SummaryRowWrite(offset: Pos, count: nat, releases: nat, refs: seq<CellReference>,
                                           regions: Dict<string, Region>, j: int, k: int)
    requires Placed(offset) && RefsPlaced(refs) && Indexed(regions, refs) && 0 <= j < |refs| && 0 <= k < |refs|
    requires Get(regions, refs[j].title) == Some(AllocationRegion(AllocationsAt(offset), k, count))
    ensures SummaryTable(offset, count, releases, refs, regions)[1 + j] == SummaryRowFor(offset, count, releases, refs, j, k)
  {
    var below := RelPos(SummaryAt(offset, refs, releases), 1, 0, None);
    SummaryTableAt(offset, count, releases, refs, regions, j);
    SummaryRowsAt(below, refs, regions, count, j, AllocationRegion(AllocationsAt(offset), k, count));
    assert RelPos(below, j, 0, None) == Pos(offset.row + 9 + |refs| + releases + j, offset.column, None);
  }

  /** Row `1 + j` of the summary table is summary row `j`. */
  lemma {:induction false} SummaryTableAt(offset: Pos, count: nat, releases: nat, refs: seq<CellReference>,
                                          regions: Dict<string, Region>, j: int)
    requires Placed(offset) && RefsPlaced(refs) && Indexed(regions, refs) && 0 <= j < |refs|
    ensures SummaryTable(offset, count, releases, refs, regions)[1 + j]
      == SummaryRows(RelPos(SummaryAt(offset, refs, releases), 1, 0, None), refs, regions, count)[j]
  {
  }

  /** The row written for reference `j` when `k` is the last reference with its title. */
  function SummaryRowFor(offset: Pos, count: nat, releases: nat, refs: seq<CellReference>, j: int, k: int): RowWrite
    requires Placed(offset) && RefsPlaced(refs) && 0 <= j < |refs| && 0 <= k < |refs|
  {
    SummaryRow(Pos(offset.row + 9 + |refs| + releases + j, offset.column, None), refs[j], Pos(offset.row + 8 + k, offset.column, None), count)
  }

  /** The last reference with the title of reference `j` is `j` or below it. */
  lemma {:induction false} LastTitledAtLeast(refs: seq<CellReference>, t: string, j: int)
    requires 0 <= j < |refs| && refs[j].title == t
    ensures j <= LastTitled(refs, t) < |refs|
  {
  }

  /** The allocation regions lie on distinct rows, one per distinct title. */
  lemma {:induction false} AllocationRegionsRows(at: Pos, refs: seq<CellReference>, columns: int, p: int, q: int)
    requires var r := AllocationRegions(at, refs, columns); 0 <= p < |r| && 0 <= q < |r| && p != q
    ensures AllocationRegions(at, refs, columns)[p].1.offset.row != AllocationRegions(at, refs, columns)[q].1.offset.row
  {
    var r := AllocationRegions(at, refs, columns);
    AllocationRegionsEntries(at, refs, columns);
    AllocationRegionsUnique(at, refs, columns);
    assert r[p] in r && r[q] in r;
    var jp :| 0 <= jp < |refs| && r[p] == (refs[jp].title, AllocationRegion(at, jp, columns));
    var jq :| 0 <= jq < |refs| && r[q] == (refs[jq].title, AllocationRegion(at, jq, columns));
    assert r[p].0 != r[q].0;
    assert jp != jq;
  }

  // ---------------------------------------------------------------------------
  // Re-applied allocations

  /**
   * After the edits, the cell `i` columns right of the start of region `k` holds the item's
   * `i`-th recorded value, unformatted, when no other region shares the row.
   */
  lemma {:induction false} EditCell(m: map<(int, int), Cell>, items: map<string, ItemAllocation>, regions: Dict<string, Region>, k: int, i: int)
    requires Applicable(items, regions) && 0 <= k < |regions| && 0 <= i < regions[k].1.columns
    requires forall q :: 0 <= q < |regions| && q != k ==> regions[q].1.offset.row != regions[k].1.offset.row
    ensures regions[k].0 in items && i < |items[regions[k].0].allocations|
    ensures Shows(WrittenRows(m, EditRows(items, regions)), (regions[k].1.offset.row, regions[k].1.offset.column + i),
                  Cell(Stored(items[regions[k].0].allocations[i].1), None))
  {
    var rows := EditRows(items, regions);
    var key := (regions[k].1.offset.row, regions[k].1.offset.column + i);
    assert ItemError(items, regions[k].0, regions[k].1).None?;
    WrittenRowsAt(m, rows, k, key);
  }

  /** The edits change no cell outside the regions, and add none. */
  lemma {:induction false} EditsElsewhere(m: map<(int, int), Cell>, items: map<string, ItemAllocation>, regions: Dict<string, Region>, key: (int, int))
    requires Applicable(items, regions)
    requires forall q :: 0 <= q < |regions| ==> !InSpan(key, regions[q].1.offset.row, regions[q].1.offset.column, regions[q].1.columns)
    ensures key in WrittenRows(m, EditRows(items, regions)) <==> key in m
    ensures key in m ==> WrittenRows(m, EditRows(items, regions))[key] == m[key]
  {
    var rows := EditRows(items, regions);
    forall q | 0 <= q < |rows|
      ensures !InRow(key, rows[q])
    {
      assert ItemError(items, regions[q].0, regions[q].1).None?;
    }
    WrittenRowsOutside(m, rows, key);
  }
}
