/**
 * The release sheet of `plan_b/exporters/xlsx/release.py`: the development table (a three-row
 * header, one row per dev-owned issue, a totals row), the QA table two rows below it, and the
 * references to each team's totals that the calendars later point at.
 */
module Release {
  import opened Wrappers
  import opened Text
  import opened Teams
  import opened Issues
  import opened Plan
  import opened Layout
  import opened ReleaseCells
  import opened Metadata

  const CenteredHeaderFormat: Format := Style("centered_header")
  const CenteredHeaderBorderFormat: Format := Style("centered_header_border")
  const VerticalHeaderFormat: Format := Style("centered_vertical_text_header")
  const VerticalHeaderLeftFormat: Format := Style("centered_vertical_text_header_left_border")
  const VerticalHeaderRightFormat: Format := Style("centered_vertical_text_header_right_border")

  /** The width `col_width=5` and `width=5` give a header column. */
  const HeaderWidth: real := 5.0

  // ---------------------------------------------------------------------------
  // Selecting the issues of a table

  predicate OwnedBy(issue: Issue, qa: bool)
    requires issue.owner.Some?
  {
    if qa then IsQa(issue.owner.value) else IsDev(issue.owner.value)
  }

  /**
   * `[x for x in issues if x.owned_by_team.is_dev()]` (or `is_qa()`): the issues of one kind of
   * team in order; the first issue without an owner team stops it.
   */
  function Owned(issues: seq<Issue>, qa: bool): (r: Result<seq<Issue>>)
    ensures r.Ok? ==> |r.value| <= |issues|
  {
    if issues == [] then Ok([])
    else if issues[0].owner.None? then Err(NoOwnerTeam(issues[0].key))
    else
      match Owned(issues[1..], qa)
      case Err(e) => Err(e)
      case Ok(rest) => Ok(if OwnedBy(issues[0], qa) then [issues[0]] + rest else rest)
  }

  /**
   * `Owned` fails exactly when some issue has no owner team, naming the first such issue; otherwise
   * it keeps exactly the issues owned by the requested kind of team.
   */
  lemma {:induction false} OwnedSpec(issues: seq<Issue>, qa: bool)
    ensures Owned(issues, qa).Err? <==> exists i :: 0 <= i < |issues| && issues[i].owner.None?
    ensures Owned(issues, qa).Err? ==> exists i :: (0 <= i < |issues| && issues[i].owner.None?
      && Owned(issues, qa).error == NoOwnerTeam(issues[i].key) && (forall j :: 0 <= j < i ==> issues[j].owner.Some?))
    ensures Owned(issues, qa).Ok? ==> forall x :: x in Owned(issues, qa).value <==> x in issues && x.owner.Some? && OwnedBy(x, qa)
  {
    if issues != [] && issues[0].owner.Some? {
      OwnedSpec(issues[1..], qa);
      assert forall i :: 1 <= i < |issues| ==> issues[i] == issues[1..][i - 1];
      assert forall x :: x in issues <==> x == issues[0] || x in issues[1..];
      if Owned(issues, qa).Err? {
        var i :| 0 <= i < |issues[1..]| && issues[1..][i].owner.None? && Owned(issues, qa).error == NoOwnerTeam(issues[1..][i].key)
          && (forall j :: 0 <= j < i ==> issues[1..][j].owner.Some?);
        assert issues[i + 1] == issues[1..][i];
        assert forall j :: 0 <= j < i + 1 ==> issues[j].owner.Some? by {
          forall j | 0 <= j < i + 1 ensures issues[j].owner.Some? {
            if j > 0 { assert issues[j] == issues[1..][j - 1]; }
          }
        }
      }
    }
  }

  /** Both tables fail on the same issue, and no issue belongs to both. */
  lemma {:induction false} OwnedTogether(issues: seq<Issue>)
    ensures Owned(issues, false).Err? <==> Owned(issues, true).Err?
    ensures Owned(issues, false).Err? ==> Owned(issues, false).error == Owned(issues, true).error
    ensures Owned(issues, false).Ok? ==> forall x :: x in Owned(issues, false).value ==> x !in Owned(issues, true).value
  {
    if issues != [] && issues[0].owner.Some? {
      OwnedTogether(issues[1..]);
      OwnedSpec(issues[1..], false);
      OwnedSpec(issues[1..], true);
    }
  }

  // ---------------------------------------------------------------------------
  // Widths of the key and summary columns

  function MaxOf(xs: seq<int>): (m: int)
    requires |xs| > 0
    ensures m in xs && forall i :: 0 <= i < |xs| ==> xs[i] <= m
  {
    if |xs| == 1 then xs[0]
    else
      var rest := MaxOf(xs[1..]);
      assert forall i :: 1 <= i < |xs| ==> xs[i] == xs[1..][i - 1];
      if xs[0] >= rest then xs[0] else rest
  }

  /** `int(len(x.issue_summary) * 0.75)` per issue. */
  function SummaryWidths(issues: seq<Issue>): (r: seq<int>)
    ensures |r| == |issues|
  {
    seq(|issues|, i requires 0 <= i < |issues| => Truncate(|issues[i].summary| as real * 0.75))
  }

  function KeyWidths(issues: seq<Issue>): (r: seq<int>)
    ensures |r| == |issues|
  {
    seq(|issues|, i requires 0 <= i < |issues| => |issues[i].key|)
  }

  // ---------------------------------------------------------------------------
  // The development table header

  /** A row of team names, the first with a left border, closed by a `Total` with a right border. */
  function TeamHeader(teams: seq<Team>): (r: seq<RowItem>)
    ensures |r| == |teams| + 1
  {
    seq(|teams|, i requires 0 <= i < |teams| =>
      Styled(Text(teams[i].name), Some(if i == 0 then VerticalHeaderLeftFormat else VerticalHeaderFormat)))
    + [Styled(Text("Total"), Some(VerticalHeaderRightFormat))]
  }

  /** The merged range from (r1, c1) to (r2, c2) relative to `offset`. */
  function Span(offset: Pos, r1: int, c1: int, r2: int, c2: int, caption: string, format: Format): Merge {
    Merge((offset.row + r1, offset.column + c1), (offset.row + r2, offset.column + c2), caption, Some(format))
  }

  /** The merged titles of the header, left to right, for `d` dev and `q` QA teams. */
  function HeaderMerges(offset: Pos, d: nat, q: nat): seq<Merge> {
    LeadTitles(offset, d) + EffortTitles(offset, d) + TotalTitles(offset, d, q)
  }

  /** Key, summary, confidence, architecture and implementation. */
  function LeadTitles(offset: Pos, d: nat): seq<Merge> {
    [ Span(offset, 1, 0, 2, 0, "Key", CenteredHeaderFormat),
      Span(offset, 1, 1, 2, 1, "Summary", CenteredHeaderFormat),
      Span(offset, 1, 2, 1, 3, "Confidence", CenteredHeaderBorderFormat),
      Span(offset, 1, 4, 2, 4, "Arch design", VerticalHeaderFormat),
      Span(offset, 1, 5, 1, 5 + d, "Impl & unit tests", CenteredHeaderBorderFormat) ]
  }

  /** The activities derived from the implementation, documentation and performance work. */
  function EffortTitles(offset: Pos, d: nat): seq<Merge> {
    [ Span(offset, 1, 6 + d, 2, 6 + d, "Integration", VerticalHeaderFormat),
      Span(offset, 1, 7 + d, 2, 7 + d, "Test automation", VerticalHeaderFormat),
      Span(offset, 1, 8 + d, 2, 8 + d, "Stabilization", VerticalHeaderFormat),
      Span(offset, 1, 9 + d, 2, 9 + d, "Documentation", VerticalHeaderFormat),
      Span(offset, 1, 10 + d, 1, 10 + 2 * d, "Perf engineering", CenteredHeaderBorderFormat) ]
  }

  /** The per-team split, the QA effort and the feature total. */
  function TotalTitles(offset: Pos, d: nat, q: nat): seq<Merge> {
    [ Span(offset, 1, 11 + 2 * d, 1, 11 + 3 * d, "Feature dev subtotal", CenteredHeaderBorderFormat),
      Span(offset, 1, 12 + 3 * d, 1, 12 + 3 * d + q, "QA effort", CenteredHeaderBorderFormat),
      Span(offset, 1, 13 + 3 * d + q, 2, 13 + 3 * d + q, "Feature total", CenteredHeaderFormat) ]
  }

  /** The rows of names under the merged titles, all on the header's third row. */
  function HeaderRows(dev: seq<Team>, qa: seq<Team>, offset: Pos): seq<RowWrite> {
    var d := |dev|;
    [ RowWrite(RelPos(offset, 2, 2, None),
        [Styled(Text("Reqs"), Some(VerticalHeaderLeftFormat)), Styled(Text("Design"), Some(VerticalHeaderRightFormat))], None),
      RowWrite(RelPos(offset, 2, 5, None), TeamHeader(dev), Some(VerticalHeaderFormat)),
      RowWrite(RelPos(offset, 2, 10 + d, None), TeamHeader(dev), Some(VerticalHeaderFormat)),
      RowWrite(RelPos(offset, 2, 11 + 2 * d, None), TeamHeader(dev), Some(VerticalHeaderFormat)),
      RowWrite(RelPos(offset, 2, 12 + 3 * d, None), TeamHeader(qa), Some(VerticalHeaderFormat)) ]
  }

  /** The widths the header sets: five single columns by `merge_cells`, then one span per row of names. */
  function HeaderWidths(dev: seq<Team>, qa: seq<Team>, offset: Pos): seq<ColumnWidth> {
    TitleWidths(offset, |dev|) + NameWidths(HeaderRows(dev, qa, offset))
  }

  /** One width span per row of names. */
  function NameWidths(rows: seq<RowWrite>): seq<ColumnWidth>
    requires |rows| == 5
  {
    [RowWidth(rows[0], HeaderWidth), RowWidth(rows[1], HeaderWidth), RowWidth(rows[2], HeaderWidth),
     RowWidth(rows[3], HeaderWidth), RowWidth(rows[4], HeaderWidth)]
  }

  function TitleWidths(offset: Pos, d: nat): seq<ColumnWidth> {
    var c := offset.column;
    [ ColumnWidth(c + 4, c + 4, HeaderWidth), ColumnWidth(c + 6 + d, c + 6 + d, HeaderWidth),
      ColumnWidth(c + 7 + d, c + 7 + d, HeaderWidth), ColumnWidth(c + 8 + d, c + 8 + d, HeaderWidth),
      ColumnWidth(c + 9 + d, c + 9 + d, HeaderWidth) ]
  }

  /**
   * The header's titles and names cover exactly the columns of an issue row: the name rows end
   * at the QA total, and the last title, `Feature total`, sits in the row's last column.
   */
  lemma HeaderCoversRow(issue: Issue, fig: Figures, teams: seq<Team>, offset: Pos)
    ensures var dev, qa := DevTeams(teams), QaTeams(teams);
      var rows := HeaderRows(dev, qa, offset);
      var last := rows[4];
      && last.at.column + |last.items| == offset.column + ColumnCount(teams) - 1
      && HeaderMerges(offset, |dev|, |qa|)[12].first.1 == offset.column + ColumnCount(teams) - 1
      && |IssueColumns(issue, fig, dev, qa, offset)| == ColumnCount(teams)
  {
  }

  /** `_create_release_table_header`: the titles, the rows of names, and the table's first three rows. */
  method CreateReleaseTableHeader(sheet: Sheet, teams: seq<Team>, offset: Pos) returns (region: Region)
    modifies sheet
    ensures region == Region(Pos(offset.row, offset.column, None), 3, ColumnCount(teams))
    ensures sheet.cells == WrittenRows(old(sheet.cells), HeaderRows(DevTeams(teams), QaTeams(teams), offset))
    ensures sheet.merges == old(sheet.merges) + HeaderMerges(offset, |DevTeams(teams)|, |QaTeams(teams)|)
    ensures sheet.widths == old(sheet.widths) + HeaderWidths(DevTeams(teams), QaTeams(teams), offset)
  {
    var dev := DevTeams(teams);
    var qa := QaTeams(teams);
    var d, q := |dev|, |qa|;
    var columnCount := 14 + 3 * d + q;
    HeaderTitles(sheet, d, q, offset);
    HeaderNames(sheet, dev, qa, offset);
    return Region(Pos(offset.row, offset.column, None), 3, columnCount);
  }

  /** The `merge_cells` calls of the header. */
  method HeaderTitles(sheet: Sheet, d: nat, q: nat, offset: Pos)
    modifies sheet
    ensures sheet.cells == old(sheet.cells)
    ensures sheet.merges == old(sheet.merges) + HeaderMerges(offset, d, q)
    ensures sheet.widths == old(sheet.widths) + TitleWidths(offset, d)
  {
    var _, _ := MergeCells(sheet, RelPos(offset, 1, 0, None), RelPos(offset, 2, 0, None), "Key", Some(CenteredHeaderFormat), None);
    var _, _ := MergeCells(sheet, RelPos(offset, 1, 1, None), RelPos(offset, 2, 1, None), "Summary", Some(CenteredHeaderFormat), None);
    var _, _ := MergeCells(sheet, RelPos(offset, 1, 2, None), RelPos(offset, 1, 3, None), "Confidence", Some(CenteredHeaderBorderFormat), None);
    var _, col := MergeCells(sheet, RelPos(offset, 1, 4, None), RelPos(offset, 2, 4, None), "Arch design", Some(VerticalHeaderFormat), Some(HeaderWidth));
    var _, _ := MergeCells(sheet, RelPos(offset, 1, 5, None), RelPos(offset, 1, 5 + d, None), "Impl & unit tests", Some(CenteredHeaderBorderFormat), None);
    assert sheet.merges == old(sheet.merges) + LeadTitles(offset, d);
    var rel := RelPos(offset, 0, 5 + d + 1, None);
    EffortHeaderTitles(sheet, d, rel);
    rel := RelPos(rel, 0, 4 + d + 1, None);
    var _, _ := MergeCells(sheet, RelPos(rel, 1, 0, None), RelPos(rel, 1, d, None), "Feature dev subtotal", Some(CenteredHeaderBorderFormat), None);
    rel := RelPos(rel, 0, d + 1, None);
    var _, _ := MergeCells(sheet, RelPos(rel, 1, 0, None), RelPos(rel, 1, q, None), "QA effort", Some(CenteredHeaderBorderFormat), None);
    rel := RelPos(rel, 1, q, None);
    var _, _ := MergeCells(sheet, RelPos(rel, 0, 1, None), RelPos(rel, 1, 1, None), "Feature total", Some(CenteredHeaderFormat), None);
  }

  /** The five titles after the implementation group, from `rel` (its column is 6 + d). */
  method EffortHeaderTitles(sheet: Sheet, d: nat, rel: Pos)
    modifies sheet
    ensures sheet.cells == old(sheet.cells)
    ensures sheet.merges == old(sheet.merges) + EffortTitles(RelPos(rel, 0, -(6 + d), None), d)
    ensures sheet.widths == old(sheet.widths) + TitleWidths(RelPos(rel, 0, -(6 + d), None), d)[1..]
  {
    var _, _ := MergeCells(sheet, RelPos(rel, 1, 0, None), RelPos(rel, 2, 0, None), "Integration", Some(VerticalHeaderFormat), Some(HeaderWidth));
    var _, _ := MergeCells(sheet, RelPos(rel, 1, 1, None), RelPos(rel, 2, 1, None), "Test automation", Some(VerticalHeaderFormat), Some(HeaderWidth));
    var _, _ := MergeCells(sheet, RelPos(rel, 1, 2, None), RelPos(rel, 2, 2, None), "Stabilization", Some(VerticalHeaderFormat), Some(HeaderWidth));
    var _, _ := MergeCells(sheet, RelPos(rel, 1, 3, None), RelPos(rel, 2, 3, None), "Documentation", Some(VerticalHeaderFormat), Some(HeaderWidth));
    var _, _ := MergeCells(sheet, RelPos(rel, 1, 4, None), RelPos(rel, 1, 4 + d, None), "Perf engineering", Some(CenteredHeaderBorderFormat), None);
  }

  /** The `write_row` calls of the header: the two level titles and the four rows of team names. */
  method HeaderNames(sheet: Sheet, dev: seq<Team>, qa: seq<Team>, offset: Pos)
    modifies sheet
    ensures sheet.cells == WrittenRows(old(sheet.cells), HeaderRows(dev, qa, offset))
    ensures sheet.merges == old(sheet.merges)
    ensures sheet.widths == old(sheet.widths) + NameWidths(HeaderRows(dev, qa, offset))
  {
    ghost var rows := HeaderRows(dev, qa, offset);
    PutRow(sheet, RowWrite(RelPos(offset, 2, 2, None),
      [Styled(Text("Reqs"), Some(VerticalHeaderLeftFormat)), Styled(Text("Design"), Some(VerticalHeaderRightFormat))], None), Some(HeaderWidth));
    var rel := RelPos(offset, 2, 5, None);
    PutRow(sheet, RowWrite(rel, TeamHeader(dev), Some(VerticalHeaderFormat)), Some(HeaderWidth));
    TotalNames(sheet, dev, qa, offset, rel);
    WrittenRowsAppend(old(sheet.cells), [rows[0]], [rows[1]]);
    assert [rows[0]] + [rows[1]] == rows[..2];
    WrittenRowsAppend(old(sheet.cells), rows[..2], rows[2..]);
    assert rows[..2] + rows[2..] == rows;
  }

  /** The last three rows of names, for the split, the perf and the QA columns; `rel` is where the first row of names went. */
  method TotalNames(sheet: Sheet, dev: seq<Team>, qa: seq<Team>, offset: Pos, rel: Pos)
    requires rel == RelPos(offset, 2, 5, None)
    modifies sheet
    ensures sheet.cells == WrittenRows(old(sheet.cells), HeaderRows(dev, qa, offset)[2..])
    ensures sheet.merges == old(sheet.merges)
    ensures sheet.widths == old(sheet.widths) + NameWidths(HeaderRows(dev, qa, offset))[2..]
  {
    ghost var rows := HeaderRows(dev, qa, offset)[2..];
    var columns := |TeamHeader(dev)|;
    var at := RelPos(rel, 0, columns + 4, None);
    assert RowWrite(at, TeamHeader(dev), Some(VerticalHeaderFormat)) == rows[0];
    PutRow(sheet, RowWrite(at, TeamHeader(dev), Some(VerticalHeaderFormat)), Some(HeaderWidth));
    at := RelPos(at, 0, columns, None);
    assert RowWrite(at, TeamHeader(dev), Some(VerticalHeaderFormat)) == rows[1];
    PutRow(sheet, RowWrite(at, TeamHeader(dev), Some(VerticalHeaderFormat)), Some(HeaderWidth));
    at := RelPos(at, 0, columns, None);
    assert RowWrite(at, TeamHeader(qa), Some(VerticalHeaderFormat)) == rows[2];
    PutRow(sheet, RowWrite(at, TeamHeader(qa), Some(VerticalHeaderFormat)), Some(HeaderWidth));
    WrittenRowsAppend(old(sheet.cells), [rows[0]], [rows[1]]);
    assert [rows[0]] + [rows[1]] == rows[..2];
    WrittenRowsAppend(old(sheet.cells), rows[..2], [rows[2]]);
    assert rows[..2] + [rows[2]] == rows;
  }

  // ---------------------------------------------------------------------------
  // Issue rows and the totals row

  /** The row of one dev-owned issue at `at`, in the numeric format. */
  ghost function IssueRow(issue: Issue, teams: seq<Team>, at: Pos): RowWrite
    requires Placed(at)
  {
    var fig, dev, qa := IssueFigures(issue), DevTeams(teams), QaTeams(teams);
    IssueRowPlaced(issue, fig, dev, qa, at);
    RowWrite(at, Items(IssueColumns(issue, fig, dev, qa, at)), Some(NumericFormat))
  }

  /** One issue row per issue, the i-th `i` rows below `below`. */
  ghost function IssueRows(issues: seq<Issue>, teams: seq<Team>, below: Pos): (r: seq<RowWrite>)
    requires Placed(below)
    ensures |r| == |issues|
  {
    seq(|issues|, i requires 0 <= i < |issues| => IssueRow(issues[i], teams, RelPos(below, i, 0, None)))
  }

  /** The row `_add_totals_row` writes right under `region`, in the bold total format. */
  function TotalsRow(region: Region, skip: int): RowWrite
    requires Placed(region.offset) && region.rows >= 1
  {
    TotalsPlaced(region, skip);
    RowWrite(RelPos(region.offset, region.rows, 0, None), Items(TotalsColumns(region, skip)), Some(TotalFormat))
  }

  /** `_add_totals_row`. */
  method AddTotalsRow(sheet: Sheet, region: Region, skip: int)
    requires Placed(region.offset) && region.rows >= 1
    modifies sheet
    ensures sheet.cells == WrittenRows(old(sheet.cells), [TotalsRow(region, skip)])
    ensures sheet.widths == old(sheet.widths) && sheet.merges == old(sheet.merges)
  {
    var totals := TotalsItems(region, skip);
    TotalsPlaced(region, skip);
    var offset := RelPos(region.offset, region.rows, 0, None);
    PutRow(sheet, RowWrite(offset, Items(totals), Some(TotalFormat)), None);
  }

  // ---------------------------------------------------------------------------
  // The development table

  /** What a table builder leaves behind: its row writes, merges, widths, references and region. */
  datatype Table = Table(
    rows: seq<RowWrite>,
    merges: seq<Merge>,
    widths: seq<ColumnWidth>,
    refs: map<Team, Entry<CellReference>>,
    region: Region)

  /**
   * `base` with one reference added per team of `ts`, the k-th to column `column + k` of `row`;
   * a team listed twice keeps its last.
   */
  function ColumnRefs(base: map<Team, Entry<CellReference>>, ts: seq<Team>, row: int, column: int, sheetName: string, title: string)
    : map<Team, Entry<CellReference>>
  {
    if ts == [] then base
    else
      var before := ColumnRefs(base, ts[..|ts| - 1], row, column, sheetName, title);
      before[ts[|ts| - 1] := One(CellReference(Pos(row, column + |ts| - 1, Some(sheetName)), title))]
  }

  /** No element is listed twice: each one is missing from those listed before it. */
  predicate Distinct<T(==)>(s: seq<T>) {
    s == [] || (s[|s| - 1] !in s[..|s| - 1] && Distinct(s[..|s| - 1]))
  }

  /** `Distinct` is the pairwise statement: elements at different places differ. */
  lemma {:induction false} DistinctPairs<T>(s: seq<T>)
    ensures Distinct(s) <==> forall i, j :: 0 <= i < j < |s| ==> s[i] != s[j]
  {
    if s != [] {
      var n := |s| - 1;
      DistinctPairs(s[..n]);
      assert forall j :: 0 <= j < n ==> s[..n][j] == s[j];
      assert s[n] in s[..n] <==> exists j :: 0 <= j < n && s[j] == s[n];
    }
  }

  /** The element at `i` differs from every other one. */
  lemma DistinctAt<T>(s: seq<T>, i: int)
    requires Distinct(s) && 0 <= i < |s|
    ensures forall j :: 0 <= j < |s| && j != i ==> s[j] != s[i]
  {
    DistinctPairs(s);
  }

  /** Two sequences without repeats that share no element make one without repeats. */
  lemma DistinctAppend<T>(a: seq<T>, b: seq<T>)
    requires Distinct(a) && Distinct(b)
    requires forall i, j :: 0 <= i < |a| && 0 <= j < |b| ==> a[i] != b[j]
    ensures Distinct(a + b)
  {
    DistinctPairs(a);
    DistinctPairs(b);
    DistinctPairs(a + b);
  }

  /** The teams of `ts` are added to the keys of `base`, and no others. */
  lemma {:induction false} ColumnRefsKeys(base: map<Team, Entry<CellReference>>, ts: seq<Team>, row: int, column: int,
                                          sheetName: string, title: string)
    ensures ColumnRefs(base, ts, row, column, sheetName, title).Keys == base.Keys + set t | t in ts
  {
    if ts != [] {
      ColumnRefsKeys(base, ts[..|ts| - 1], row, column, sheetName, title);
      assert forall t :: t in ts <==> t in ts[..|ts| - 1] || t == ts[|ts| - 1];
    }
  }

  /** With no team listed twice, the k-th team refers to column `column + k`; unlisted teams keep theirs. */
  lemma {:induction false} ColumnRefsAt(base: map<Team, Entry<CellReference>>, ts: seq<Team>, row: int, column: int,
                                        sheetName: string, title: string, t: Team)
    requires Distinct(ts)
    ensures forall k :: 0 <= k < |ts| && ts[k] == t ==>
      t in ColumnRefs(base, ts, row, column, sheetName, title) &&
      ColumnRefs(base, ts, row, column, sheetName, title)[t] == One(CellReference(Pos(row, column + k, Some(sheetName)), title))
    ensures t !in ts && t in base ==>
      t in ColumnRefs(base, ts, row, column, sheetName, title) && ColumnRefs(base, ts, row, column, sheetName, title)[t] == base[t]
  {
    if ts != [] {
      var init := ts[..|ts| - 1];
      assert Distinct(init);
      ColumnRefsAt(base, init, row, column, sheetName, title, t);
      assert forall k :: 0 <= k < |ts| - 1 ==> init[k] == ts[k];
      assert t in ts <==> t in init || t == ts[|ts| - 1];
    }
  }

  /** The loop adding one reference per team of `ts`, starting at `column`. */
  method AddColumnRefs(refs0: map<Team, Entry<CellReference>>, ts: seq<Team>, row: int, column: int, sheetName: string, title: string)
    returns (refs: map<Team, Entry<CellReference>>)
    ensures refs == ColumnRefs(refs0, ts, row, column, sheetName, title)
  {
    refs := refs0;
    var teamColumn := column;
    for k := 0 to |ts|
      invariant refs == ColumnRefs(refs0, ts[..k], row, column, sheetName, title)
      invariant teamColumn == column + k
    {
      assert ts[..k + 1][..k] == ts[..k];
      refs := refs[ts[k] := One(CellReference(Pos(row, teamColumn, Some(sheetName)), title))];
      teamColumn := teamColumn + 1;
    }
    assert ts[..|ts|] == ts;
  }

  /**
   * The references of the development table: each dev team's share column and each QA team's
   * effort column, both on the table's anchor row and on the release's sheet.
   */
  function DevRefs(name: string, dev: seq<Team>, qa: seq<Team>, row: int, column: int): map<Team, Entry<CellReference>> {
    var d := |dev|;
    ColumnRefs(ColumnRefs(map[], dev, row, column + 11 + 2 * d, name, name),
               qa, row, column + 12 + 3 * d, name, name + " checks")
  }

  /** The position right under the development table's header. */
  function DevBody(offset: Pos): Pos {
    Pos(offset.row + 3, offset.column, None)
  }

  /** The rows of the development table: the header's, one per issue, then the totals. */
  ghost function DevRows(issues: seq<Issue>, teams: seq<Team>, offset: Pos): seq<RowWrite>
    requires Placed(offset) && issues != []
  {
    var below := DevBody(offset);
    HeaderRows(DevTeams(teams), QaTeams(teams), offset) + IssueRows(issues, teams, below)
    + [TotalsRow(Region(below, |issues|, ColumnCount(teams)), 4)]
  }

  /** The summary column as wide as the widest scaled summary, then the key column as wide as the longest key. */
  function KeyColumnWidths(issues: seq<Issue>, offset: Pos): seq<ColumnWidth>
    requires issues != []
  {
    [ColumnWidth(offset.column + 1, offset.column + 1, MaxOf(SummaryWidths(issues)) as real),
     ColumnWidth(offset.column, offset.column, MaxOf(KeyWidths(issues)) as real)]
  }

  /** The region `_create_dev_activities_table` returns: the header, the issue rows and the totals row. */
  function DevRegion(issues: seq<Issue>, teams: seq<Team>, offset: Pos): Region {
    Region(Pos(offset.row, offset.column, None), 3 + |issues| + 1, ColumnCount(teams))
  }

  /** The rows `_create_dev_activities_table` writes: none for no issues. */
  ghost function DevTableRows(issues: seq<Issue>, teams: seq<Team>, offset: Pos): seq<RowWrite>
    requires Placed(offset)
  {
    if issues == [] then [] else DevRows(issues, teams, offset)
  }

  /** The references `_create_dev_activities_table` returns: none for no issues. */
  function DevTableRefs(issues: seq<Issue>, name: string, teams: seq<Team>, offset: Pos): map<Team, Entry<CellReference>> {
    if issues == [] then map[] else DevRefs(name, DevTeams(teams), QaTeams(teams), offset.row, offset.column)
  }

  /** The region `_create_dev_activities_table` returns: a single empty row for no issues. */
  function DevTableRegion(issues: seq<Issue>, teams: seq<Team>, offset: Pos): Region {
    if issues == [] then Region(offset, 1, 0) else DevRegion(issues, teams, offset)
  }

  /** Everything `_create_dev_activities_table` writes and returns for the dev-owned `issues`. */
  ghost function DevTable(issues: seq<Issue>, name: string, teams: seq<Team>, offset: Pos): Table
    requires Placed(offset)
  {
    var rows, refs, region := DevTableRows(issues, teams, offset), DevTableRefs(issues, name, teams, offset),
                              DevTableRegion(issues, teams, offset);
    if issues == [] then Table(rows, [], [], refs, region)
    else
      var dev, qa := DevTeams(teams), QaTeams(teams);
      Table(rows, HeaderMerges(offset, |dev|, |qa|), HeaderWidths(dev, qa, offset) + KeyColumnWidths(issues, offset), refs, region)
  }

  /** `_create_dev_activities_table`. */
  method CreateDevActivitiesTable(sheet: Sheet, release: ProductRelease, teams: seq<Team>, offset: Pos)
    returns (r: Result<(map<Team, Entry<CellReference>>, Region)>)
    requires Placed(offset)
    modifies sheet
    ensures Owned(release.issues, false).Err? ==> r == Err(Owned(release.issues, false).error) && unchanged(sheet)
    ensures Owned(release.issues, false).Ok? ==>
      var t := DevTable(Owned(release.issues, false).value, release.name, teams, offset);
      && r == Ok((t.refs, t.region))
      && sheet.cells == WrittenRows(old(sheet.cells), t.rows)
      && sheet.merges == old(sheet.merges) + t.merges
      && sheet.widths == old(sheet.widths) + t.widths
  {
    var owned := Owned(release.issues, false);
    if owned.Err? {
      return Err(owned.error);
    }
    var issues := owned.value;
    if issues == [] {
      return Ok((map[], Region(offset, 1, 0)));
    }
    var refs, region := WriteOwnedDevTable(sheet, issues, release.name, teams, offset);
    return Ok((refs, region));
  }

  /** `_create_dev_activities_table` once the issues are selected and there is at least one. */
  method WriteOwnedDevTable(sheet: Sheet, issues: seq<Issue>, name: string, teams: seq<Team>, offset: Pos)
    returns (refs: map<Team, Entry<CellReference>>, region: Region)
    requires Placed(offset) && issues != []
    modifies sheet
    ensures refs == DevRefs(name, DevTeams(teams), QaTeams(teams), offset.row, offset.column)
    ensures region == DevRegion(issues, teams, offset)
    ensures sheet.cells == WrittenRows(old(sheet.cells), DevRows(issues, teams, offset))
    ensures sheet.merges == old(sheet.merges) + HeaderMerges(offset, |DevTeams(teams)|, |QaTeams(teams)|)
    ensures sheet.widths == old(sheet.widths) + (HeaderWidths(DevTeams(teams), QaTeams(teams), offset) + KeyColumnWidths(issues, offset))
  {
    var dev, qa := DevTeams(teams), QaTeams(teams);
    var header := WriteDevTable(sheet, issues, teams, offset);
    SetSummaryAndKeyWidths(sheet, issues, offset);
    refs := DevReferences(name, dev, qa, header.offset.column, offset.row);
    region := Region(header.offset, header.rows + |issues| + 1, header.columns);
    AppendTwice(old(sheet.widths), HeaderWidths(dev, qa, offset), KeyColumnWidths(issues, offset));
  }

  /** The two `set_column` calls of `_create_dev_activities_table`. */
  method SetSummaryAndKeyWidths(sheet: Sheet, issues: seq<Issue>, offset: Pos)
    requires issues != []
    modifies sheet
    ensures sheet.widths == old(sheet.widths) + KeyColumnWidths(issues, offset)
    ensures sheet.cells == old(sheet.cells) && sheet.merges == old(sheet.merges)
  {
    sheet.SetColumn(offset.column + 1, offset.column + 1, MaxOf(SummaryWidths(issues)) as real);
    sheet.SetColumn(offset.column, offset.column, MaxOf(KeyWidths(issues)) as real);
  }

  /** The header, the issue rows and the totals row of the development table. */
  method WriteDevTable(sheet: Sheet, issues: seq<Issue>, teams: seq<Team>, offset: Pos) returns (header: Region)
    requires Placed(offset) && issues != []
    modifies sheet
    ensures header == Region(Pos(offset.row, offset.column, None), 3, ColumnCount(teams))
    ensures sheet.cells == WrittenRows(old(sheet.cells), DevRows(issues, teams, offset))
    ensures sheet.merges == old(sheet.merges) + HeaderMerges(offset, |DevTeams(teams)|, |QaTeams(teams)|)
    ensures sheet.widths == old(sheet.widths) + HeaderWidths(DevTeams(teams), QaTeams(teams), offset)
  {
    header := CreateReleaseTableHeader(sheet, teams, offset);
    var below := PosBelow(header);
    assert below == DevBody(offset);
    WriteIssueRows(sheet, issues, teams, below);
    var totalsRegion := Region(below, |issues|, header.columns);
    AddTotalsRow(sheet, totalsRegion, 4);
    WrittenRowsThree(old(sheet.cells), HeaderRows(DevTeams(teams), QaTeams(teams), offset), IssueRows(issues, teams, below),
                     [TotalsRow(totalsRegion, 4)]);
  }

  /** The row loop of `_create_dev_activities_table`: one issue row under another. */
  method WriteIssueRows(sheet: Sheet, issues: seq<Issue>, teams: seq<Team>, below: Pos)
    requires Placed(below)
    modifies sheet
    ensures sheet.cells == WrittenRows(old(sheet.cells), IssueRows(issues, teams, below))
    ensures sheet.merges == old(sheet.merges) && sheet.widths == old(sheet.widths)
  {
    ghost var rows := IssueRows(issues, teams, below);
    for row := 0 to |issues|
      invariant sheet.cells == WrittenRows(old(sheet.cells), rows[..row])
      invariant sheet.merges == old(sheet.merges) && sheet.widths == old(sheet.widths)
    {
      PutIssueRow(sheet, issues[row], teams, RelPos(below, row, 0, None));
      WrittenRowsStep(old(sheet.cells), rows, row);
    }
    assert rows[..|issues|] == rows;
  }

  /** One pass of the row loop of `_create_dev_activities_table`. */
  method PutIssueRow(sheet: Sheet, issue: Issue, teams: seq<Team>, at: Pos)
    requires Placed(at)
    modifies sheet
    ensures sheet.cells == WrittenRows(old(sheet.cells), [IssueRow(issue, teams, at)])
    ensures sheet.merges == old(sheet.merges) && sheet.widths == old(sheet.widths)
  {
    var cells := CreateCellsForIssue(issue, teams, at);
    IssueRowPlaced(issue, IssueFigures(issue), DevTeams(teams), QaTeams(teams), at);
    PutRow(sheet, RowWrite(at, Items(cells), Some(NumericFormat)), None);
  }

  /** The two reference loops at the end of `_create_dev_activities_table`. */
  method DevReferences(name: string, dev: seq<Team>, qa: seq<Team>, column: int, row: int) returns (refs: map<Team, Entry<CellReference>>)
    ensures refs == DevRefs(name, dev, qa, row, column)
  {
    var devRefs := AddColumnRefs(map[], dev, row, column + 11 + 2 * |dev|, name, name);
    refs := AddColumnRefs(devRefs, qa, row, column + 12 + 3 * |dev|, name, name + " checks");
  }

  // ---------------------------------------------------------------------------
  // The QA table

  function QaHeaderMerges(offset: Pos, q: nat): seq<Merge> {
    [ Span(offset, 0, 0, 1, 0, "Key", CenteredHeaderFormat),
      Span(offset, 0, 1, 1, 1, "Summary", CenteredHeaderFormat),
      Span(offset, 0, 2, 0, 2 + q, "QA effort", CenteredHeaderBorderFormat) ]
  }

  function QaHeaderRows(qa: seq<Team>, offset: Pos): seq<RowWrite> {
    [RowWrite(RelPos(offset, 1, 2, None), TeamHeader(qa), Some(VerticalHeaderFormat))]
  }

  /** `_create_qa_activities_table_header`: two rows, key, summary and one column per QA team plus the total. */
  method CreateQaActivitiesTableHeader(sheet: Sheet, qa: seq<Team>, offset: Pos) returns (region: Region)
    modifies sheet
    ensures region == Region(offset, 2, 3 + |qa|)
    ensures sheet.cells == WrittenRows(old(sheet.cells), QaHeaderRows(qa, offset))
    ensures sheet.merges == old(sheet.merges) + QaHeaderMerges(offset, |qa|)
    ensures sheet.widths == old(sheet.widths) + [RowWidth(QaHeaderRows(qa, offset)[0], HeaderWidth)]
  {
    var _, _ := MergeCells(sheet, RelPos(offset, 0, 0, None), RelPos(offset, 1, 0, None), "Key", Some(CenteredHeaderFormat), None);
    var _, _ := MergeCells(sheet, RelPos(offset, 0, 1, None), RelPos(offset, 1, 1, None), "Summary", Some(CenteredHeaderFormat), None);
    var rel := RelPos(offset, 0, 2, None);
    var _, _ := MergeCells(sheet, rel, RelPos(rel, 0, |qa|, None), "QA effort", Some(CenteredHeaderBorderFormat), None);
    rel := RelPos(rel, 1, 0, None);
    PutRow(sheet, RowWrite(rel, TeamHeader(qa), Some(VerticalHeaderFormat)), Some(HeaderWidth));
    return Region(offset, 2, 3 + |qa|);
  }

  /** The row of one QA-owned issue at `at`, in the numeric format. */
  function QaIssueRow(issue: Issue, qa: seq<Team>, at: Pos): RowWrite
    requires Placed(at)
  {
    QaIssueRowPlaced(issue, qa, at);
    RowWrite(at, Items(QaIssueColumns(issue, qa, at)), Some(NumericFormat))
  }

  function QaIssueRows(issues: seq<Issue>, qa: seq<Team>, below: Pos): (r: seq<RowWrite>)
    requires Placed(below)
    ensures |r| == |issues|
  {
    seq(|issues|, i requires 0 <= i < |issues| => QaIssueRow(issues[i], qa, RelPos(below, i, 0, None)))
  }

  /** `d[t].append(x)`, creating the list first when `t` has none. */
  function Appended(m: map<Team, seq<CellReference>>, t: Team, x: CellReference): map<Team, seq<CellReference>> {
    m[t := (if t in m then m[t] else []) + [x]]
  }

  /** The references one QA row adds: the k-th QA team's to column `1 + k` of the row, titled with the summary. */
  function RowRefs(m: map<Team, seq<CellReference>>, qa: seq<Team>, at: Pos, sheetName: string, title: string)
    : map<Team, seq<CellReference>>
  {
    if qa == [] then m
    else Appended(RowRefs(m, qa[..|qa| - 1], at, sheetName, title), qa[|qa| - 1],
                  CellReference(RelPos(at, 0, |qa|, Some(sheetName)), title))
  }

  /** The references of the QA table after its first `|issues|` rows. */
  function QaRefs(issues: seq<Issue>, qa: seq<Team>, below: Pos, sheetName: string): map<Team, seq<CellReference>> {
    if issues == [] then map[]
    else
      var n := |issues| - 1;
      RowRefs(QaRefs(issues[..n], qa, below, sheetName), qa, RelPos(below, n, 0, None), sheetName, issues[n].summary)
  }

  /** A row adds one reference to the end of each listed team's list and leaves the other teams alone. */
  lemma {:induction false} RowRefsAt(m: map<Team, seq<CellReference>>, qa: seq<Team>, at: Pos, sheetName: string, title: string, t: Team)
    requires Distinct(qa)
    ensures var r := RowRefs(m, qa, at, sheetName, title);
      && (t in r <==> t in m || t in qa)
      && (t !in qa && t in m ==> r[t] == m[t])
      && (forall k :: 0 <= k < |qa| && qa[k] == t ==>
            r[t] == (if t in m then m[t] else []) + [CellReference(RelPos(at, 0, 1 + k, Some(sheetName)), title)])
  {
    if qa != [] {
      var init := qa[..|qa| - 1];
      assert Distinct(init);
      RowRefsAt(m, init, at, sheetName, title, t);
      assert forall k :: 0 <= k < |qa| - 1 ==> init[k] == qa[k];
      assert t in qa <==> t in init || t == qa[|qa| - 1];
    }
  }

  /**
   * With no QA team listed twice, each QA team ends up with one reference per QA-owned issue, in
   * issue order: column 1 + k of the issue's row (as written, one left of the team's effort
   * column), titled with the issue's summary.
   */
  lemma {:induction false} QaRefsAt(issues: seq<Issue>, qa: seq<Team>, below: Pos, sheetName: string, k: nat)
    requires Distinct(qa) && k < |qa| && |issues| >= 1
    ensures qa[k] in QaRefs(issues, qa, below, sheetName)
    ensures QaRefs(issues, qa, below, sheetName)[qa[k]]
      == seq(|issues|, i requires 0 <= i < |issues| =>
           CellReference(Pos(below.row + i, below.column + 1 + k, Some(sheetName)), issues[i].summary))
  {
    var n := |issues| - 1;
    var before := QaRefs(issues[..n], qa, below, sheetName);
    RowRefsAt(before, qa, RelPos(below, n, 0, None), sheetName, issues[n].summary, qa[k]);
    if n == 0 {
      assert qa[k] !in before;
    } else {
      QaRefsAt(issues[..n], qa, below, sheetName, k);
    }
  }

  /** The position right under the QA table's header. */
  function QaBody(offset: Pos): Pos {
    Pos(offset.row + 2, offset.column, None)
  }

  /** The rows `_create_qa_activities_table` writes: none for no issues. */
  function QaTableRows(issues: seq<Issue>, teams: seq<Team>, offset: Pos): seq<RowWrite>
    requires Placed(offset)
  {
    if issues == [] then []
    else
      var qa, below := QaTeams(teams), QaBody(offset);
      QaHeaderRows(qa, offset) + QaIssueRows(issues, qa, below) + [TotalsRow(Region(below, |issues|, 3 + |qa|), 2)]
  }

  /** The references `_create_qa_activities_table` returns: none for no issues. */
  function QaTableRefs(issues: seq<Issue>, name: string, teams: seq<Team>, offset: Pos): map<Team, Entry<CellReference>> {
    if issues == [] then map[] else AsEntries(QaRefs(issues, QaTeams(teams), QaBody(offset), name))
  }

  /** Everything `_create_qa_activities_table` writes and returns for the QA-owned `issues`. */
  function QaTable(issues: seq<Issue>, name: string, teams: seq<Team>, offset: Pos): Table
    requires Placed(offset)
  {
    var rows, refs := QaTableRows(issues, teams, offset), QaTableRefs(issues, name, teams, offset);
    if issues == [] then Table(rows, [], [], refs, Region(offset, 1, 0))
    else
      var qa := QaTeams(teams);
      Table(rows, QaHeaderMerges(offset, |qa|), [RowWidth(QaHeaderRows(qa, offset)[0], HeaderWidth)], refs,
            Region(offset, 2 + |issues| + 1, 3 + |qa|))
  }

  /** `_create_qa_activities_table`. */
  method CreateQaActivitiesTable(sheet: Sheet, release: ProductRelease, teams: seq<Team>, offset: Pos)
    returns (r: Result<(map<Team, seq<CellReference>>, Region)>)
    requires Placed(offset)
    modifies sheet
    ensures Owned(release.issues, true).Err? ==> r == Err(Owned(release.issues, true).error) && unchanged(sheet)
    ensures Owned(release.issues, true).Ok? ==>
      var issues := Owned(release.issues, true).value;
      var t := QaTable(issues, release.name, teams, offset);
      && r.Ok? && AsEntries(r.value.0) == t.refs && r.value.1 == t.region
      && (issues != [] ==> r.value.0 == QaRefs(issues, QaTeams(teams), QaBody(offset), release.name))
      && sheet.cells == WrittenRows(old(sheet.cells), t.rows)
      && sheet.merges == old(sheet.merges) + t.merges
      && sheet.widths == old(sheet.widths) + t.widths
  {
    var owned := Owned(release.issues, true);
    if owned.Err? {
      return Err(owned.error);
    }
    var issues := owned.value;
    if issues == [] {
      return Ok((map[], Region(offset, 1, 0)));
    }
    var qa := QaTeams(teams);
    var header := CreateQaActivitiesTableHeader(sheet, qa, offset);
    var below := PosBelow(header);
    assert below == QaBody(offset);
    var refs := WriteQaIssueRows(sheet, issues, qa, below, release.name);
    var totalsRegion := Region(below, |issues|, header.columns);
    AddTotalsRow(sheet, totalsRegion, 2);
    WrittenRowsThree(old(sheet.cells), QaHeaderRows(qa, offset), QaIssueRows(issues, qa, below), [TotalsRow(totalsRegion, 2)]);
    return Ok((refs, Region(header.offset, header.rows + |issues| + 1, header.columns)));
  }

  /** The row loop of `_create_qa_activities_table`: each row, then its references. */
  method WriteQaIssueRows(sheet: Sheet, issues: seq<Issue>, qa: seq<Team>, below: Pos, name: string)
    returns (refs: map<Team, seq<CellReference>>)
    requires Placed(below)
    modifies sheet
    ensures sheet.cells == WrittenRows(old(sheet.cells), QaIssueRows(issues, qa, below))
    ensures sheet.merges == old(sheet.merges) && sheet.widths == old(sheet.widths)
    ensures refs == QaRefs(issues, qa, below, name)
  {
    ghost var rows := QaIssueRows(issues, qa, below);
    refs := map[];
    for row := 0 to |issues|
      invariant sheet.cells == WrittenRows(old(sheet.cells), rows[..row])
      invariant sheet.merges == old(sheet.merges) && sheet.widths == old(sheet.widths)
      invariant refs == QaRefs(issues[..row], qa, below, name)
    {
      var at := RelPos(below, row, 0, None);
      PutQaIssueRow(sheet, issues[row], qa, at);
      WrittenRowsStep(old(sheet.cells), rows, row);
      assert issues[..row + 1][..row] == issues[..row];
      refs := AddRowRefs(refs, qa, at, name, issues[row].summary);
    }
    assert rows[..|issues|] == rows;
    assert issues[..|issues|] == issues;
  }

  /** The cells of one pass of the row loop of `_create_qa_activities_table`. */
  method PutQaIssueRow(sheet: Sheet, issue: Issue, qa: seq<Team>, at: Pos)
    requires Placed(at)
    modifies sheet
    ensures sheet.cells == WrittenRows(old(sheet.cells), [QaIssueRow(issue, qa, at)])
    ensures sheet.merges == old(sheet.merges) && sheet.widths == old(sheet.widths)
  {
    var cells := CreateCellsForQaIssue(issue, qa, at);
    QaIssueRowPlaced(issue, qa, at);
    PutRow(sheet, RowWrite(at, Items(cells), Some(NumericFormat)), None);
  }

  /** The inner loop: one reference per QA team, from column 1 on. */
  method AddRowRefs(refs0: map<Team, seq<CellReference>>, qa: seq<Team>, at: Pos, name: string, title: string)
    returns (refs: map<Team, seq<CellReference>>)
    ensures refs == RowRefs(refs0, qa, at, name, title)
  {
    refs := refs0;
    var col := 1;
    for k := 0 to |qa|
      invariant col == 1 + k
      invariant refs == RowRefs(refs0, qa[..k], at, name, title)
    {
      assert qa[..k + 1][..k] == qa[..k];
      refs := Appended(refs, qa[k], CellReference(RelPos(at, 0, col, Some(name)), title));
      col := col + 1;
    }
    assert qa[..|qa|] == qa;
  }

  // ---------------------------------------------------------------------------
  // The release sheet

  /** The QA table's anchor: two rows under the development table. */
  function QaAnchor(dev: Region): Pos {
    RelPos(PosBelow(dev), 2, 0, None)
  }

  /**
   * What a release sheet has received: rows of cells, merged ranges and column widths in the order
   * written, the last table's region, and the references its tables returned, merged in order.
   */
  datatype Drawing = Drawing(rows: seq<RowWrite>, merges: seq<Merge>, widths: seq<ColumnWidth>, last: Region,
                             refs: map<Team, seq<CellReference>>)

  /**
   * The `k`-th table `fill_release_worksheet` creates: 0 is the development table at the sheet's origin,
   * 1 the QA table, anchored two rows below the region of the first.
   */
  ghost function ReleaseTable(release: ProductRelease, teams: seq<Team>, k: nat): (t: Table)
    requires Owned(release.issues, false).Ok? && k <= 1
    ensures k == 0 ==> Placed(PosBelow(t.region))
    decreases release, k, 1
  {
    OwnedTogether(release.issues);
    if k == 0 then DevTable(Owned(release.issues, false).value, release.name, teams, Pos(0, 0, None))
    else QaTable(Owned(release.issues, true).value, release.name, teams, QaAnchor(ReleaseDrawing(release, teams, 1).last))
  }

  /** The worksheet after `fill_release_worksheet` has created its first `n` tables. */
  ghost function ReleaseDrawing(release: ProductRelease, teams: seq<Team>, n: nat): Drawing
    requires Owned(release.issues, false).Ok? && 1 <= n <= 2
    decreases release, n, 0
  {
    var table := ReleaseTable(release, teams, n - 1);
    if n == 1 then Drawing(table.rows, table.merges, table.widths, table.region, Values(table.refs))
    else
      var before := ReleaseDrawing(release, teams, n - 1);
      Drawing(before.rows + table.rows, before.merges + table.merges, before.widths + table.widths, table.region,
              Merged(AsEntries(before.refs), table.refs))
  }

  /** The references `fill_release_worksheet` returns: the dev table's, then the QA table's, team by team. */
  ghost function ReleaseRefs(release: ProductRelease, teams: seq<Team>): Result<map<Team, seq<CellReference>>> {
    match Owned(release.issues, false)
    case Err(e) => Err(e)
    case Ok(_) => Ok(ReleaseDrawing(release, teams, 2).refs)
  }

  /** A release sheet's references are those of its development table merged with those of its QA table. */
  lemma ReleaseRefsTables(release: ProductRelease, teams: seq<Team>)
    requires Owned(release.issues, false).Ok?
    ensures ReleaseRefs(release, teams) == Ok(Merged(ReleaseTable(release, teams, 0).refs, ReleaseTable(release, teams, 1).refs))
  {
    var dev, qa := ReleaseTable(release, teams, 0), ReleaseTable(release, teams, 1);
    assert ReleaseDrawing(release, teams, 1).refs == Values(dev.refs);
    assert ReleaseDrawing(release, teams, 2).refs == Merged(AsEntries(Values(dev.refs)), qa.refs);
    MergedValues(dev.refs, qa.refs);
  }

  /** Appending two batches one after the other appends them together. */
  lemma AppendTwice<T>(before: seq<T>, first: seq<T>, second: seq<T>)
    ensures before + first + second == before + (first + second)
  {
  }

  /** The rows `fill_release_worksheet` writes: none when it stops at an issue without an owner team. */
  ghost function ReleaseRows(release: ProductRelease, teams: seq<Team>): seq<RowWrite> {
    match Owned(release.issues, false)
    case Err(_) => []
    case Ok(_) => ReleaseDrawing(release, teams, 2).rows
  }

  // ---------------------------------------------------------------------------
  // Where the references point

  predicate EntriesPlaced(m: map<Team, Entry<CellReference>>) {
    forall t :: t in m ==> RefsPlaced(Listed(m[t]))
  }

  /** Every reference of every team points at a cell on its sheet. */
  predicate ListsPlaced(m: map<Team, seq<CellReference>>) {
    forall t :: t in m ==> RefsPlaced(m[t])
  }

  lemma {:induction false} ColumnRefsPlaced(base: map<Team, Entry<CellReference>>, ts: seq<Team>, row: int, column: int,
                                            sheetName: string, title: string)
    requires EntriesPlaced(base) && row >= 0 && column >= 0
    ensures EntriesPlaced(ColumnRefs(base, ts, row, column, sheetName, title))
  {
    if ts != [] {
      ColumnRefsPlaced(base, ts[..|ts| - 1], row, column, sheetName, title);
    }
  }

  lemma {:induction false} RowRefsPlaced(m: map<Team, seq<CellReference>>, qa: seq<Team>, at: Pos, sheetName: string, title: string)
    requires ListsPlaced(m) && Placed(at)
    ensures ListsPlaced(RowRefs(m, qa, at, sheetName, title))
  {
    if qa != [] {
      var before := RowRefs(m, qa[..|qa| - 1], at, sheetName, title);
      RowRefsPlaced(m, qa[..|qa| - 1], at, sheetName, title);
      var t, x := qa[|qa| - 1], CellReference(RelPos(at, 0, |qa|, Some(sheetName)), title);
      assert RefsPlaced((if t in before then before[t] else []) + [x]);
    }
  }

  lemma {:induction false} QaRefsPlaced(issues: seq<Issue>, qa: seq<Team>, below: Pos, sheetName: string)
    requires Placed(below)
    ensures ListsPlaced(QaRefs(issues, qa, below, sheetName))
  {
    if issues != [] {
      var n := |issues| - 1;
      QaRefsPlaced(issues[..n], qa, below, sheetName);
      RowRefsPlaced(QaRefs(issues[..n], qa, below, sheetName), qa, RelPos(below, n, 0, None), sheetName, issues[n].summary);
    }
  }

  lemma MergedPlaced(d1: map<Team, Entry<CellReference>>, d2: map<Team, Entry<CellReference>>)
    requires EntriesPlaced(d1) && EntriesPlaced(d2)
    ensures ListsPlaced(Merged(d1, d2))
  {
    forall t | t in Merged(d1, d2) ensures RefsPlaced(Merged(d1, d2)[t]) {
      MergedItems(d1, d2, t);
    }
  }

  lemma DevRefsPlaced(name: string, dev: seq<Team>, qa: seq<Team>, row: int, column: int)
    requires row >= 0 && column >= 0
    ensures EntriesPlaced(DevRefs(name, dev, qa, row, column))
  {
    var d := |dev|;
    NoRefsPlaced();
    var first := ColumnRefs(map[], dev, row, column + 11 + 2 * d, name, name);
    assert DevRefs(name, dev, qa, row, column) == ColumnRefs(first, qa, row, column + 12 + 3 * d, name, name + " checks");
    TwoColumnRefsPlaced(map[], dev, qa, row, column + 11 + 2 * d, column + 12 + 3 * d, name, name, name + " checks");
  }

  lemma TwoColumnRefsPlaced(base: map<Team, Entry<CellReference>>, a: seq<Team>, b: seq<Team>, row: int, c1: int, c2: int,
                            sheetName: string, t1: string, t2: string)
    requires EntriesPlaced(base) && row >= 0 && c1 >= 0 && c2 >= 0
    ensures EntriesPlaced(ColumnRefs(ColumnRefs(base, a, row, c1, sheetName, t1), b, row, c2, sheetName, t2))
  {
    ColumnRefsPlaced(base, a, row, c1, sheetName, t1);
    ColumnRefsPlaced(ColumnRefs(base, a, row, c1, sheetName, t1), b, row, c2, sheetName, t2);
  }

  lemma NoRefsPlaced()
    ensures EntriesPlaced(map[])
  {
  }

  lemma QaRefsTablePlaced(issues: seq<Issue>, name: string, teams: seq<Team>, offset: Pos)
    requires Placed(offset)
    ensures EntriesPlaced(QaTableRefs(issues, name, teams, offset))
  {
    if issues != [] {
      QaRefsPlaced(issues, QaTeams(teams), QaBody(offset), name);
    }
  }

  /** Every reference a table of a release sheet returns points at a cell on that sheet. */
  lemma ReleaseTablePlaced(release: ProductRelease, teams: seq<Team>, k: nat)
    requires Owned(release.issues, false).Ok? && k <= 1
    ensures EntriesPlaced(ReleaseTable(release, teams, k).refs)
  {
    OwnedTogether(release.issues);
    if k == 0 {
      if Owned(release.issues, false).value != [] {
        DevRefsPlaced(release.name, DevTeams(teams), QaTeams(teams), 0, 0);
      }
    } else {
      QaRefsTablePlaced(Owned(release.issues, true).value, release.name, teams, QaAnchor(ReleaseDrawing(release, teams, 1).last));
    }
  }

  /** Every reference a release sheet hands to the calendars points at a cell on that sheet. */
  lemma ReleaseRefsPlaced(release: ProductRelease, teams: seq<Team>)
    ensures ReleaseRefs(release, teams).Ok? ==> ListsPlaced(ReleaseRefs(release, teams).value)
  {
    if Owned(release.issues, false).Ok? {
      ReleaseRefsTables(release, teams);
      ReleaseTablePlaced(release, teams, 0);
      ReleaseTablePlaced(release, teams, 1);
      MergedPlaced(ReleaseTable(release, teams, 0).refs, ReleaseTable(release, teams, 1).refs);
    }
  }

  /** `fill_release_worksheet`: both tables, and every team's references, dev table first. */
  method FillReleaseWorksheet(sheet: Sheet, release: ProductRelease, teams: seq<Team>)
    returns (r: Result<map<Team, seq<CellReference>>>)
    modifies sheet
    ensures Owned(release.issues, false).Err? ==> r == Err(Owned(release.issues, false).error) && unchanged(sheet)
    ensures r == ReleaseRefs(release, teams)
    ensures Owned(release.issues, false).Ok? ==>
      var drawn := ReleaseDrawing(release, teams, 2);
      && sheet.cells == WrittenRows(old(sheet.cells), drawn.rows)
      && sheet.merges == old(sheet.merges) + drawn.merges
      && sheet.widths == old(sheet.widths) + drawn.widths
  {
    OwnedTogether(release.issues);
    var devResult := CreateDevActivitiesTable(sheet, release, teams, Pos(0, 0, None));
    if devResult.Err? {
      return Err(devResult.error);
    }
    var (devRefs, devRegion) := devResult.value;
    ghost var afterDev := sheet.cells;
    var qaResult := CreateQaActivitiesTable(sheet, release, teams, RelPos(PosBelow(devRegion), 2, 0, None));
    var (qaRefs, _) := qaResult.value;
    ghost var dev := DevTable(Owned(release.issues, false).value, release.name, teams, Pos(0, 0, None));
    assert ReleaseTable(release, teams, 0) == dev;
    assert ReleaseDrawing(release, teams, 1) == Drawing(dev.rows, dev.merges, dev.widths, devRegion, Values(dev.refs));
    ghost var qa := QaTable(Owned(release.issues, true).value, release.name, teams, QaAnchor(devRegion));
    assert ReleaseTable(release, teams, 1) == qa;
    assert ReleaseDrawing(release, teams, 2).rows == dev.rows + qa.rows;
    assert ReleaseDrawing(release, teams, 2).merges == dev.merges + qa.merges;
    assert ReleaseDrawing(release, teams, 2).widths == dev.widths + qa.widths;
    WrittenRowsAppend(old(sheet.cells), dev.rows, qa.rows);
    AppendTwice(old(sheet.merges), dev.merges, qa.merges);
    AppendTwice(old(sheet.widths), dev.widths, qa.widths);
    ReleaseRefsTables(release, teams);
    var merged := MergeDicts(devRefs, AsEntries(qaRefs));
    return Ok(merged);
  }
}
