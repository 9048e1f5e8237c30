/**
 * `export_plan` of `plan_b/exporters/xlsx/__init__.py`: one sheet per team, then one per release,
 * every release sheet filled with its references merged in release order, every team calendar
 * built from its references (and edited with the allocations of a previous export, when there are
 * any), and last the Meta sheet recording where every allocation row went.
 */
module Export {
  import opened Wrappers
  import opened Text
  import opened Dates
  import opened Layout
  import opened Teams
  import opened Plan
  import opened Dicts
  import opened Metadata
  import opened Release
  import opened TeamCalendar

  // ---------------------------------------------------------------------------
  // The sheets and their names

  /** The characters `add_worksheet` refuses in a sheet name. */
  const SheetNameForbidden: set<char> := {'[', ']', ':', '*', '?', '/', '\\'}

  /** A sheet name Excel accepts: at most 31 characters, none of `[]:*?/\`, no apostrophe at either end. */
  predicate ValidSheetName(name: string) {
    && |name| <= 31
    && (forall i :: 0 <= i < |name| ==> name[i] !in SheetNameForbidden)
    && (name == [] || (name[0] != '\'' && name[|name| - 1] != '\''))
  }

  /** Two sheet names Excel takes for the same one: they agree once lower-cased. */
  predicate SameSheetName(a: string, b: string) {
    Lower(a) == Lower(b)
  }

  /** The name a sheet asked for as `name` gets after the sheets `existing`: an empty one becomes `Sheet<n>`, counting from 1. */
  function SheetName(existing: seq<string>, name: string): (r: string)
    ensures r != []
    ensures name != [] ==> r == name
  {
    if name == [] then "Sheet" + NatToString(|existing| + 1) else name
  }

  /** Why `add_worksheet` refuses the name `name` after the sheets `existing`, in the order it checks. */
  function SheetNameError(existing: seq<string>, name: string): Option<Error> {
    if !ValidSheetName(name) then Some(InvalidSheetName(name))
    else if exists j :: 0 <= j < |existing| && SameSheetName(existing[j], name) then Some(DuplicateSheetName(name))
    else None
  }

  /** The names the sheets asked for as `names` get, one after the other after `existing`; the first refusal stops it. */
  function AddedNames(existing: seq<string>, names: seq<string>): Result<seq<string>> {
    if names == [] then Ok([])
    else
      var before :- AddedNames(existing, names[..|names| - 1]);
      var name := SheetName(existing + before, names[|names| - 1]);
      var refused := SheetNameError(existing + before, name);
      if refused.Some? then Err(refused.value) else Ok(before + [name])
  }

  /** One more name: the names before it, then its own, unless it is refused. */
  lemma AddedNamesNext(existing: seq<string>, names: seq<string>, i: nat)
    requires i < |names|
    ensures AddedNames(existing, names[..i + 1])
         == (var before :- AddedNames(existing, names[..i]);
             var name := SheetName(existing + before, names[i]);
             var refused := SheetNameError(existing + before, name);
             if refused.Some? then Err(refused.value) else Ok(before + [name]))
  {
    assert names[..i + 1][..i] == names[..i];
  }

  /** The name asked for at `i`, after the names before it were accepted as `added`, is accepted unless refused. */
  lemma AddedNamesAccepts(existing: seq<string>, names: seq<string>, i: nat, added: seq<string>)
    requires i < |names| && AddedNames(existing, names[..i]) == Ok(added)
    requires SheetNameError(existing + added, SheetName(existing + added, names[i])).None?
    ensures AddedNames(existing, names[..i + 1]) == Ok(added + [SheetName(existing + added, names[i])])
  {
    AddedNamesNext(existing, names, i);
  }

  /** A refusal at `i`, after the names before it were accepted as `added`, is the outcome for all of them. */
  lemma AddedNamesRefused(existing: seq<string>, names: seq<string>, i: nat, added: seq<string>)
    requires i < |names| && AddedNames(existing, names[..i]) == Ok(added)
    requires SheetNameError(existing + added, SheetName(existing + added, names[i])).Some?
    ensures AddedNames(existing, names) == Err(SheetNameError(existing + added, SheetName(existing + added, names[i])).value)
  {
    AddedNamesNext(existing, names, i);
    AddedNamesStops(existing, names, i + 1);
  }

  /** Once the names before `i` are refused, so are all of them, with the same error. */
  lemma {:induction false} AddedNamesStops(existing: seq<string>, names: seq<string>, i: nat)
    requires i <= |names| && AddedNames(existing, names[..i]).Err?
    ensures AddedNames(existing, names) == AddedNames(existing, names[..i])
    decreases |names| - i
  {
    if i < |names| {
      assert names[..i + 1][..i] == names[..i];
      AddedNamesStops(existing, names, i + 1);
    } else {
      assert names[..i] == names;
    }
  }

  /**
   * Accepted names are what Excel allows: valid, none the same (ignoring case) as another one or as
   * an existing sheet's, and each the one asked for unless that was empty.
   */
  lemma {:induction false} AddedNamesValid(existing: seq<string>, names: seq<string>)
    requires AddedNames(existing, names).Ok?
    ensures var added := AddedNames(existing, names).value;
      && |added| == |names|
      && (forall i :: 0 <= i < |added| ==> ValidSheetName(added[i]) && (names[i] != [] ==> added[i] == names[i]))
      && (forall i, j :: 0 <= i < |existing| && 0 <= j < |added| ==> !SameSheetName(existing[i], added[j]))
      && (forall i, j :: 0 <= i < j < |added| ==> !SameSheetName(added[i], added[j]))
  {
    if names != [] {
      var n := |names| - 1;
      AddedNamesValid(existing, names[..n]);
      var before := AddedNames(existing, names[..n]).value;
      var added := AddedNames(existing, names).value;
      assert added == before + [SheetName(existing + before, names[n])];
      forall i | 0 <= i < |existing| ensures !SameSheetName(existing[i], added[n]) {
        assert (existing + before)[i] == existing[i];
      }
      forall i | 0 <= i < n ensures !SameSheetName(added[i], added[n]) {
        assert (existing + before)[|existing| + i] == added[i];
      }
    }
  }

  /** Conversely, names that are all given, valid and different (ignoring case) from each other and the existing ones are accepted as they are. */
  lemma {:induction false} AddedNamesAccepted(existing: seq<string>, names: seq<string>)
    requires forall i :: 0 <= i < |names| ==> names[i] != [] && ValidSheetName(names[i])
    requires forall i, j :: 0 <= i < |existing| && 0 <= j < |names| ==> !SameSheetName(existing[i], names[j])
    requires forall i, j :: 0 <= i < j < |names| ==> !SameSheetName(names[i], names[j])
    ensures AddedNames(existing, names) == Ok(names)
  {
    if names != [] {
      var n := |names| - 1;
      AddedNamesAccepted(existing, names[..n]);
      assert forall j :: 0 <= j < n ==> names[..n][j] == names[j];
      forall j | 0 <= j < |existing + names[..n]| ensures !SameSheetName((existing + names[..n])[j], names[n]) {
        if j >= |existing| {
          assert (existing + names[..n])[j] == names[j - |existing|];
        }
      }
      assert names[..n] + [names[n]] == names;
    }
  }

  /** The names of some sheets, in order. */
  function Names(sheets: seq<Sheet>): (r: seq<string>)
    ensures |r| == |sheets| && forall i :: 0 <= i < |sheets| ==> r[i] == sheets[i].name
  {
    seq(|sheets|, i requires 0 <= i < |sheets| => sheets[i].name)
  }

  /** The names of two runs of sheets are those of the first run, then those of the second. */
  lemma NamesAppend(a: seq<Sheet>, b: seq<Sheet>)
    ensures Names(a + b) == Names(a) + Names(b)
  {
    assert forall i :: 0 <= i < |a + b| ==> Names(a + b)[i] == (Names(a) + Names(b))[i];
  }

  /** A sheet none of `sheets` is, appended: the names grow by its own and no sheet is listed twice. */
  lemma NewSheetAppended(sheets: seq<Sheet>, sheet: Sheet)
    requires Distinct(sheets) && forall j :: 0 <= j < |sheets| ==> sheets[j] != sheet
    ensures Distinct(sheets + [sheet]) && Names(sheets + [sheet]) == Names(sheets) + [sheet.name]
  {
    assert (sheets + [sheet])[..|sheets|] == sheets;
    NamesAppend(sheets, [sheet]);
  }

  /** `workbook.add_worksheet` of one sheet: a fresh, empty sheet after the others. */
  method AppendSheet(sheets: seq<Sheet>, name: string) returns (r: seq<Sheet>)
    requires Distinct(sheets)
    requires forall j :: 0 <= j < |sheets| ==> sheets[j].cells == map[] && sheets[j].widths == [] && sheets[j].merges == []
    ensures |r| == |sheets| + 1 && r[..|sheets|] == sheets && fresh(r[|sheets|]) && r[|sheets|].name == name
    ensures Distinct(r) && Names(r) == Names(sheets) + [name]
    ensures forall j :: 0 <= j < |r| ==> r[j].cells == map[] && r[j].widths == [] && r[j].merges == []
  {
    var sheet := new Sheet(name);
    NewSheetAppended(sheets, sheet);
    r := sheets + [sheet];
    forall j | 0 <= j < |r|
      ensures r[j].cells == map[] && r[j].widths == [] && r[j].merges == []
    {
      if j < |sheets| {
        assert r[j] == sheets[j];
      }
    }
  }

  /**
   * `workbook.add_worksheet` in a loop, after the sheets named `existing`: one fresh, empty sheet
   * per name, or the refusal of the first name Excel does not allow.
   */
  method AddSheets(existing: seq<string>, names: seq<string>) returns (r: Result<seq<Sheet>>)
    ensures r.Ok? <==> AddedNames(existing, names).Ok?
    ensures r.Err? ==> r.error == AddedNames(existing, names).error
    ensures r.Ok? ==> |r.value| == |names| && Distinct(r.value) && Names(r.value) == AddedNames(existing, names).value
    ensures r.Ok? ==> forall i :: 0 <= i < |r.value| ==> fresh(r.value[i])
    ensures r.Ok? ==> forall i :: 0 <= i < |r.value| ==>
      r.value[i].cells == map[] && r.value[i].widths == [] && r.value[i].merges == []
  {
    var sheets: seq<Sheet> := [];
    var added: seq<string> := [];
    for i := 0 to |names|
      invariant AddedNames(existing, names[..i]) == Ok(added)
      invariant |sheets| == i && Distinct(sheets) && Names(sheets) == added
      invariant forall j :: 0 <= j < i ==> fresh(sheets[j]) && sheets[j].cells == map[] && sheets[j].widths == [] && sheets[j].merges == []
    {
      var name := SheetName(existing + added, names[i]);
      var refused := SheetNameError(existing + added, name);
      if refused.Some? {
        AddedNamesRefused(existing, names, i, added);
        return Err(refused.value);
      }
      AddedNamesAccepts(existing, names, i, added);
      sheets := AppendSheet(sheets, name);
      added := added + [name];
      assert AddedNames(existing, names[..i + 1]) == Ok(added);
      assert forall j :: 0 <= j < i + 1 ==> fresh(sheets[j]);
    }
    assert names[..|names|] == names;
    return Ok(sheets);
  }

  // ---------------------------------------------------------------------------
  // The release sheets

  /** The references of all release sheets, merged release by release; the first failing release stops it. */
  ghost function AllRefs(releases: seq<ProductRelease>, teams: seq<Team>): Result<map<Team, seq<CellReference>>> {
    if releases == [] then Ok(map[])
    else
      var before :- AllRefs(releases[..|releases| - 1], teams);
      var refs :- ReleaseRefs(releases[|releases| - 1], teams);
      Ok(Merged(AsEntries(before), AsEntries(refs)))
  }

  /**
   * One turn of the loop over the release sheets: fill sheet `k`, then merge its references after
   * `refs`, those of the sheets before it.
   */
  method FillRelease(sheet: Sheet, releases: seq<ProductRelease>, teams: seq<Team>, k: nat, refs: map<Team, seq<CellReference>>)
    returns (r: Result<map<Team, seq<CellReference>>>)
    requires k < |releases| && AllRefs(releases[..k], teams) == Ok(refs)
    modifies sheet
    ensures r == AllRefs(releases[..k + 1], teams)
    ensures r.Ok? ==> sheet.cells == WrittenRows(old(sheet.cells), ReleaseRows(releases[k], teams))
  {
    AllRefsNext(releases, teams, k);
    var got := FillReleaseWorksheet(sheet, releases[k], teams);
    if got.Err? {
      return Err(got.error);
    }
    var merged := MergeDicts(AsEntries(refs), AsEntries(got.value));
    return Ok(merged);
  }

  /** What each release's sheet holds once filled, from what it held before. */
  ghost function FilledCells(before: seq<map<(int, int), Cell>>, releases: seq<ProductRelease>, teams: seq<Team>): seq<map<(int, int), Cell>>
    requires |before| == |releases|
  {
    seq(|releases|, k requires 0 <= k < |releases| => WrittenRows(before[k], ReleaseRows(releases[k], teams)))
  }

  /**
   * The loop over the release sheets: each filled in turn, its references merged after those of
   * the sheets before it.
   */
  method FillReleases(sheets: seq<Sheet>, releases: seq<ProductRelease>, teams: seq<Team>)
    returns (r: Result<map<Team, seq<CellReference>>>)
    requires |sheets| == |releases| && Distinct(sheets)
    modifies set s | s in sheets
    ensures r == AllRefs(releases, teams)
    ensures r.Ok? ==> forall k :: 0 <= k < |releases| ==>
      sheets[k].cells == WrittenRows(old(sheets[k].cells), ReleaseRows(releases[k], teams))
  {
    var refs: map<Team, seq<CellReference>> := map[];
    ghost var before := CellsOf(sheets);
    ghost var filled := FilledCells(before, releases, teams);
    for k := 0 to |releases|
      invariant AllRefs(releases[..k], teams) == Ok(refs)
      invariant forall j :: 0 <= j < k ==> sheets[j].cells == filled[j]
      invariant forall j :: k <= j < |sheets| ==> sheets[j].cells == before[j]
    {
      DistinctAt(sheets, k);
      var got := FillRelease(sheets[k], releases, teams, k, refs);
      if got.Err? {
        AllRefsStops(releases, teams, k + 1);
        return Err(got.error);
      }
      refs := got.value;
    }
    assert releases[..|releases|] == releases;
    return Ok(refs);
  }

  /** The references of the first `k + 1` releases: those of the first `k`, then those of release `k`. */
  lemma AllRefsNext(releases: seq<ProductRelease>, teams: seq<Team>, k: nat)
    requires k < |releases|
    ensures AllRefs(releases[..k + 1], teams)
         == (var before :- AllRefs(releases[..k], teams);
             var refs :- ReleaseRefs(releases[k], teams);
             Ok(Merged(AsEntries(before), AsEntries(refs))))
  {
    assert releases[..k + 1][..k] == releases[..k];
  }

  /** Once the releases before `k` fail, so do all of them, with the same error. */
  lemma {:induction false} AllRefsStops(releases: seq<ProductRelease>, teams: seq<Team>, k: nat)
    requires k <= |releases| && AllRefs(releases[..k], teams).Err?
    ensures AllRefs(releases, teams) == AllRefs(releases[..k], teams)
    decreases |releases| - k
  {
    if k < |releases| {
      assert releases[..k + 1][..k] == releases[..k];
      AllRefsStops(releases, teams, k + 1);
    } else {
      assert releases[..k] == releases;
    }
  }

  /** When every release sheet is filled, every release succeeded. */
  lemma {:induction false} AllRefsEach(releases: seq<ProductRelease>, teams: seq<Team>)
    requires AllRefs(releases, teams).Ok?
    ensures forall k :: 0 <= k < |releases| ==> ReleaseRefs(releases[k], teams).Ok?
  {
    if releases != [] {
      var n := |releases| - 1;
      AllRefsEach(releases[..n], teams);
      assert forall k :: 0 <= k < n ==> releases[..n][k] == releases[k];
    }
  }

  /** Each release sheet's references, in release order. */
  ghost function EachRefs(releases: seq<ProductRelease>, teams: seq<Team>): seq<map<Team, seq<CellReference>>>
    requires forall k :: 0 <= k < |releases| ==> ReleaseRefs(releases[k], teams).Ok?
  {
    seq(|releases|, k requires 0 <= k < |releases| => ReleaseRefs(releases[k], teams).value)
  }

  /** The references the calendars receive are the release sheets' references, merged one after the other. */
  lemma {:induction false} AllRefsMerged(releases: seq<ProductRelease>, teams: seq<Team>)
    requires AllRefs(releases, teams).Ok?
    ensures forall k :: 0 <= k < |releases| ==> ReleaseRefs(releases[k], teams).Ok?
    ensures AllRefs(releases, teams).value == MergedAll(EachRefs(releases, teams))
  {
    AllRefsEach(releases, teams);
    if releases != [] {
      var n := |releases| - 1;
      AllRefsMerged(releases[..n], teams);
      assert EachRefs(releases, teams)[..n] == EachRefs(releases[..n], teams);
    }
  }

  /** Every reference handed to a calendar points at a cell on its release sheet. */
  lemma {:induction false} AllRefsPlaced(releases: seq<ProductRelease>, teams: seq<Team>)
    requires AllRefs(releases, teams).Ok?
    ensures ListsPlaced(AllRefs(releases, teams).value)
  {
    if releases != [] {
      var n := |releases| - 1;
      AllRefsPlaced(releases[..n], teams);
      ReleaseRefsPlaced(releases[n], teams);
      var before, last := AllRefs(releases[..n], teams).value, ReleaseRefs(releases[n], teams).value;
      MergedPlaced(AsEntries(before), AsEntries(last));
    }
  }

  // ---------------------------------------------------------------------------
  // The team calendars

  /** The allocation regions `fill_calendar_plan_worksheet` returns for a team, one per reference title. */
  function CalendarRegions(team: Team, refs: seq<CellReference>, months: nat): Dict<string, Region> {
    AllocationRegions(Pos(11 + |team.members|, 0, None), refs, months)
  }

  /** A team's calendar is built (and edited, when there are previous allocations) without an error. */
  predicate TeamExports(team: Team, refs: map<Team, seq<CellReference>>, start: Date, end: Date, cal: ProductionCalendar,
                        previous: map<string, TeamAllocation>)
    requires start.Valid() && end.Valid()
  {
    var months := Months(start, end);
    team in refs && Staffed(team.members, months) && Covered(cal, months)
    && (previous != map[] ==>
          team.name in previous && Applicable(previous[team.name].items, CalendarRegions(team, refs[team], |months|)))
  }

  /** The error a team's calendar stops the export with, in the order the exporter meets them. */
  predicate TeamFails(team: Team, refs: map<Team, seq<CellReference>>, start: Date, end: Date, cal: ProductionCalendar,
                      previous: map<string, TeamAllocation>, e: Error)
    requires start.Valid() && end.Valid()
  {
    var months := Months(start, end);
    if team !in refs then e == MissingReferences(team.name)
    else if !Staffed(team.members, months) then
      exists j :: 0 <= j < |team.members| && Unstarted(team.members[j]) && e == MissingWorksSince(team.members[j].name)
    else if !Covered(cal, months) then
      exists k :: 0 <= k < |months| && !HasMonth(cal, months[k]) && e == MissingCalendarMonth(months[k].year, months[k].month)
    else if previous == map[] then false
    else if team.name !in previous then e == MissingPreviousTeam(team.name)
    else
      var items, regions := previous[team.name].items, CalendarRegions(team, refs[team], |months|);
      exists k :: 0 <= k < |regions| && Applicable(items, regions[..k]) && ItemError(items, regions[k].0, regions[k].1) == Some(e)
  }

  /** What a team's sheet holds after its calendar and, when there are previous allocations, their edits. */
  ghost function TeamSheetCells(before: map<(int, int), Cell>, team: Team, refs: map<Team, seq<CellReference>>, start: Date, end: Date,
                                cal: ProductionCalendar, releases: nat, previous: map<string, TeamAllocation>): map<(int, int), Cell>
    requires start.Valid() && end.Valid() && WellFormedWorkers(team.members) && ListsPlaced(refs)
    requires TeamExports(team, refs, start, end, cal, previous)
  {
    var months := Months(start, end);
    var written := WrittenRows(before, CalendarSheetRows(team.members, months, MonthDays(months, start, end, cal), releases, refs[team]));
    if previous == map[] then written
    else WrittenRows(written, EditRows(previous[team.name].items, CalendarRegions(team, refs[team], |months|)))
  }

  /** Team `i` is the first whose calendar fails, and it fails with `e`. */
  predicate FirstFailure(teams: seq<Team>, refs: map<Team, seq<CellReference>>, start: Date, end: Date, cal: ProductionCalendar,
                         previous: map<string, TeamAllocation>, e: Error, i: int)
    requires start.Valid() && end.Valid()
  {
    && 0 <= i < |teams|
    && (forall j :: 0 <= j < i ==> TeamExports(teams[j], refs, start, end, cal, previous))
    && !TeamExports(teams[i], refs, start, end, cal, previous)
    && TeamFails(teams[i], refs, start, end, cal, previous, e)
  }

  /** Some team is the first whose calendar fails, and it fails with `e`. */
  predicate FirstTeamFails(teams: seq<Team>, refs: map<Team, seq<CellReference>>, start: Date, end: Date, cal: ProductionCalendar,
                           previous: map<string, TeamAllocation>, e: Error)
    requires start.Valid() && end.Valid()
  {
    exists i :: 0 <= i < |teams| && FirstFailure(teams, refs, start, end, cal, previous, e, i)
  }

  /** When the teams before `i` get their calendars and team `i` fails with `e`, the export fails with `e`. */
  lemma FailsFirstAt(teams: seq<Team>, refs: map<Team, seq<CellReference>>, start: Date, end: Date, cal: ProductionCalendar,
                     previous: map<string, TeamAllocation>, e: Error, i: nat)
    requires start.Valid() && end.Valid() && i < |teams|
    requires TeamsExport(teams, refs, start, end, cal, previous, i)
    requires !TeamExports(teams[i], refs, start, end, cal, previous) && TeamFails(teams[i], refs, start, end, cal, previous, e)
    ensures FirstTeamFails(teams, refs, start, end, cal, previous, e)
  {
    TeamsExportEach(teams, refs, start, end, cal, previous, i);
    assert FirstFailure(teams, refs, start, end, cal, previous, e, i);
  }

  /** The first `n` teams all get their calendars. */
  predicate TeamsExport(teams: seq<Team>, refs: map<Team, seq<CellReference>>, start: Date, end: Date, cal: ProductionCalendar,
                        previous: map<string, TeamAllocation>, n: nat)
    requires start.Valid() && end.Valid() && n <= |teams|
  {
    n == 0 || (TeamsExport(teams, refs, start, end, cal, previous, n - 1) && TeamExports(teams[n - 1], refs, start, end, cal, previous))
  }

  lemma {:induction false} TeamsExportEach(teams: seq<Team>, refs: map<Team, seq<CellReference>>, start: Date, end: Date,
                                           cal: ProductionCalendar, previous: map<string, TeamAllocation>, n: nat)
    requires start.Valid() && end.Valid() && n <= |teams|
    ensures TeamsExport(teams, refs, start, end, cal, previous, n) <==>
      forall j :: 0 <= j < n ==> TeamExports(teams[j], refs, start, end, cal, previous)
  {
    if n > 0 {
      TeamsExportEach(teams, refs, start, end, cal, previous, n - 1);
    }
  }

  /** What each sheet holds now. */
  lemma CellsOf(sheets: seq<Sheet>) returns (cells: seq<map<(int, int), Cell>>)
    ensures |cells| == |sheets| && forall j :: 0 <= j < |sheets| ==> cells[j] == sheets[j].cells
  {
    cells := seq(|sheets|, j requires 0 <= j < |sheets| reads sheets => sheets[j].cells);
  }

  /** What a team sheet holds once its calendar is written; it stays empty when the team does not export. */
  ghost function TeamCells(team: Team, refs: map<Team, seq<CellReference>>, start: Date, end: Date, cal: ProductionCalendar,
                           releases: nat, previous: map<string, TeamAllocation>): map<(int, int), Cell>
    requires start.Valid() && end.Valid() && WellFormedWorkers(team.members) && ListsPlaced(refs)
  {
    if TeamExports(team, refs, start, end, cal, previous)
    then TeamSheetCells(map[], team, refs, start, end, cal, releases, previous)
    else map[]
  }

  /**
   * The sheet contents of all teams, one per team. An element is only related to `TeamCells` where a
   * proof mentions it, so the expensive contents cost nothing until they are used.
   */
  lemma CalendarsTable(teams: seq<Team>, refs: map<Team, seq<CellReference>>, start: Date, end: Date, cal: ProductionCalendar,
                       releases: nat, previous: map<string, TeamAllocation>) returns (r: seq<map<(int, int), Cell>>)
    requires start.Valid() && end.Valid() && ListsPlaced(refs)
    requires forall i :: 0 <= i < |teams| ==> WellFormedWorkers(teams[i].members)
    ensures |r| == |teams|
    ensures forall j {:trigger TeamCells(teams[j], refs, start, end, cal, releases, previous)} :: 0 <= j < |teams| ==>
      r[j] == TeamCells(teams[j], refs, start, end, cal, releases, previous)
  {
    r := seq(|teams|, j requires 0 <= j < |teams| => TeamCells(teams[j], refs, start, end, cal, releases, previous));
  }

  /** When every team exports, the table holds each team's written sheet. */
  lemma CalendarsWritten(cells: seq<map<(int, int), Cell>>, filled: seq<map<(int, int), Cell>>, teams: seq<Team>,
                    refs: map<Team, seq<CellReference>>, start: Date, end: Date, cal: ProductionCalendar,
                    releases: nat, previous: map<string, TeamAllocation>)
    requires start.Valid() && end.Valid() && ListsPlaced(refs)
    requires forall i :: 0 <= i < |teams| ==> WellFormedWorkers(teams[i].members)
    requires |cells| == |teams| == |filled| && forall j :: 0 <= j < |teams| ==> cells[j] == filled[j]
    requires forall j {:trigger TeamCells(teams[j], refs, start, end, cal, releases, previous)} :: 0 <= j < |teams| ==>
      filled[j] == TeamCells(teams[j], refs, start, end, cal, releases, previous)
    requires forall j :: 0 <= j < |teams| ==> TeamExports(teams[j], refs, start, end, cal, previous)
    ensures forall j :: 0 <= j < |teams| ==> cells[j] == TeamSheetCells(map[], teams[j], refs, start, end, cal, releases, previous)
  {
    forall j | 0 <= j < |teams|
      ensures cells[j] == TeamSheetCells(map[], teams[j], refs, start, end, cal, releases, previous)
    {
      assert filled[j] == TeamCells(teams[j], refs, start, end, cal, releases, previous);
    }
  }

  /** The regions Meta records: every team by name, with the regions its calendar returned, in team order. */
  function ExportedRegions(teams: seq<Team>, refs: map<Team, seq<CellReference>>, months: nat): (r: Dict<string, Dict<string, Region>>)
    requires forall i :: 0 <= i < |teams| ==> teams[i] in refs
    ensures |r| == |teams|
  {
    if teams == [] then []
    else
      var n := |teams| - 1;
      ExportedRegions(teams[..n], refs, months) + [(teams[n].name, CalendarRegions(teams[n], refs[teams[n]], months))]
  }

  /** One more team adds its own entry to Meta's regions. */
  lemma ExportedRegionsNext(teams: seq<Team>, refs: map<Team, seq<CellReference>>, months: nat, i: nat)
    requires i < |teams| && forall j :: 0 <= j <= i ==> teams[j] in refs
    ensures ExportedRegions(teams[..i + 1], refs, months)
         == ExportedRegions(teams[..i], refs, months) + [(teams[i].name, CalendarRegions(teams[i], refs[teams[i]], months))]
  {
    assert teams[..i + 1][..i] == teams[..i];
  }

  /** Meta's entry `i` is team `i`'s name with the regions its calendar returned. */
  lemma {:induction false} ExportedRegionsAt(teams: seq<Team>, refs: map<Team, seq<CellReference>>, months: nat, i: nat)
    requires forall i :: 0 <= i < |teams| ==> teams[i] in refs
    requires i < |teams|
    ensures ExportedRegions(teams, refs, months)[i] == (teams[i].name, CalendarRegions(teams[i], refs[teams[i]], months))
  {
    var n := |teams| - 1;
    if i < n {
      assert teams[..n][i] == teams[i];
      ExportedRegionsAt(teams[..n], refs, months, i);
    }
  }

  /**
   * One turn of the loop over the team sheets: the team's calendar from its references, then the
   * edits of its previous allocations, looked up by name, when there are any.
   */
  method FillCalendar(sheet: Sheet, team: Team, start: Date, end: Date, cal: ProductionCalendar,
                      releases: seq<ProductRelease>, refs: map<Team, seq<CellReference>>, previous: map<string, TeamAllocation>)
    returns (r: Result<Dict<string, Region>>)
    requires start.Valid() && end.Valid() && ListsPlaced(refs) && WellFormedWorkers(team.members)
    modifies sheet
    ensures r.Ok? <==> TeamExports(team, refs, start, end, cal, previous)
    ensures r.Err? ==> TeamFails(team, refs, start, end, cal, previous, r.error)
    ensures r.Ok? ==> r.value == CalendarRegions(team, refs[team], |Months(start, end)|)
    ensures r.Ok? ==> sheet.cells == TeamSheetCells(old(sheet.cells), team, refs, start, end, cal, |releases|, previous)
  {
    if team !in refs {
      return Err(MissingReferences(team.name));
    }
    var got := FillCalendarPlanWorksheet(sheet, start, end, team, cal, releases, refs[team]);
    if got.Err? {
      return Err(got.error);
    }
    if previous != map[] {
      if team.name !in previous {
        return Err(MissingPreviousTeam(team.name));
      }
      var edited := ApplyPlanEdits(sheet, previous[team.name], got.value);
      if edited.Err? {
        return Err(edited.error);
      }
    }
    return Ok(got.value);
  }

  /** `FillCalendar` on a fresh sheet, whose contents are then the team's expected ones. */
  method FillTeamSheet(sheet: Sheet, team: Team, start: Date, end: Date, cal: ProductionCalendar,
                       releases: seq<ProductRelease>, refs: map<Team, seq<CellReference>>, previous: map<string, TeamAllocation>,
                       ghost wanted: map<(int, int), Cell>)
    returns (r: Result<Dict<string, Region>>)
    requires start.Valid() && end.Valid() && ListsPlaced(refs) && WellFormedWorkers(team.members)
    requires sheet.cells == map[] && wanted == TeamCells(team, refs, start, end, cal, |releases|, previous)
    modifies sheet
    ensures r.Ok? <==> TeamExports(team, refs, start, end, cal, previous)
    ensures r.Err? ==> TeamFails(team, refs, start, end, cal, previous, r.error)
    ensures r.Ok? ==> r.value == CalendarRegions(team, refs[team], |Months(start, end)|) && sheet.cells == wanted
  {
    r := FillCalendar(sheet, team, start, end, cal, releases, refs, previous);
  }

  /** One more team that gets its calendar extends the teams that do, and Meta's regions by its own. */
  lemma CalendarsNext(teams: seq<Team>, refs: map<Team, seq<CellReference>>, start: Date, end: Date, cal: ProductionCalendar,
                      previous: map<string, TeamAllocation>, i: nat, regions: Dict<string, Dict<string, Region>>,
                      added: Dict<string, Region>)
    requires start.Valid() && end.Valid() && i < |teams|
    requires TeamsExport(teams, refs, start, end, cal, previous, i) && TeamExports(teams[i], refs, start, end, cal, previous)
    requires forall j :: 0 <= j < i ==> teams[j] in refs
    requires regions == ExportedRegions(teams[..i], refs, |Months(start, end)|)
    requires added == CalendarRegions(teams[i], refs[teams[i]], |Months(start, end)|)
    ensures TeamsExport(teams, refs, start, end, cal, previous, i + 1)
    ensures forall j :: 0 <= j <= i ==> teams[j] in refs
    ensures regions + [(teams[i].name, added)] == ExportedRegions(teams[..i + 1], refs, |Months(start, end)|)
  {
    ExportedRegionsNext(teams, refs, |Months(start, end)|, i);
  }

  /**
   * One turn of the loop over the team sheets, when the first `i` teams have their calendars: team
   * `i` either fails first, or gets its calendar and its regions and the other sheets stay as they were.
   */
  method FillCalendarAt(sheets: seq<Sheet>, teams: seq<Team>, i: nat, start: Date, end: Date, cal: ProductionCalendar,
                        releases: seq<ProductRelease>, refs: map<Team, seq<CellReference>>, previous: map<string, TeamAllocation>,
                        ghost filled: seq<map<(int, int), Cell>>)
    returns (r: Result<Dict<string, Region>>)
    requires |sheets| == |teams| == |filled| && Distinct(sheets) && i < |teams|
    requires start.Valid() && end.Valid() && ListsPlaced(refs) && WellFormedWorkers(teams[i].members)
    requires filled[i] == TeamCells(teams[i], refs, start, end, cal, |releases|, previous)
    requires TeamsExport(teams, refs, start, end, cal, previous, i)
    requires forall j {:trigger sheets[j].cells} :: 0 <= j < i ==> sheets[j].cells == filled[j]
    requires forall j {:trigger sheets[j].cells} :: i <= j < |sheets| ==> sheets[j].cells == map[]
    modifies sheets[i]
    ensures r.Err? ==> FirstTeamFails(teams, refs, start, end, cal, previous, r.error)
    ensures r.Ok? <==> TeamExports(teams[i], refs, start, end, cal, previous)
    ensures r.Ok? ==> r.value == CalendarRegions(teams[i], refs[teams[i]], |Months(start, end)|)
    ensures r.Ok? ==> forall j {:trigger sheets[j].cells} :: 0 <= j <= i ==> sheets[j].cells == filled[j]
    ensures r.Ok? ==> forall j {:trigger sheets[j].cells} :: i < j < |sheets| ==> sheets[j].cells == map[]
  {
    DistinctAt(sheets, i);
    r := FillTeamSheet(sheets[i], teams[i], start, end, cal, releases, refs, previous, filled[i]);
    if r.Err? {
      FailsFirstAt(teams, refs, start, end, cal, previous, r.error, i);
    }
  }

  /**
   * The loop over the fresh team sheets, in team order; the first team that fails stops it. `filled`
   * holds what each team's sheet is to hold.
   */
  method FillCalendarsLoop(sheets: seq<Sheet>, teams: seq<Team>, start: Date, end: Date, cal: ProductionCalendar,
                           releases: seq<ProductRelease>, refs: map<Team, seq<CellReference>>, previous: map<string, TeamAllocation>,
                           ghost filled: seq<map<(int, int), Cell>>)
    returns (r: Result<Dict<string, Dict<string, Region>>>)
    requires |sheets| == |teams| == |filled| && Distinct(sheets) && forall i :: 0 <= i < |sheets| ==> sheets[i].cells == map[]
    requires start.Valid() && end.Valid() && ListsPlaced(refs)
    requires forall i :: 0 <= i < |teams| ==> WellFormedWorkers(teams[i].members)
    requires forall j {:trigger TeamCells(teams[j], refs, start, end, cal, |releases|, previous)} :: 0 <= j < |teams| ==>
      filled[j] == TeamCells(teams[j], refs, start, end, cal, |releases|, previous)
    modifies set s | s in sheets
    ensures r.Ok? <==> forall i :: 0 <= i < |teams| ==> TeamExports(teams[i], refs, start, end, cal, previous)
    ensures r.Err? ==> FirstTeamFails(teams, refs, start, end, cal, previous, r.error)
    ensures r.Ok? ==> r.value == ExportedRegions(teams, refs, |Months(start, end)|)
    ensures r.Ok? ==> forall i {:trigger sheets[i].cells} :: 0 <= i < |teams| ==> sheets[i].cells == filled[i]
  {
    var regions: Dict<string, Dict<string, Region>> := [];
    for i := 0 to |teams|
      invariant TeamsExport(teams, refs, start, end, cal, previous, i)
      invariant forall j :: 0 <= j < i ==> teams[j] in refs
      invariant regions == ExportedRegions(teams[..i], refs, |Months(start, end)|)
      invariant forall j {:trigger sheets[j].cells} :: 0 <= j < i ==> sheets[j].cells == filled[j]
      invariant forall j {:trigger sheets[j].cells} :: i <= j < |sheets| ==> sheets[j].cells == map[]
    {
      var got := FillCalendarAt(sheets, teams, i, start, end, cal, releases, refs, previous, filled);
      if got.Err? {
        return Err(got.error);
      }
      CalendarsNext(teams, refs, start, end, cal, previous, i, regions, got.value);
      regions := regions + [(teams[i].name, got.value)];
    }
    TeamsExportEach(teams, refs, start, end, cal, previous, |teams|);
    assert teams[..|teams|] == teams;
    return Ok(regions);
  }

  /** `FillCalendarsLoop` with every team sheet to hold its team's calendar. */
  method FillCalendars(sheets: seq<Sheet>, teams: seq<Team>, start: Date, end: Date, cal: ProductionCalendar,
                       releases: seq<ProductRelease>, refs: map<Team, seq<CellReference>>, previous: map<string, TeamAllocation>)
    returns (r: Result<Dict<string, Dict<string, Region>>>)
    requires |sheets| == |teams| && Distinct(sheets) && forall i :: 0 <= i < |sheets| ==> sheets[i].cells == map[]
    requires start.Valid() && end.Valid() && ListsPlaced(refs)
    requires forall i :: 0 <= i < |teams| ==> WellFormedWorkers(teams[i].members)
    modifies set s | s in sheets
    ensures r.Ok? <==> forall i :: 0 <= i < |teams| ==> TeamExports(teams[i], refs, start, end, cal, previous)
    ensures r.Err? ==> FirstTeamFails(teams, refs, start, end, cal, previous, r.error)
    ensures r.Ok? ==> r.value == ExportedRegions(teams, refs, |Months(start, end)|)
    ensures r.Ok? ==> forall i {:trigger sheets[i].cells} :: 0 <= i < |teams| ==>
      sheets[i].cells == TeamSheetCells(map[], teams[i], refs, start, end, cal, |releases|, previous)
  {
    ghost var filled := CalendarsTable(teams, refs, start, end, cal, |releases|, previous);
    r := FillCalendarsLoop(sheets, teams, start, end, cal, releases, refs, previous, filled);
    if r.Ok? {
      ghost var cells := CellsOf(sheets);
      CalendarsWritten(cells, filled, teams, refs, start, end, cal, |releases|, previous);
    }
  }



  // ---------------------------------------------------------------------------
  // The whole export

  /** The names the team sheets ask for, in team order. */
  function TeamNames(teams: seq<Team>): (r: seq<string>)
    ensures |r| == |teams| && forall i :: 0 <= i < |teams| ==> r[i] == teams[i].name
  {
    seq(|teams|, i requires 0 <= i < |teams| => teams[i].name)
  }

  /** The names the release sheets ask for, in release order. */
  function ReleaseNames(releases: seq<ProductRelease>): (r: seq<string>)
    ensures |r| == |releases| && forall k :: 0 <= k < |releases| ==> r[k] == releases[k].name
  {
    seq(|releases|, k requires 0 <= k < |releases| => releases[k].name)
  }

  /** The names of the team sheets and then of the release sheets, or the first name refused. */
  function SheetNames(teams: seq<Team>, releases: seq<ProductRelease>): Result<seq<string>> {
    var forTeams :- AddedNames([], TeamNames(teams));
    var forReleases :- AddedNames(forTeams, ReleaseNames(releases));
    Ok(forTeams + forReleases)
  }

  /**
   * The team and release sheets of an export get valid names, no two the same ignoring case, each
   * the team's or the release's own name unless that is empty; so no two teams or releases share a
   * name (ignoring case) unless the export stops.
   */
  lemma SheetNamesValid(teams: seq<Team>, releases: seq<ProductRelease>)
    requires SheetNames(teams, releases).Ok?
    ensures var names := SheetNames(teams, releases).value;
      && |names| == |teams| + |releases|
      && (forall i :: 0 <= i < |names| ==> ValidSheetName(names[i]))
      && (forall i, j :: 0 <= i < j < |names| ==> !SameSheetName(names[i], names[j]))
      && (forall i :: 0 <= i < |teams| && teams[i].name != [] ==> names[i] == teams[i].name)
      && (forall k :: 0 <= k < |releases| && releases[k].name != [] ==> names[|teams| + k] == releases[k].name)
  {
    var forTeams := AddedNames([], TeamNames(teams)).value;
    AddedNamesValid([], TeamNames(teams));
    AddedNamesValid(forTeams, ReleaseNames(releases));
  }

  /**
   * The two loops of `export_plan` over its fresh sheets: the release sheets first, whose merged
   * references then build the team calendars.
   */
  method FillSheets(teamSheets: seq<Sheet>, releaseSheets: seq<Sheet>, releases: seq<ProductRelease>, teams: seq<Team>,
                    start: Date, end: Date, cal: ProductionCalendar, previous: map<string, TeamAllocation>)
    returns (r: Result<Dict<string, Dict<string, Region>>>)
    requires |teamSheets| == |teams| && |releaseSheets| == |releases| && Distinct(teamSheets) && Distinct(releaseSheets)
    requires forall i, j :: 0 <= i < |teamSheets| && 0 <= j < |releaseSheets| ==> teamSheets[i] != releaseSheets[j]
    requires forall i :: 0 <= i < |teamSheets| ==> teamSheets[i].cells == map[]
    requires forall k :: 0 <= k < |releaseSheets| ==> releaseSheets[k].cells == map[]
    requires start.Valid() && end.Valid()
    requires forall i :: 0 <= i < |teams| ==> WellFormedWorkers(teams[i].members)
    modifies set s | s in teamSheets, (set s | s in releaseSheets)
    ensures AllRefs(releases, teams).Err? ==> r == Err(AllRefs(releases, teams).error)
    ensures AllRefs(releases, teams).Ok? ==>
      var refs := AllRefs(releases, teams).value;
      && ListsPlaced(refs)
      && (r.Ok? <==> forall i :: 0 <= i < |teams| ==> TeamExports(teams[i], refs, start, end, cal, previous))
      && (r.Err? ==> FirstTeamFails(teams, refs, start, end, cal, previous, r.error))
    ensures r.Ok? ==> Filled(teamSheets, releaseSheets, r.value, releases, teams, start, end, cal, previous)
  {
    var refs :- FillReleases(releaseSheets, releases, teams);
    AllRefsPlaced(releases, teams);
    r := FillCalendars(teamSheets, teams, start, end, cal, releases, refs, previous);
  }

  /**
   * What the two loops leave behind: every release sheet filled with its table, every team sheet
   * with its calendar, and the regions Meta is to record.
   */
  ghost predicate Filled(teamSheets: seq<Sheet>, releaseSheets: seq<Sheet>, regions: Dict<string, Dict<string, Region>>,
                         releases: seq<ProductRelease>, teams: seq<Team>, start: Date, end: Date, cal: ProductionCalendar,
                         previous: map<string, TeamAllocation>)
    reads (set s | s in teamSheets), (set s | s in releaseSheets)
    requires start.Valid() && end.Valid()
    requires forall i :: 0 <= i < |teams| ==> WellFormedWorkers(teams[i].members)
  {
    && |teamSheets| == |teams| && |releaseSheets| == |releases|
    && AllRefs(releases, teams).Ok?
    && var refs := AllRefs(releases, teams).value;
    && ListsPlaced(refs)
    && (forall i :: 0 <= i < |teams| ==> TeamExports(teams[i], refs, start, end, cal, previous))
    && regions == ExportedRegions(teams, refs, |Months(start, end)|)
    && (forall i {:trigger TeamSheetCells(map[], teams[i], refs, start, end, cal, |releases|, previous)} :: 0 <= i < |teams| ==>
          teamSheets[i].cells == TeamSheetCells(map[], teams[i], refs, start, end, cal, |releases|, previous))
    && (forall k {:trigger ReleaseRows(releases[k], teams)} :: 0 <= k < |releases| ==>
          releaseSheets[k].cells == WrittenRows(map[], ReleaseRows(releases[k], teams)))
  }

  /** The sheets of an export's workbook: the team sheets, the release sheets, then Meta. */
  datatype Book = Book(teamSheets: seq<Sheet>, releaseSheets: seq<Sheet>, meta: Sheet) {
    function Sheets(): seq<Sheet> {
      teamSheets + releaseSheets + [meta]
    }
  }

  /**
   * What the workbook of a finished export holds: one sheet per team with its calendar, one per
   * release with its table, and Meta recording the regions of every team's calendar; no sheet is
   * listed twice.
   */
  ghost predicate Exported(book: Book, releases: seq<ProductRelease>, teams: seq<Team>, start: Date, end: Date,
                           cal: ProductionCalendar, previous: map<string, TeamAllocation>)
    reads set s | s in book.Sheets()
    requires start.Valid() && end.Valid()
    requires forall i :: 0 <= i < |teams| ==> WellFormedWorkers(teams[i].members)
  {
    && AllRefs(releases, teams).Ok?
    && var refs := AllRefs(releases, teams).value;
    && ListsPlaced(refs)
    && |book.teamSheets| == |teams| && |book.releaseSheets| == |releases| && Distinct(book.Sheets())
    && (forall i :: 0 <= i < |teams| ==> TeamExports(teams[i], refs, start, end, cal, previous))
    && (forall i {:trigger TeamSheetCells(map[], teams[i], refs, start, end, cal, |releases|, previous)} :: 0 <= i < |teams| ==>
          book.teamSheets[i].cells == TeamSheetCells(map[], teams[i], refs, start, end, cal, |releases|, previous))
    && (forall k {:trigger ReleaseRows(releases[k], teams)} :: 0 <= k < |releases| ==>
          book.releaseSheets[k].cells == WrittenRows(map[], ReleaseRows(releases[k], teams)))
    && book.meta.cells == WrittenRows(map[], RecordRows(Records(start, end, ExportedRegions(teams, refs, |Months(start, end)|))))
  }

  /**
   * The end of `export_plan`: the Meta sheet, which Excel refuses when a team or a release already
   * took its name, then the metadata on it.
   */
  method AddMeta(existing: seq<string>, start: Date, end: Date, regions: Dict<string, Dict<string, Region>>,
                 ghost teamSheets: seq<Sheet>, ghost releaseSheets: seq<Sheet>)
    returns (r: Result<Sheet>)
    requires start.Valid() && end.Valid()
    ensures r.Err? <==> SheetNameError(existing, "Meta").Some?
    ensures r.Err? ==> r.error == SheetNameError(existing, "Meta").value
    ensures r.Ok? ==> fresh(r.value) && r.value.name == "Meta"
    ensures r.Ok? ==> forall i :: 0 <= i < |teamSheets| ==> teamSheets[i] != r.value
    ensures r.Ok? ==> forall k :: 0 <= k < |releaseSheets| ==> releaseSheets[k] != r.value
    ensures forall i :: 0 <= i < |teamSheets| ==> teamSheets[i].cells == old(teamSheets[i].cells)
    ensures forall k :: 0 <= k < |releaseSheets| ==> releaseSheets[k].cells == old(releaseSheets[k].cells)
    ensures r.Ok? ==> r.value.cells == WrittenRows(map[], RecordRows(Records(start, end, regions)))
  {
    var refused := SheetNameError(existing, "Meta");
    if refused.Some? {
      return Err(refused.value);
    }
    var meta := new Sheet("Meta");
    SaveMetadata(meta, start, end, regions);
    return Ok(meta);
  }

  /** A workbook lists no sheet twice when its parts do not, and its names are those of its parts in order. */
  lemma BookSheets(teamSheets: seq<Sheet>, releaseSheets: seq<Sheet>, meta: Sheet)
    requires Distinct(teamSheets) && Distinct(releaseSheets)
    requires forall i, j :: 0 <= i < |teamSheets| && 0 <= j < |releaseSheets| ==> teamSheets[i] != releaseSheets[j]
    requires forall i :: 0 <= i < |teamSheets| ==> teamSheets[i] != meta
    requires forall k :: 0 <= k < |releaseSheets| ==> releaseSheets[k] != meta
    ensures Distinct(Book(teamSheets, releaseSheets, meta).Sheets())
    ensures Names(Book(teamSheets, releaseSheets, meta).Sheets()) == Names(teamSheets) + Names(releaseSheets) + [meta.name]
  {
    DistinctAppend(teamSheets, releaseSheets);
    DistinctAppend(teamSheets + releaseSheets, [meta]);
    NamesAppend(teamSheets, releaseSheets);
    NamesAppend(teamSheets + releaseSheets, [meta]);
  }

  /**
   * The filled team and release sheets, with Meta added after them, make the workbook of a finished
   * export; Excel refuses Meta when a team or a release already took its name.
   */
  method FinishBook(teamSheets: seq<Sheet>, releaseSheets: seq<Sheet>, regions: Dict<string, Dict<string, Region>>,
                    releases: seq<ProductRelease>, teams: seq<Team>, start: Date, end: Date, cal: ProductionCalendar,
                    previous: map<string, TeamAllocation>)
    returns (r: Result<Book>)
    requires start.Valid() && end.Valid()
    requires forall i :: 0 <= i < |teams| ==> WellFormedWorkers(teams[i].members)
    requires Distinct(teamSheets) && Distinct(releaseSheets)
    requires forall i, j :: 0 <= i < |teamSheets| && 0 <= j < |releaseSheets| ==> teamSheets[i] != releaseSheets[j]
    requires Filled(teamSheets, releaseSheets, regions, releases, teams, start, end, cal, previous)
    ensures r.Err? <==> SheetNameError(Names(teamSheets) + Names(releaseSheets), "Meta").Some?
    ensures r.Err? ==> r.error == SheetNameError(Names(teamSheets) + Names(releaseSheets), "Meta").value
    ensures r.Ok? ==> Names(r.value.Sheets()) == Names(teamSheets) + Names(releaseSheets) + ["Meta"]
    ensures r.Ok? ==> Exported(r.value, releases, teams, start, end, cal, previous)
  {
    var meta :- AddMeta(Names(teamSheets) + Names(releaseSheets), start, end, regions, teamSheets, releaseSheets);
    assert Filled(teamSheets, releaseSheets, regions, releases, teams, start, end, cal, previous);
    BookSheets(teamSheets, releaseSheets, meta);
    BookExported(teamSheets, releaseSheets, meta, regions, releases, teams, start, end, cal, previous);
    return Ok(Book(teamSheets, releaseSheets, meta));
  }

  /** A book whose sheets hold what the exporter writes is the exported book. */
  lemma BookExported(teamSheets: seq<Sheet>, releaseSheets: seq<Sheet>, meta: Sheet, regions: Dict<string, Dict<string, Region>>,
                     releases: seq<ProductRelease>, teams: seq<Team>, start: Date, end: Date, cal: ProductionCalendar,
                     previous: map<string, TeamAllocation>)
    requires start.Valid() && end.Valid()
    requires forall i :: 0 <= i < |teams| ==> WellFormedWorkers(teams[i].members)
    requires Distinct(Book(teamSheets, releaseSheets, meta).Sheets())
    requires Filled(teamSheets, releaseSheets, regions, releases, teams, start, end, cal, previous)
    requires meta.cells == WrittenRows(map[], RecordRows(Records(start, end, regions)))
    ensures Exported(Book(teamSheets, releaseSheets, meta), releases, teams, start, end, cal, previous)
  {
  }

  /**
   * `export_plan`: the team sheets, the release sheets and the Meta sheet, in that order. A sheet
   * name Excel refuses stops it first; then the release sheets' references decide the calendars,
   * and Meta records exactly the regions the calendars returned; the first failure in that order
   * is the export's error.
   */
  method ExportPlan(releases: seq<ProductRelease>, teams: seq<Team>, start: Date, end: Date, cal: ProductionCalendar,
                    previous: map<string, TeamAllocation>)
    returns (r: Result<Book>)
    requires start.Valid() && end.Valid()
    requires forall i :: 0 <= i < |teams| ==> WellFormedWorkers(teams[i].members)
    ensures SheetNames(teams, releases).Err? ==> r == Err(SheetNames(teams, releases).error)
    ensures SheetNames(teams, releases).Ok? && AllRefs(releases, teams).Err? ==> r == Err(AllRefs(releases, teams).error)
    ensures SheetNames(teams, releases).Ok? && AllRefs(releases, teams).Ok? ==>
      var names, refs := SheetNames(teams, releases).value, AllRefs(releases, teams).value;
      && (r.Ok? <==> (forall i :: 0 <= i < |teams| ==> TeamExports(teams[i], refs, start, end, cal, previous))
                     && SheetNameError(names, "Meta").None?)
      && (r.Err? ==>
            if forall i :: 0 <= i < |teams| ==> TeamExports(teams[i], refs, start, end, cal, previous)
            then r.error == SheetNameError(names, "Meta").value
            else FirstTeamFails(teams, refs, start, end, cal, previous, r.error))
    ensures r.Ok? ==> Names(r.value.Sheets()) == SheetNames(teams, releases).value + ["Meta"]
    ensures r.Ok? ==> Exported(r.value, releases, teams, start, end, cal, previous)
  {
    var teamSheets :- AddSheets([], TeamNames(teams));
    var releaseSheets :- AddSheets(Names(teamSheets), ReleaseNames(releases));
    assert forall i, j :: 0 <= i < |teamSheets| && 0 <= j < |releaseSheets| ==> teamSheets[i] != releaseSheets[j];
    assert SheetNames(teams, releases) == Ok(Names(teamSheets) + Names(releaseSheets));
    var regions :- FillSheets(teamSheets, releaseSheets, releases, teams, start, end, cal, previous);
    r := FinishBook(teamSheets, releaseSheets, regions, releases, teams, start, end, cal, previous);
  }
}
