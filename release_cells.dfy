/**
 * The cells of one issue row of a release sheet (`plan_b/exporters/xlsx/release.py`): the
 * confidence levels and their colours, the effort columns in man-weeks and the formulas that
 * total, split and combine them, for the development table and for the QA table.
 */
module ReleaseCells {
  import opened Wrappers
  import opened Text
  import opened Teams
  import opened Issues
  import opened Layout

  const NumericLeftFormat: Format := Style("numeric_border_left")
  const NumericRightFormat: Format := Style("numeric_border_right")

  // ---------------------------------------------------------------------------
  // Confidence levels

  /** The colour `_get_format_for_confidence_level` picks for a level value. */
  function ConfidenceColour(level: real): Option<Colour> {
    if level == 1.0 then Some(HighConfidence)
    else if 1.0 < level <= 1.5 then Some(MediumConfidence)
    else if 1.5 < level then Some(LowConfidence)
    else None
  }

  function ConfidenceFormat(level: real, border: Border): Format {
    ConfidenceStyle(ConfidenceColour(level), border)
  }

  function ColourRank(c: Option<Colour>): nat {
    match c
    case None => 0
    case Some(HighConfidence) => 1
    case Some(MediumConfidence) => 2
    case Some(LowConfidence) => 3
  }

  /**
   * Each level gets its own colour, a QA-owned issue's 0 none, and from 1 upwards a higher
   * level never gets a more confident colour.
   */
  lemma ConfidenceColours(l1: real, l2: real)
    ensures ConfidenceColour(High.Value()) == Some(HighConfidence)
    ensures ConfidenceColour(Medium.Value()) == Some(MediumConfidence)
    ensures ConfidenceColour(Low.Value()) == Some(LowConfidence)
    ensures ConfidenceColour(0.0) == None
    ensures 1.0 <= l1 <= l2 ==> ColourRank(ConfidenceColour(l1)) <= ColourRank(ConfidenceColour(l2))
  {
  }

  function PickLevel(e: WorkEstimate, reqs: bool): Option<ConfidenceLevel> {
    if reqs then e.reqsLevel else e.designLevel
  }

  predicate AnyLevel(m: EstimatesByTeam, reqs: bool, l: ConfidenceLevel) {
    exists t :: t in m && PickLevel(m[t], reqs) == Some(l)
  }

  /** `max([level.value for each team that gives one] or [2])`. */
  function MaxLevel(m: EstimatesByTeam, reqs: bool): (v: real)
    ensures forall t :: t in m && PickLevel(m[t], reqs).Some? ==> PickLevel(m[t], reqs).value.Value() <= v
    ensures (forall t :: t in m ==> PickLevel(m[t], reqs).None?) ==> v == 2.0
    ensures (exists t :: t in m && PickLevel(m[t], reqs).Some?) ==>
              exists t :: t in m && PickLevel(m[t], reqs).Some? && PickLevel(m[t], reqs).value.Value() == v
  {
    if AnyLevel(m, reqs, Low) then 2.0
    else if AnyLevel(m, reqs, Medium) then 1.5
    else if AnyLevel(m, reqs, High) then 1.0
    else 2.0
  }

  /** The requirements (`reqs`) or design level of an issue row: 0 for an issue a QA team owns. */
  function IssueLevel(issue: Issue, reqs: bool): real {
    if issue.owner.Some? && IsQa(issue.owner.value) then 0.0 else MaxLevel(issue.remaining, reqs)
  }

  // ---------------------------------------------------------------------------
  // Efforts

  /** A team's effort for an effort field, `or 0` when not given. */
  function Effort(e: WorkEstimate, f: Field): int {
    match Get(e, f)
    case Some(SecondsValue(s)) => s
    case _ => 0
  }

  /** The sum of the values of a map, in no particular order. */
  ghost function Sum<K(!new)>(m: map<K, int>): int
    decreases |m|
  {
    if |m| == 0 then 0
    else
      var k :| k in m;
      m[k] + Sum(m - {k})
  }

  /** The key the definition of Sum takes out first. */
  lemma SumChoice<K(!new)>(m: map<K, int>) returns (u: K)
    requires |m| != 0
    ensures u in m && Sum(m) == m[u] + Sum(m - {u})
  {
    u :| u in m && Sum(m) == m[u] + Sum(m - {u});
  }

  /** The sum does not depend on which key is taken out first. */
  lemma {:induction false} SumRemove<K(!new)>(m: map<K, int>, k: K)
    requires k in m
    ensures Sum(m) == m[k] + Sum(m - {k})
    decreases |m|
  {
    var u := SumChoice(m);
    if u != k {
      var both := (m - {u}) - {k};
      assert both == (m - {k}) - {u};
      SumRemove(m - {u}, k);
      SumRemove(m - {k}, u);
    }
  }

  lemma {:induction false} SumOfZeros<K(!new)>(m: map<K, int>)
    requires forall k :: k in m ==> m[k] == 0
    ensures Sum(m) == 0
    decreases |m|
  {
    if |m| != 0 {
      var k :| k in m;
      SumRemove(m, k);
      SumOfZeros(m - {k});
    }
  }

  /** Each team's `f` effort, `or 0`. */
  function Efforts(m: EstimatesByTeam, f: Field): (r: map<Option<string>, int>)
    ensures r.Keys == m.Keys && forall t :: t in m ==> r[t] == Effort(m[t], f)
  {
    map t | t in m :: Effort(m[t], f)
  }

  /** `sum(item.<field> or 0 for item in remaining.values())`. */
  ghost function TotalEffort(m: EstimatesByTeam, f: Field): int {
    Sum(Efforts(m, f))
  }

  lemma TotalEffortRemove(m: EstimatesByTeam, f: Field, t: Option<string>)
    requires t in m
    ensures TotalEffort(m, f) == Effort(m[t], f) + TotalEffort(m - {t}, f)
  {
    var e := Efforts(m, f);
    SumRemove(e, t);
    assert e - {t} == Efforts(m - {t}, f);
  }

  /** A closed issue has no remaining effort to sum, for every effort field. */
  lemma ClosedIssueHasNoEffort(status: Option<string>, m: EstimatesByTeam, f: Field)
    requires IsClosedStatus(status) && !IsLevelField(f)
    ensures TotalEffort(RemainingEstimates(status, m), f) == 0
  {
    SumOfZeros(Efforts(RemainingEstimates(status, m), f));
  }

  /** The summing generator as a loop over the teams. */
  method SumEffort(m: EstimatesByTeam, f: Field) returns (total: int)
    ensures total == TotalEffort(m, f)
  {
    total := 0;
    var rest := m;
    while |rest| != 0
      invariant total + TotalEffort(rest, f) == TotalEffort(m, f)
      decreases |rest|
    {
      var t :| t in rest;
      TotalEffortRemove(rest, f, t);
      total := total + Effort(rest[t], f);
      rest := rest - {t};
    }
  }

  function ManWeeks(seconds: int): Value {
    Number(SecondsToManWeeks(seconds))
  }

  /** The first of a group of team columns carries a left border. */
  function GroupFormat(i: int): Format {
    if i == 0 then NumericLeftFormat else NumericFormat
  }

  /** One column per team, holding its remaining `f` effort (a team without an estimate has none). */
  function TeamEffortColumns(issue: Issue, teams: seq<Team>, f: Field): (r: seq<Column>)
    ensures |r| == |teams|
    ensures forall i :: 0 <= i < |teams| ==>
      r[i] == Given(Styled(ManWeeks(Effort(EstimateFor(issue.remaining, Some(teams[i].name)), f)), Some(GroupFormat(i))))
  {
    seq(|teams|, i requires 0 <= i < |teams| =>
      Given(Styled(ManWeeks(Effort(EstimateFor(issue.remaining, Some(teams[i].name)), f)), Some(GroupFormat(i)))))
  }

  // ---------------------------------------------------------------------------
  // Formulas

  /** The cell `c` columns right of the row's first cell (`RelPos(offset, column=c)`). */
  function Col(offset: Pos, c: int): Pos {
    RelPos(offset, 0, c, None)
  }

  /** The formulas the release sheet writes, kept as syntax and rendered by FormulaText. */
  datatype Formula =
    | SumOf(first: Pos, last: Pos)                      // =SUM(first:last)
    | Scaled(source: Pos, factor: string)               // =source * factor
    | Share(impl: Pos, total: Pos, team: Pos)           // =IF(impl<>0,total*team/impl,0)
    | FeatureDev(parts: seq<Pos>, reqs: Pos, design: Pos)   // =(p0+...+pn)*reqs*design
    | PlusOf(left: Pos, right: Pos)                     // =left+right

  /** The cells a formula refers to. */
  function Refs(f: Formula): seq<Pos> {
    match f
    case SumOf(a, b) => [a, b]
    case Scaled(p, _) => [p]
    case Share(impl, total, team) => [impl, total, team]
    case FeatureDev(parts, reqs, design) => parts + [reqs, design]
    case PlusOf(a, b) => [a, b]
  }

  predicate FormulaPlaced(f: Formula) {
    forall i :: 0 <= i < |Refs(f)| ==> Placed(Refs(f)[i])
  }

  /** `p0+p1+...+pn` over the A1 references of `ps`. */
  function PlusJoined(ps: seq<Pos>): string
    requires forall i :: 0 <= i < |ps| ==> Placed(ps[i])
  {
    if ps == [] then ""
    else
      assert Placed(ps[0]);
      if |ps| == 1 then ToCell(ps[0])
      else ToCell(ps[0]) + "+" + PlusJoined(ps[1..])
  }

  /** The text of the formula as the sheet receives it. */
  function FormulaText(f: Formula): (s: string)
    requires FormulaPlaced(f)
    ensures |s| >= 1 && s[0] == '='
  {
    match f
    case SumOf(a, b) =>
      assert Placed(Refs(f)[0]) && Placed(Refs(f)[1]);
      "=SUM(" + ToCell(a) + ":" + ToCell(b) + ")"
    case Scaled(p, factor) =>
      assert Placed(Refs(f)[0]);
      "=" + ToCell(p) + " * " + factor
    case Share(impl, total, team) =>
      assert Placed(Refs(f)[0]) && Placed(Refs(f)[1]) && Placed(Refs(f)[2]);
      "=IF(" + ToCell(impl) + "<>0," + ToCell(total) + "*" + ToCell(team) + "/" + ToCell(impl) + ",0)"
    case FeatureDev(parts, reqs, design) =>
      assert forall i :: 0 <= i < |parts| ==> Refs(f)[i] == parts[i];
      assert Placed(Refs(f)[|parts|]) && Placed(Refs(f)[|parts| + 1]);
      "=(" + PlusJoined(parts) + ")*" + ToCell(reqs) + "*" + ToCell(design)
    case PlusOf(a, b) =>
      assert Placed(Refs(f)[0]) && Placed(Refs(f)[1]);
      "=" + ToCell(a) + "+" + ToCell(b)
  }

  /** Reads back the two corners of a `=SUM(a:b)` formula over plain A1 references. */
  function SumRange(s: string): Option<((nat, nat), (nat, nat))> {
    if |s| < 6 || s[..5] != "=SUM(" || s[|s| - 1] != ')' then None
    else
      var halves := Split(s[5..|s| - 1], ':');
      if |halves| != 2 then None
      else
        match (ParseA1(halves[0]), ParseA1(halves[1]))
        case (Some(a), Some(b)) => Some((a, b))
        case _ => None
  }

  lemma A1HasNoColon(row: nat, column: nat)
    ensures ':' !in A1(row, column)
  {
    var s := A1(row, column);
    var letters := ColumnName(column);
    var digits := NatToString(row + 1);
    forall i | 0 <= i < |s|
      ensures s[i] != ':'
    {
      if i < |letters| {
        assert s[i] == letters[i] && IsLetter(letters[i]);
      } else {
        assert s[i] == digits[i - |letters|] && IsDigit(digits[i - |letters|]);
      }
    }
  }

  /** A SUM over cells of the current sheet reads back as exactly the range it was built from. */
  lemma SumFormulaRange(first: Pos, last: Pos)
    requires Placed(first) && Placed(last) && first.sheet.None? && last.sheet.None?
    ensures FormulaPlaced(SumOf(first, last))
    ensures SumRange(FormulaText(SumOf(first, last))) == Some(((first.row, first.column), (last.row, last.column)))
  {
    var f := SumOf(first, last);
    assert FormulaPlaced(f);
    var a := A1(first.row, first.column);
    var b := A1(last.row, last.column);
    var s := FormulaText(f);
    assert s == "=SUM(" + (a + [':'] + b) + ")";
    assert s[..5] == "=SUM(";
    assert s[5..|s| - 1] == a + [':'] + b;
    A1HasNoColon(first.row, first.column);
    A1HasNoColon(last.row, last.column);
    SplitOnce(a, b, ':');
    A1RoundTrip(first.row, first.column);
    A1RoundTrip(last.row, last.column);
  }

  // ---------------------------------------------------------------------------
  // Row columns

  /** A column of a row: a value given as is, or a formula with its own format (None: the row's). */
  datatype Column = Given(item: RowItem) | Computed(formula: Formula, own: Option<Format>)

  predicate ColumnPlaced(c: Column) {
    c.Computed? ==> FormulaPlaced(c.formula)
  }

  /** The list element `write_row` receives for a column. */
  function ItemOf(c: Column): RowItem
    requires ColumnPlaced(c)
  {
    match c
    case Given(item) => item
    case Computed(f, None) => Plain(Text(FormulaText(f)))
    case Computed(f, Some(format)) => Styled(Text(FormulaText(f)), Some(format))
  }

  function Items(cs: seq<Column>): (r: seq<RowItem>)
    requires forall i :: 0 <= i < |cs| ==> ColumnPlaced(cs[i])
    ensures |r| == |cs| && forall i :: 0 <= i < |cs| ==> r[i] == ItemOf(cs[i])
  {
    seq(|cs|, i requires 0 <= i < |cs| => ItemOf(cs[i]))
  }

  /** A formula column holds text starting with `=`, which `write_row` stores as a formula. */
  lemma ComputedIsStoredAsFormula(c: Column, column: int, format: Option<Format>)
    requires c.Computed? && ColumnPlaced(c)
    ensures RowCell(ItemOf(c), column, None, format).content == Formula(FormulaText(c.formula))
  {
  }

  // ---------------------------------------------------------------------------
  // The development table row

  /** The columns of the development table: 14 + 3 per dev team + 1 per QA team. */
  function ColumnCount(teams: seq<Team>): nat {
    14 + 3 * |DevTeams(teams)| + |QaTeams(teams)|
  }

  /** The seven parts the feature dev total adds up, for `d` dev teams. */
  function DevTotalParts(offset: Pos, d: nat): seq<Pos> {
    [Col(offset, 4), Col(offset, 5 + d), Col(offset, 6 + d), Col(offset, 7 + d), Col(offset, 8 + d), Col(offset, 9 + d), Col(offset, 10 + 2 * d)]
  }

  /** The per-dev-team share of the feature dev total, in proportion to each team's implementation. */
  function ShareColumns(offset: Pos, d: nat): (r: seq<Column>)
    ensures |r| == d
    ensures forall i :: 0 <= i < d ==>
      r[i] == Computed(Share(Col(offset, 5 + d), Col(offset, 11 + 3 * d), Col(offset, 5 + i)), Some(GroupFormat(i)))
  {
    seq(d, i requires 0 <= i < d =>
      Computed(Share(Col(offset, 5 + d), Col(offset, 11 + 3 * d), Col(offset, 5 + i)), Some(GroupFormat(i))))
  }

  /** The figures of an issue row that are computed from its estimates rather than laid out. */
  datatype Figures = Figures(reqs: real, design: real, arch: int, documentation: int)

  /** Both levels, and the arch design and documentation efforts summed over all teams. */
  ghost function IssueFigures(issue: Issue): Figures {
    Figures(IssueLevel(issue, true), IssueLevel(issue, false),
      TotalEffort(issue.remaining, ArchDesign), TotalEffort(issue.remaining, Documentation))
  }

  /** Key, summary, the requirements and design levels, and the arch design effort. */
  function LeadColumns(issue: Issue, fig: Figures): (r: seq<Column>)
    ensures |r| == 5
  {
    [ Given(Link(issue.url, issue.key)),
      Given(Plain(Text(issue.summary))),
      Given(Styled(Number(fig.reqs), Some(ConfidenceFormat(fig.reqs, LeftBorder)))),
      Given(Styled(Number(fig.design), Some(ConfidenceFormat(fig.design, RightBorder)))),
      Given(Styled(ManWeeks(fig.arch), Some(NumericFormat))) ]
  }

  /**
   * Implementation per dev team and its SUM, integration, test automation and stabilization as
   * 10%, 20% and 30% of that total, then the documentation effort of all teams.
   */
  function ImplColumns(issue: Issue, fig: Figures, dev: seq<Team>, offset: Pos): (r: seq<Column>)
    ensures |r| == |dev| + 5
  {
    var d := |dev|;
    TeamEffortColumns(issue, dev, Implementation)
    + [ Computed(SumOf(Col(offset, 5), Col(offset, 4 + d)), Some(NumericRightFormat)),
        Computed(Scaled(Col(offset, 5 + d), "0.1"), None),
        Computed(Scaled(Col(offset, 5 + d), "0.2"), None),
        Computed(Scaled(Col(offset, 5 + d), "0.3"), None),
        Given(Plain(ManWeeks(fig.documentation))) ]
  }

  /** Perf design per dev team and its SUM. */
  function PerfColumns(issue: Issue, dev: seq<Team>, offset: Pos): (r: seq<Column>)
    ensures |r| == |dev| + 1
  {
    var d := |dev|;
    TeamEffortColumns(issue, dev, PerfDesign)
    + [Computed(SumOf(Col(offset, 10 + d), Col(offset, 9 + 2 * d)), Some(NumericRightFormat))]
  }

  /** The feature dev total: the seven effort totals times both levels. */
  function FeatureDevColumn(offset: Pos, d: nat): Column {
    Computed(FeatureDev(DevTotalParts(offset, d), Col(offset, 2), Col(offset, 3)), Some(NumericRightFormat))
  }

  /** QA effort per QA team, its SUM, and the feature total adding it to the feature dev total. */
  function QaColumns(issue: Issue, qa: seq<Team>, offset: Pos, d: nat): (r: seq<Column>)
    ensures |r| == |qa| + 2
  {
    var q := |qa|;
    TeamEffortColumns(issue, qa, QaEffort)
    + [ Computed(SumOf(Col(offset, 12 + 3 * d), Col(offset, 11 + 3 * d + q)), Some(NumericRightFormat)),
        Computed(PlusOf(Col(offset, 11 + 3 * d), Col(offset, 12 + 3 * d + q)), None) ]
  }

  /**
   * The row `_create_cells_for_issue` lists for an issue whose row starts at `offset`, with `dev`
   * and `qa` the dev and QA teams in configuration order.
   */
  function IssueColumns(issue: Issue, fig: Figures, dev: seq<Team>, qa: seq<Team>, offset: Pos): (r: seq<Column>)
    ensures |r| == 14 + 3 * |dev| + |qa|
  {
    var d := |dev|;
    LeadColumns(issue, fig) + ImplColumns(issue, fig, dev, offset) + PerfColumns(issue, dev, offset)
    + ShareColumns(offset, d) + [FeatureDevColumn(offset, d)] + QaColumns(issue, qa, offset, d)
  }

  /** Where each of six concatenated groups sits in the whole. */
  lemma Groups<T>(g1: seq<T>, g2: seq<T>, g3: seq<T>, g4: seq<T>, g5: seq<T>, g6: seq<T>)
    ensures var s := g1 + g2 + g3 + g4 + g5 + g6;
      var e1 := |g1|;
      var e2 := e1 + |g2|;
      var e3 := e2 + |g3|;
      var e4 := e3 + |g4|;
      var e5 := e4 + |g5|;
      && s[..e1] == g1 && s[e1..e2] == g2 && s[e2..e3] == g3
      && s[e3..e4] == g4 && s[e4..e5] == g5 && s[e5..] == g6
  {
    var s := g1 + g2 + g3 + g4 + g5 + g6;
    assert s == (g1 + g2 + g3 + g4 + g5) + g6;
    assert s[..|g1| + |g2| + |g3| + |g4| + |g5|] == g1 + g2 + g3 + g4 + g5;
  }

  /** A group `g` found at `s[a..b]`: its first `k` elements and the one after them. */
  lemma InGroup<T>(s: seq<T>, a: nat, b: nat, g: seq<T>, k: nat)
    requires a <= b <= |s| && s[a..b] == g && k <= |g|
    ensures s[a..a + k] == g[..k]
    ensures k < |g| ==> s[a + k] == g[k]
  {
    assert s[a..a + k] == s[a..b][..k];
  }

  /** The six groups of an issue row, each at its place. */
  lemma IssueRowGroups(issue: Issue, fig: Figures, dev: seq<Team>, qa: seq<Team>, offset: Pos)
    ensures var row := IssueColumns(issue, fig, dev, qa, offset);
      var d := |dev|;
      && row[..5] == LeadColumns(issue, fig)
      && row[5..10 + d] == ImplColumns(issue, fig, dev, offset)
      && row[10 + d..11 + 2 * d] == PerfColumns(issue, dev, offset)
      && row[11 + 2 * d..11 + 3 * d] == ShareColumns(offset, d)
      && row[11 + 3 * d] == FeatureDevColumn(offset, d)
      && row[12 + 3 * d..] == QaColumns(issue, qa, offset, d)
  {
    var d := |dev|;
    Groups(LeadColumns(issue, fig), ImplColumns(issue, fig, dev, offset), PerfColumns(issue, dev, offset),
      ShareColumns(offset, d), [FeatureDevColumn(offset, d)], QaColumns(issue, qa, offset, d));
    var row := IssueColumns(issue, fig, dev, qa, offset);
    assert row[11 + 3 * d..12 + 3 * d][0] == row[11 + 3 * d];
  }

  predicate AllPlaced(cs: seq<Column>) {
    forall i :: 0 <= i < |cs| ==> ColumnPlaced(cs[i])
  }

  lemma AllPlacedAppend(a: seq<Column>, b: seq<Column>)
    requires AllPlaced(a) && AllPlaced(b)
    ensures AllPlaced(a + b)
  {
    forall i | 0 <= i < |a + b|
      ensures ColumnPlaced((a + b)[i])
    {
      if i >= |a| {
        assert (a + b)[i] == b[i - |a|];
      }
    }
  }

  /** Effort columns are all given values, formulas aside a SUM and its neighbours. */
  lemma EffortGroupPlaced(issue: Issue, teams: seq<Team>, f: Field, tail: seq<Column>)
    requires AllPlaced(tail)
    ensures AllPlaced(TeamEffortColumns(issue, teams, f) + tail)
  {
    AllPlacedAppend(TeamEffortColumns(issue, teams, f), tail);
  }

  lemma FeatureDevPlaced(offset: Pos, d: nat)
    requires Placed(offset)
    ensures ColumnPlaced(FeatureDevColumn(offset, d))
  {
    var f := FeatureDevColumn(offset, d).formula;
    assert forall i :: 0 <= i < |Refs(f)| ==> Placed(Refs(f)[i]);
  }

  lemma GroupsPlaced(issue: Issue, fig: Figures, dev: seq<Team>, qa: seq<Team>, offset: Pos)
    requires Placed(offset)
    ensures AllPlaced(ImplColumns(issue, fig, dev, offset))
    ensures AllPlaced(PerfColumns(issue, dev, offset))
    ensures AllPlaced(QaColumns(issue, qa, offset, |dev|))
  {
    var d := |dev|;
    EffortGroupPlaced(issue, dev, Implementation, ImplColumns(issue, fig, dev, offset)[d..]);
    EffortGroupPlaced(issue, dev, PerfDesign, PerfColumns(issue, dev, offset)[d..]);
    EffortGroupPlaced(issue, qa, QaEffort, QaColumns(issue, qa, offset, d)[|qa|..]);
  }

  /** Every formula of an issue row stays on the sheet when the row does. */
  lemma IssueRowPlaced(issue: Issue, fig: Figures, dev: seq<Team>, qa: seq<Team>, offset: Pos)
    requires Placed(offset)
    ensures AllPlaced(IssueColumns(issue, fig, dev, qa, offset))
  {
    var d := |dev|;
    var lead, impl, perf := LeadColumns(issue, fig), ImplColumns(issue, fig, dev, offset), PerfColumns(issue, dev, offset);
    var shares, total, qaCols := ShareColumns(offset, d), [FeatureDevColumn(offset, d)], QaColumns(issue, qa, offset, d);
    GroupsPlaced(issue, fig, dev, qa, offset);
    FeatureDevPlaced(offset, d);
    AllPlacedAppend(lead, impl);
    AllPlacedAppend(lead + impl, perf);
    AllPlacedAppend(lead + impl + perf, shares);
    AllPlacedAppend(lead + impl + perf + shares, total);
    AllPlacedAppend(lead + impl + perf + shares + total, qaCols);
  }

  /** The implementation total SUMs exactly the per-dev-team implementation columns before it. */
  lemma IssueRowImplementation(issue: Issue, fig: Figures, dev: seq<Team>, qa: seq<Team>, offset: Pos)
    ensures var row := IssueColumns(issue, fig, dev, qa, offset);
      && row[5..5 + |dev|] == TeamEffortColumns(issue, dev, Implementation)
      && row[5 + |dev|] == Computed(SumOf(Col(offset, 5), Col(offset, 4 + |dev|)), Some(NumericRightFormat))
  {
    var row := IssueColumns(issue, fig, dev, qa, offset);
    var d := |dev|;
    IssueRowGroups(issue, fig, dev, qa, offset);
    InGroup(row, 5, 10 + d, ImplColumns(issue, fig, dev, offset), d);
  }

  /** The perf total SUMs exactly the per-dev-team perf design columns before it. */
  lemma IssueRowPerf(issue: Issue, fig: Figures, dev: seq<Team>, qa: seq<Team>, offset: Pos)
    ensures var row := IssueColumns(issue, fig, dev, qa, offset);
      var d := |dev|;
      && row[10 + d..10 + 2 * d] == TeamEffortColumns(issue, dev, PerfDesign)
      && row[10 + 2 * d] == Computed(SumOf(Col(offset, 10 + d), Col(offset, 9 + 2 * d)), Some(NumericRightFormat))
  {
    var row := IssueColumns(issue, fig, dev, qa, offset);
    var d := |dev|;
    IssueRowGroups(issue, fig, dev, qa, offset);
    InGroup(row, 10 + d, 11 + 2 * d, PerfColumns(issue, dev, offset), d);
  }

  /** The QA total SUMs exactly the per-QA-team columns before it. */
  lemma IssueRowQa(issue: Issue, fig: Figures, dev: seq<Team>, qa: seq<Team>, offset: Pos)
    ensures var row := IssueColumns(issue, fig, dev, qa, offset);
      var d := |dev|;
      var q := |qa|;
      && row[12 + 3 * d..12 + 3 * d + q] == TeamEffortColumns(issue, qa, QaEffort)
      && row[12 + 3 * d + q] == Computed(SumOf(Col(offset, 12 + 3 * d), Col(offset, 11 + 3 * d + q)), Some(NumericRightFormat))
  {
    var row := IssueColumns(issue, fig, dev, qa, offset);
    var d := |dev|;
    var q := |qa|;
    var group := QaColumns(issue, qa, offset, d);
    IssueRowGroups(issue, fig, dev, qa, offset);
    InGroup(row, 12 + 3 * d, |row|, group, q);
    assert group[..q] == TeamEffortColumns(issue, qa, QaEffort);
  }

  /**
   * Each dev team's share refers to the implementation total, the feature dev total of the same
   * row and that team's implementation column; the feature dev total combines the seven effort
   * totals with both levels.
   */
  lemma IssueRowShares(issue: Issue, fig: Figures, dev: seq<Team>, qa: seq<Team>, offset: Pos)
    ensures var row := IssueColumns(issue, fig, dev, qa, offset);
      var d := |dev|;
      && row[11 + 2 * d..11 + 3 * d] == ShareColumns(offset, d)
      && row[11 + 3 * d] == Computed(FeatureDev(DevTotalParts(offset, d), Col(offset, 2), Col(offset, 3)), Some(NumericRightFormat))
  {
    IssueRowGroups(issue, fig, dev, qa, offset);
  }

  /** Integration, test automation and stabilization are 10%, 20% and 30% of the implementation total. */
  lemma IssueRowScaled(issue: Issue, fig: Figures, dev: seq<Team>, qa: seq<Team>, offset: Pos)
    ensures var row := IssueColumns(issue, fig, dev, qa, offset);
      var d := |dev|;
      && row[6 + d] == Computed(Scaled(Col(offset, 5 + d), "0.1"), None)
      && row[7 + d] == Computed(Scaled(Col(offset, 5 + d), "0.2"), None)
      && row[8 + d] == Computed(Scaled(Col(offset, 5 + d), "0.3"), None)
  {
    var row := IssueColumns(issue, fig, dev, qa, offset);
    var d := |dev|;
    IssueRowGroups(issue, fig, dev, qa, offset);
    var impl := ImplColumns(issue, fig, dev, offset);
    assert row[5 + d..10 + d] == impl[d..] by {
      InGroup(row, 5, 10 + d, impl, d);
      assert row[5 + d..10 + d] == row[5..10 + d][d..];
    }
    assert row[6 + d] == impl[d..][1] && row[7 + d] == impl[d..][2] && row[8 + d] == impl[d..][3];
  }

  /** The feature total adds the QA total to the feature dev total. */
  lemma IssueRowFeatureTotal(issue: Issue, fig: Figures, dev: seq<Team>, qa: seq<Team>, offset: Pos)
    ensures var row := IssueColumns(issue, fig, dev, qa, offset);
      var d := |dev|;
      var q := |qa|;
      row[13 + 3 * d + q] == Computed(PlusOf(Col(offset, 11 + 3 * d), Col(offset, 12 + 3 * d + q)), None)
  {
    var row := IssueColumns(issue, fig, dev, qa, offset);
    var d := |dev|;
    IssueRowGroups(issue, fig, dev, qa, offset);
    InGroup(row, 12 + 3 * d, |row|, QaColumns(issue, qa, offset, d), |qa| + 1);
  }

  /** The figures land in the level, arch design and documentation columns. */
  lemma IssueRowFigures(issue: Issue, fig: Figures, dev: seq<Team>, qa: seq<Team>, offset: Pos)
    ensures var row := IssueColumns(issue, fig, dev, qa, offset);
      && row[..2] == [Given(Link(issue.url, issue.key)), Given(Plain(Text(issue.summary)))]
      && row[2] == Given(Styled(Number(fig.reqs), Some(ConfidenceFormat(fig.reqs, LeftBorder))))
      && row[3] == Given(Styled(Number(fig.design), Some(ConfidenceFormat(fig.design, RightBorder))))
      && row[4] == Given(Styled(ManWeeks(fig.arch), Some(NumericFormat)))
      && row[9 + |dev|] == Given(Plain(ManWeeks(fig.documentation)))
  {
    var row := IssueColumns(issue, fig, dev, qa, offset);
    var d := |dev|;
    IssueRowGroups(issue, fig, dev, qa, offset);
    var lead := LeadColumns(issue, fig);
    InGroup(row, 0, 5, lead, 2);
    InGroup(row, 0, 5, lead, 3);
    InGroup(row, 0, 5, lead, 4);
    assert row[2] == lead[2];
    InGroup(row, 5, 10 + d, ImplColumns(issue, fig, dev, offset), d + 4);
  }

  /**
   * The levels of an issue: 0 for both when a QA team owns it, otherwise the highest level its
   * teams gave, between 1 and 2.
   */
  lemma IssueLevels(issue: Issue)
    ensures var fig := IssueFigures(issue);
      && (issue.owner.Some? && IsQa(issue.owner.value) ==> fig.reqs == fig.design == 0.0)
      && (!(issue.owner.Some? && IsQa(issue.owner.value)) ==>
            fig.reqs == MaxLevel(issue.remaining, true) && fig.design == MaxLevel(issue.remaining, false)
            && 1.0 <= fig.reqs <= 2.0 && 1.0 <= fig.design <= 2.0)
  {
  }

  /** `_create_cells_for_issue` as written: appends group by group, positions taken from the list length. */
  method CreateCellsForIssue(issue: Issue, teams: seq<Team>, offset: Pos) returns (values: seq<Column>)
    ensures values == IssueColumns(issue, IssueFigures(issue), DevTeams(teams), QaTeams(teams), offset)
  {
    var dev := DevTeams(teams);
    var qa := QaTeams(teams);
    var d := |dev|;

    values := [Given(Link(issue.url, issue.key)), Given(Plain(Text(issue.summary)))];
    var reqs := IssueLevel(issue, true);
    values := values + [Given(Styled(Number(reqs), Some(ConfidenceFormat(reqs, LeftBorder))))];
    var reqsPos := Col(offset, |values| - 1);
    var design := IssueLevel(issue, false);
    values := values + [Given(Styled(Number(design), Some(ConfidenceFormat(design, RightBorder))))];
    var designPos := Col(offset, |values| - 1);
    var arch := SumEffort(issue.remaining, ArchDesign);
    var documentation := SumEffort(issue.remaining, Documentation);
    values := values + [Given(Styled(ManWeeks(arch), Some(NumericFormat)))];
    var archPos := Col(offset, |values| - 1);
    var fig := Figures(reqs, design, arch, documentation);
    assert values == LeadColumns(issue, fig);

    var impl := TeamEfforts(issue, dev, Implementation);
    var implTotalPos := Col(offset, |values| + d);
    impl := impl + [Computed(SumOf(Col(offset, |values|), Col(offset, |values| + d - 1)), Some(NumericRightFormat)),
      Computed(Scaled(implTotalPos, "0.1"), None), Computed(Scaled(implTotalPos, "0.2"), None),
      Computed(Scaled(implTotalPos, "0.3"), None), Given(Plain(ManWeeks(documentation)))];
    values := values + impl;
    var integrationPos, testAutomationPos, stabilizationPos, documentationPos :=
      Col(offset, |values| - 4), Col(offset, |values| - 3), Col(offset, |values| - 2), Col(offset, |values| - 1);

    var perf := TeamEfforts(issue, dev, PerfDesign);
    perf := perf + [Computed(SumOf(Col(offset, |values|), Col(offset, |values| + d - 1)), Some(NumericRightFormat))];
    values := values + perf;
    var perfPos := Col(offset, |values| - 1);

    var totalsPos := Col(offset, |values| + d);
    var shares := Shares(implTotalPos, totalsPos, offset, d);
    values := values + shares;
    var parts := [archPos, implTotalPos, integrationPos, testAutomationPos, stabilizationPos, documentationPos, perfPos];
    values := values + [Computed(FeatureDev(parts, reqsPos, designPos), Some(NumericRightFormat))];
    var featureDevTotalPos := Col(offset, |values| - 1);

    var qaCells := TeamEfforts(issue, qa, QaEffort);
    var qaTotalPos := Col(offset, |values| + |qa|);
    qaCells := qaCells + [Computed(SumOf(Col(offset, |values|), Col(offset, |values| + |qa| - 1)), Some(NumericRightFormat)),
      Computed(PlusOf(featureDevTotalPos, qaTotalPos), None)];
    values := values + qaCells;
  }

  /** The per-team effort loop: one column per team in order. */
  method TeamEfforts(issue: Issue, teams: seq<Team>, f: Field) returns (cells: seq<Column>)
    ensures cells == TeamEffortColumns(issue, teams, f)
  {
    cells := [];
    for i := 0 to |teams|
      invariant cells == TeamEffortColumns(issue, teams, f)[..i]
    {
      var e := EstimateFor(issue.remaining, Some(teams[i].name));
      cells := cells + [Given(Styled(ManWeeks(Effort(e, f)), Some(if i == 0 then NumericLeftFormat else NumericFormat)))];
    }
  }

  /** The share loop: one IF formula per dev team. */
  method Shares(implTotal: Pos, total: Pos, offset: Pos, d: nat) returns (cells: seq<Column>)
    requires implTotal == Col(offset, 5 + d) && total == Col(offset, 11 + 3 * d)
    ensures cells == ShareColumns(offset, d)
  {
    cells := [];
    for i := 0 to d
      invariant cells == ShareColumns(offset, d)[..i]
    {
      var teamImpl := Col(offset, 5 + i);
      cells := cells + [Computed(Share(implTotal, total, teamImpl), Some(GroupFormat(i)))];
    }
  }

  // ---------------------------------------------------------------------------
  // The QA table row

  /** The columns `_create_cells_for_qa_issue` lists: key, summary, one effort per QA team and their SUM. */
  function QaIssueColumns(issue: Issue, qa: seq<Team>, offset: Pos): (r: seq<Column>)
    ensures |r| == 3 + |qa|
    ensures r[..2] == [Given(Link(issue.url, issue.key)), Given(Plain(Text(issue.summary)))]
    ensures r[2..2 + |qa|] == TeamEffortColumns(issue, qa, QaEffort)
    ensures r[2 + |qa|] == Computed(SumOf(Col(offset, 2), Col(offset, 1 + |qa|)), Some(NumericRightFormat))
  {
    [Given(Link(issue.url, issue.key)), Given(Plain(Text(issue.summary)))]
    + TeamEffortColumns(issue, qa, QaEffort)
    + [Computed(SumOf(Col(offset, 2), Col(offset, 1 + |qa|)), Some(NumericRightFormat))]
  }

  /** Every column of a QA row at a placed position can be rendered. */
  lemma QaIssueRowPlaced(issue: Issue, qa: seq<Team>, offset: Pos)
    requires Placed(offset)
    ensures AllPlaced(QaIssueColumns(issue, qa, offset))
  {
    var r := QaIssueColumns(issue, qa, offset);
    forall i | 0 <= i < |r|
      ensures ColumnPlaced(r[i])
    {
      if i == 2 + |qa| {
        assert Refs(r[i].formula) == [Col(offset, 2), Col(offset, 1 + |qa|)];
      } else if 2 <= i {
        assert r[i] == r[2..2 + |qa|][i - 2];
      } else {
        assert r[i] == r[..2][i];
      }
    }
  }

  /** The QA total sums exactly the QA teams' effort cells of its own row. */
  lemma QaIssueRowTotal(issue: Issue, qa: seq<Team>, offset: Pos)
    requires Placed(offset) && offset.sheet.None? && |qa| >= 1
    ensures FormulaPlaced(QaIssueColumns(issue, qa, offset)[2 + |qa|].formula)
    ensures SumRange(FormulaText(QaIssueColumns(issue, qa, offset)[2 + |qa|].formula))
      == Some(((offset.row, offset.column + 2), (offset.row, offset.column + 1 + |qa|)))
  {
    SumFormulaRange(Col(offset, 2), Col(offset, 1 + |qa|));
  }

  method CreateCellsForQaIssue(issue: Issue, qa: seq<Team>, offset: Pos) returns (values: seq<Column>)
    ensures values == QaIssueColumns(issue, qa, offset)
  {
    values := [Given(Link(issue.url, issue.key)), Given(Plain(Text(issue.summary)))];
    var efforts := TeamEfforts(issue, qa, QaEffort);
    values := values + efforts;
    values := values + [Computed(SumOf(Col(offset, |values| - |qa|), Col(offset, |values| - 1)), Some(NumericRightFormat))];
  }

  // ---------------------------------------------------------------------------
  // The totals row

  /** Column `c` of `_add_totals_row`: the title, a blank before `skip`, else the SUM of the column. */
  function TotalsColumn(region: Region, skip: int, c: nat): Column {
    if c == 0 then Given(Plain(Text("Total")))
    else if c >= skip then Computed(SumOf(RelPos(region.offset, 0, c, None), RelPos(region.offset, region.rows - 1, c, None)), None)
    else Given(Plain(Text("")))
  }

  /** One column per `range(0, region.columns)`: none when the width is not positive. */
  function TotalsColumns(region: Region, skip: int): (r: seq<Column>)
    ensures |r| == if region.columns < 0 then 0 else region.columns
    ensures forall c :: 0 <= c < region.columns ==> r[c] == TotalsColumn(region, skip, c)
  {
    var n := if region.columns < 0 then 0 else region.columns;
    seq(n, c requires 0 <= c < n => TotalsColumn(region, skip, c))
  }

  /** Every column of a totals row under a placed, non-empty region can be rendered. */
  lemma TotalsPlaced(region: Region, skip: int)
    requires Placed(region.offset) && region.rows >= 1
    ensures AllPlaced(TotalsColumns(region, skip))
  {
    var r := TotalsColumns(region, skip);
    forall i | 0 <= i < |r|
      ensures ColumnPlaced(r[i])
    {
      assert r[i] == TotalsColumn(region, skip, i);
      if r[i].Computed? {
        assert Refs(r[i].formula) == [RelPos(region.offset, 0, i, None), RelPos(region.offset, region.rows - 1, i, None)];
      }
    }
  }

  /**
   * From column `skip` on, each total sums its own column over the region's rows, first to last,
   * and the formula stays on the sheet when the region does.
   */
  lemma TotalsSumColumns(region: Region, skip: int, c: nat)
    requires Placed(region.offset) && region.offset.sheet.None? && region.rows >= 1
    requires 1 <= skip <= c < region.columns
    ensures ColumnPlaced(TotalsColumns(region, skip)[c])
    ensures SumRange(FormulaText(TotalsColumns(region, skip)[c].formula))
      == Some(((region.offset.row, region.offset.column + c), (region.offset.row + region.rows - 1, region.offset.column + c)))
  {
    var first, last := RelPos(region.offset, 0, c, None), RelPos(region.offset, region.rows - 1, c, None);
    assert TotalsColumns(region, skip)[c] == Computed(SumOf(first, last), None);
    SumFormulaRange(first, last);
  }

  /** The loop of `_add_totals_row` building the row. */
  method TotalsItems(region: Region, skip: int) returns (totals: seq<Column>)
    ensures totals == TotalsColumns(region, skip)
  {
    totals := [];
    var count := if region.columns < 0 then 0 else region.columns;
    for column := 0 to count
      invariant totals == TotalsColumns(region, skip)[..column]
    {
      if column == 0 {
        totals := totals + [Given(Plain(Text("Total")))];
      } else if column >= skip {
        var first := RelPos(region.offset, 0, column, None);
        var last := RelPos(region.offset, region.rows - 1, column, None);
        totals := totals + [Computed(SumOf(first, last), None)];
      } else {
        totals := totals + [Given(Plain(Text("")))];
      }
    }
  }
}
