/**
 * Reading the plan configuration of `plan_b/exporters/config.py` once YAML has produced its
 * values: the production calendar mini-language, the team, release and data source lists, and
 * the resolution of the plan's names against them.
 */
module Config {
  import opened Wrappers
  import opened Text
  import opened Dates
  import opened Teams
  import opened Issues
  import opened Plan

  // ---------------------------------------------------------------------------
  // make_production_calendar

  /** The characters `SEPARATORS_RX` turns into `,` in a month description. */
  const CalendarSeparators: set<char> := {' ', '\t', ';'}

  const EmptyMonth := MonthCalendar({}, {})

  /** The items of a month description: separators become `,`, then it is split at `,`. */
  function MonthItems(description: string): (items: seq<string>)
    ensures |items| >= 1
  {
    Split(ReplaceChars(description, CalendarSeparators, ','), ',')
  }

  /** The days `range(lo, hi + 1)` visits. */
  function DayRange(lo: int, hi: int): (days: set<int>)
    ensures forall d :: d in days <==> lo <= d <= hi
    decreases hi - lo
  {
    if lo > hi then {} else {lo} + DayRange(lo + 1, hi)
  }

  /** The holidays of an `a-b` item: both ends parsed by `int()`, any other number of `-` is an error. */
  function IntervalDays(item: string): (r: Result<set<int>>)
    ensures |Split(item, '-')| != 2 ==> r == Err(InvalidHolidayInterval(item))
    ensures r.Ok? <==> |Split(item, '-')| == 2 && ParseInt(Split(item, '-')[0]).Some? && ParseInt(Split(item, '-')[1]).Some?
    ensures r.Ok? ==> r.value == DayRange(ParseInt(Split(item, '-')[0]).value, ParseInt(Split(item, '-')[1]).value)
  {
    var dates := Split(item, '-');
    if |dates| != 2 then Err(InvalidHolidayInterval(item))
    else
      var lo := ParseInt(dates[0]);
      if lo.None? then Err(NotANumber(dates[0]))
      else
        var hi := ParseInt(dates[1]);
        if hi.None? then Err(NotANumber(dates[1]))
        else Ok(DayRange(lo.value, hi.value))
  }

  /** The working day of an `xN` item: `int(item.replace('x', ''))`. */
  function ExtraWorkday(item: string): Result<int> {
    var digits := RemoveAll(item, "x");
    var n := ParseInt(digits);
    if n.None? then Err(NotANumber(digits)) else Ok(n.value)
  }

  /** The interval test of an item: `a-b` adds the days a..b to the holidays. */
  function IntervalStep(holidays: set<int>, item: string): Result<set<int>> {
    if '-' in item then
      var days :- IntervalDays(item);
      Ok(holidays + days)
    else Ok(holidays)
  }

  /** The number test of an item: a plain number is a holiday. */
  function NumberStep(holidays: set<int>, item: string): set<int> {
    if IsDigits(item) then holidays + {DigitsValue(item)} else holidays
  }

  /** The `x` test of an item: `xN` is an extra working day. */
  function WorkdayStep(workdays: set<int>, item: string): Result<set<int>> {
    if StartsWith(item, "x") then
      var w :- ExtraWorkday(item);
      Ok(workdays + {w})
    else Ok(workdays)
  }

  /**
   * One item of a month description, through its three independent tests in source order: an
   * interval, a plain number, an `x`-prefixed working day. Anything else is ignored.
   */
  function ApplyItem(mc: MonthCalendar, item: string): (r: Result<MonthCalendar>)
    ensures '-' in item && |Split(item, '-')| != 2 ==> r == Err(InvalidHolidayInterval(item))
    ensures item == [] ==> r == Ok(mc)
    ensures IsDigits(item) ==> r == Ok(MonthCalendar(mc.holidays + {DigitsValue(item)}, mc.workdays))
    ensures r.Ok? ==> mc.holidays <= r.value.holidays && mc.workdays <= r.value.workdays
  {
    assert StartsWith(item, "x") ==> item[0] == 'x' by {
      if StartsWith(item, "x") {
        assert item[..1][0] == item[0];
      }
    }
    var holidays :- IntervalStep(mc.holidays, item);
    var workdays :- WorkdayStep(mc.workdays, item);
    Ok(MonthCalendar(NumberStep(holidays, item), workdays))
  }

  /** The item loop over one month, from the sets gathered so far; the first failing item ends it. */
  function ApplyItems(items: seq<string>, mc: MonthCalendar): Result<MonthCalendar> {
    if items == [] then Ok(mc)
    else
      var next :- ApplyItem(mc, items[0]);
      ApplyItems(items[1..], next)
  }

  /** The descriptor of month `m` (1 = January); a month the configuration omits reads as ''. */
  function MonthDescriptor(months: map<int, string>, m: int): Result<MonthCalendar> {
    ApplyItems(MonthItems(if m in months then months[m] else ""), EmptyMonth)
  }

  /** The parsed descriptions of the twelve months, January first. */
  function MonthDescriptors(months: map<int, string>): (ds: seq<Result<MonthCalendar>>)
    ensures |ds| == 12 && forall k :: 0 <= k < 12 ==> ds[k] == MonthDescriptor(months, k + 1)
  {
    seq(12, k requires 0 <= k < 12 => MonthDescriptor(months, k + 1))
  }

  /** The month loop over descriptors `m..12`, after those already gathered in `acc`; the first failure ends it. */
  function YearFrom(ds: seq<Result<MonthCalendar>>, m: nat, acc: seq<MonthCalendar>): (r: Result<seq<MonthCalendar>>)
    requires |ds| == 12 && 1 <= m <= 13 && |acc| == m - 1
    ensures r.Ok? ==> |r.value| == 12 && r.value[..m - 1] == acc
    decreases 13 - m
  {
    if m == 13 then Ok(acc)
    else
      var mc :- ds[m - 1];
      var r := YearFrom(ds, m + 1, acc + [mc]);
      if r.Ok? then
        assert r.value[..m - 1] == r.value[..m][..m - 1];
        r
      else r
  }

  /** The calendar of one configured year: twelve descriptors, January first. */
  function YearCalendar(year: int, months: map<int, string>): (r: Result<seq<MonthCalendar>>)
    ensures r.Ok? ==> |r.value| == 12
  {
    if !(1 <= year <= 9999) then Err(YearOutOfRange(year))
    else YearFrom(MonthDescriptors(months), 1, [])
  }

  /** The years a calendar description configures. */
  function Years(description: seq<(int, map<int, string>)>): set<int> {
    if description == [] then {} else {description[0].0} + Years(description[1..])
  }

  /** The year loop, over the configured years in order after the calendar `acc` built so far. */
  function CalendarFrom(description: seq<(int, map<int, string>)>, acc: ProductionCalendar): (r: Result<ProductionCalendar>)
    ensures r.Ok? ==> r.value.Keys == acc.Keys + Years(description)
  {
    if description == [] then Ok(acc)
    else
      var (year, months) := description[0];
      var ms :- YearCalendar(year, months);
      CalendarFrom(description[1..], acc[year := ms])
  }

  /**
   * `make_production_calendar` over the configured years in order (a later entry for the same
   * year replaces an earlier one); months are keyed by their number.
   */
  function ProductionCalendarOf(description: seq<(int, map<int, string>)>): (r: Result<ProductionCalendar>)
    ensures r.Ok? ==> r.value.Keys == Years(description)
  {
    CalendarFrom(description, map[])
  }

  /** Every year of a successfully built calendar has exactly twelve month descriptors. */
  lemma {:induction false} CalendarYearsHaveTwelveMonths(description: seq<(int, map<int, string>)>, acc: ProductionCalendar)
    requires forall y :: y in acc ==> |acc[y]| == 12
    requires CalendarFrom(description, acc).Ok?
    ensures forall y :: y in CalendarFrom(description, acc).value ==> |CalendarFrom(description, acc).value[y]| == 12
  {
    if description != [] {
      var (year, months) := description[0];
      var ms := YearCalendar(year, months).value;
      CalendarYearsHaveTwelveMonths(description[1..], acc[year := ms]);
    }
  }

  /** The k-th month of a year built from `ds` is the k-th descriptor. */
  lemma {:induction false} YearFromMonths(ds: seq<Result<MonthCalendar>>, m: nat, acc: seq<MonthCalendar>, k: nat)
    requires |ds| == 12 && 1 <= m <= 13 && |acc| == m - 1
    requires YearFrom(ds, m, acc).Ok? && m - 1 <= k < 12
    ensures ds[k] == Ok(YearFrom(ds, m, acc).value[k])
    decreases 13 - m
  {
    var mc := ds[m - 1].value;
    assert YearFrom(ds, m, acc) == YearFrom(ds, m + 1, acc + [mc]);
    if k == m - 1 {
      assert YearFrom(ds, m + 1, acc + [mc]).value[..m] == acc + [mc];
    } else {
      YearFromMonths(ds, m + 1, acc + [mc], k);
    }
  }

  /** Every month of a successfully built year is the month its configuration describes, January first. */
  lemma YearCalendarMonths(year: int, months: map<int, string>)
    requires YearCalendar(year, months).Ok?
    ensures forall k :: 0 <= k < 12 ==> MonthDescriptor(months, k + 1) == Ok(YearCalendar(year, months).value[k])
  {
    forall k | 0 <= k < 12 ensures MonthDescriptor(months, k + 1) == Ok(YearCalendar(year, months).value[k]) {
      YearFromMonths(MonthDescriptors(months), 1, [], k);
    }
  }

  /** The method `make_production_calendar` as written: a year loop, a month loop and an item loop. */
  method MakeProductionCalendar(description: seq<(int, map<int, string>)>) returns (r: Result<ProductionCalendar>)
    ensures r == ProductionCalendarOf(description)
  {
    var result: ProductionCalendar := map[];
    for i := 0 to |description|
      invariant CalendarFrom(description[i..], result) == CalendarFrom(description, map[])
    {
      assert description[i..][1..] == description[i + 1..];
      var (year, months) := description[i];
      if !(1 <= year <= 9999) {
        return Err(YearOutOfRange(year));
      }
      var monthStarts := MonthsRange(Date(year, 1, 1), Date(year, 12, 1));
      YearMonthStarts(year);
      var resultMonths: seq<MonthCalendar> := [];
      ghost var ds := MonthDescriptors(months);
      for j := 0 to |monthStarts|
        invariant |resultMonths| == j
        invariant YearFrom(ds, j + 1, resultMonths) == YearFrom(ds, 1, [])
      {
        var dt := monthStarts[j];
        var monthConfig := if dt.month in months then months[dt.month] else "";
        var mc := ParseMonthDescription(monthConfig);
        if mc.Err? {
          return Err(mc.error);
        }
        resultMonths := resultMonths + [mc.value];
      }
      result := result[year := resultMonths];
    }
    return Ok(result);
  }

  /** The item loop of one month: the description split into items, each applied in turn. */
  method ParseMonthDescription(description: string) returns (r: Result<MonthCalendar>)
    ensures r == ApplyItems(MonthItems(description), EmptyMonth)
  {
    var items := Split(ReplaceChars(description, CalendarSeparators, ','), ',');
    var mc := EmptyMonth;
    for i := 0 to |items|
      invariant ApplyItems(items[i..], mc) == ApplyItems(items, EmptyMonth)
    {
      assert items[i..][1..] == items[i + 1..];
      var next := ApplyItemStep(mc, items[i]);
      if next.Err? {
        return Err(next.error);
      }
      mc := next.value;
    }
    return Ok(mc);
  }

  /** The body of the item loop: the interval test, the number test and the `x` test, in order. */
  method ApplyItemStep(mc: MonthCalendar, item: string) returns (r: Result<MonthCalendar>)
    ensures r == ApplyItem(mc, item)
  {
    var holidays := mc.holidays;
    var workdays := mc.workdays;
    if '-' in item {
      var dates := Split(item, '-');
      if |dates| != 2 {
        return Err(InvalidHolidayInterval(item));
      }
      var lo := ParseInt(dates[0]);
      if lo.None? {
        return Err(NotANumber(dates[0]));
      }
      var hi := ParseInt(dates[1]);
      if hi.None? {
        return Err(NotANumber(dates[1]));
      }
      holidays := AddDays(holidays, lo.value, hi.value);
    }
    if IsDigits(item) {
      holidays := holidays + {DigitsValue(item)};
    }
    if StartsWith(item, "x") {
      var digits := RemoveAll(item, "x");
      var n := ParseInt(digits);
      if n.None? {
        return Err(NotANumber(digits));
      }
      workdays := workdays + {n.value};
    }
    return Ok(MonthCalendar(holidays, workdays));
  }

  /** `for day in range(lo, hi + 1): holidays.add(day)`. */
  method AddDays(holidays: set<int>, lo: int, hi: int) returns (result: set<int>)
    ensures result == holidays + DayRange(lo, hi)
  {
    result := holidays;
    var day := lo;
    while day <= hi
      invariant day == lo || lo <= day <= hi + 1
      invariant result == holidays + DayRange(lo, day - 1)
      decreases hi - day
    {
      assert DayRange(lo, day) == DayRange(lo, day - 1) + {day};
      result := result + {day};
      day := day + 1;
    }
    assert DayRange(lo, day - 1) == DayRange(lo, hi);
  }

  // ---------------------------------------------------------------------------
  // Properties of the month mini-language

  /** A space, a tab or `;` separates items exactly as `,` does. */
  lemma SeparatorsActAsComma(a: string, b: string, c: char)
    requires c in CalendarSeparators
    ensures MonthItems(a + [c] + b) == MonthItems(a + [','] + b)
  {
    assert ReplaceChars(a + [c] + b, CalendarSeparators, ',') == ReplaceChars(a + [','] + b, CalendarSeparators, ',');
  }

  lemma DigitsHaveNoSign(n: nat, c: char)
    requires !IsDigit(c)
    ensures c !in NatToString(n)
  {
    var s := NatToString(n);
    forall i | 0 <= i < |s| ensures s[i] != c {
      assert IsDigit(s[i]);
    }
  }

  lemma IntervalOfNumbers(a: nat, b: nat)
    ensures IntervalDays(NatToString(a) + "-" + NatToString(b)) == Ok(DayRange(a, b))
  {
    DigitsHaveNoSign(a, '-');
    DigitsHaveNoSign(b, '-');
    assert NatToString(a) + "-" + NatToString(b) == NatToString(a) + ['-'] + NatToString(b);
    SplitOnce(NatToString(a), NatToString(b), '-');
    ParseIntRoundTrip(a);
    ParseIntRoundTrip(b);
  }

  /** `a-b` makes every day from a to b a holiday, and nothing else. */
  lemma IntervalItem(mc: MonthCalendar, a: nat, b: nat)
    ensures ApplyItem(mc, NatToString(a) + "-" + NatToString(b)) == Ok(MonthCalendar(mc.holidays + DayRange(a, b), mc.workdays))
  {
    IntervalStepOf(mc.holidays, a, b);
    IntervalNotNumber(mc.holidays + DayRange(a, b), a, b);
    IntervalNotWorkday(mc.workdays, a, b);
  }

  lemma IntervalStepOf(holidays: set<int>, a: nat, b: nat)
    ensures IntervalStep(holidays, NatToString(a) + "-" + NatToString(b)) == Ok(holidays + DayRange(a, b))
  {
    var item := NatToString(a) + "-" + NatToString(b);
    IntervalOfNumbers(a, b);
    assert item[|NatToString(a)|] == '-';
  }

  lemma IntervalNotNumber(holidays: set<int>, a: nat, b: nat)
    ensures NumberStep(holidays, NatToString(a) + "-" + NatToString(b)) == holidays
  {
    var item := NatToString(a) + "-" + NatToString(b);
    assert item[|NatToString(a)|] == '-';
  }

  lemma IntervalNotWorkday(workdays: set<int>, a: nat, b: nat)
    ensures WorkdayStep(workdays, NatToString(a) + "-" + NatToString(b)) == Ok(workdays)
  {
    var item := NatToString(a) + "-" + NatToString(b);
    assert IsDigit(NatToString(a)[0]) && item[0] == NatToString(a)[0];
    assert item[..1][0] == item[0];
  }

  /** `xN` makes day N an extra working day, and nothing else. */
  lemma WorkdayItem(mc: MonthCalendar, n: nat)
    ensures ApplyItem(mc, "x" + NatToString(n)) == Ok(MonthCalendar(mc.holidays, mc.workdays + {n}))
  {
    var item := "x" + NatToString(n);
    DigitsHaveNoSign(n, '-');
    DigitsHaveNoSign(n, 'x');
    assert item[1..] == NatToString(n);
    assert '-' !in item;
    assert !IsDigit(item[0]);
    assert StartsWith(item, "x");
    NotContainsChar(NatToString(n), 'x');
    RemoveAllAbsent(NatToString(n), "x");
    assert RemoveAll(item, "x") == NatToString(n);
    ParseIntRoundTrip(n);
  }

  /** A month missing from the configuration has no holidays and no extra working days. */
  lemma MissingMonthIsEmpty(months: map<int, string>, m: int)
    requires m !in months
    ensures MonthDescriptor(months, m) == Ok(EmptyMonth)
  {
    assert ReplaceChars("", CalendarSeparators, ',') == "";
    assert MonthItems("") == [[]];
    assert ApplyItem(EmptyMonth, "") == Ok(EmptyMonth);
    assert MonthItems("")[1..] == [];
  }

  /** The days an item makes holidays. */
  predicate HolidayOfItem(item: string, d: int) {
    ('-' in item && IntervalDays(item).Ok? && d in IntervalDays(item).value)
    || (IsDigits(item) && DigitsValue(item) == d)
  }

  /** The day an item makes an extra working day. */
  predicate WorkdayOfItem(item: string, d: int) {
    StartsWith(item, "x") && ExtraWorkday(item) == Ok(d)
  }

  lemma ItemEffect(mc: MonthCalendar, item: string)
    requires ApplyItem(mc, item).Ok?
    ensures forall d :: d in ApplyItem(mc, item).value.holidays <==> d in mc.holidays || HolidayOfItem(item, d)
    ensures forall d :: d in ApplyItem(mc, item).value.workdays <==> d in mc.workdays || WorkdayOfItem(item, d)
  {
  }

  /**
   * After a successful item loop, a day is a holiday exactly when it was one already or some item
   * denotes it (an interval containing it or the number itself), and an extra working day exactly
   * when it was one already or some `x` item names it.
   */
  lemma {:induction false} ItemsEffect(items: seq<string>, mc: MonthCalendar)
    requires ApplyItems(items, mc).Ok?
    ensures forall d :: d in ApplyItems(items, mc).value.holidays <==>
      d in mc.holidays || exists i :: 0 <= i < |items| && HolidayOfItem(items[i], d)
    ensures forall d :: d in ApplyItems(items, mc).value.workdays <==>
      d in mc.workdays || exists i :: 0 <= i < |items| && WorkdayOfItem(items[i], d)
  {
    if items != [] {
      var next := ApplyItem(mc, items[0]).value;
      ItemEffect(mc, items[0]);
      ItemsEffect(items[1..], next);
      var result := ApplyItems(items, mc).value;
      forall d ensures d in result.holidays <==> d in mc.holidays || exists i :: 0 <= i < |items| && HolidayOfItem(items[i], d) {
        if exists i :: 0 <= i < |items| && HolidayOfItem(items[i], d) {
          var i :| 0 <= i < |items| && HolidayOfItem(items[i], d);
          if i > 0 {
            assert HolidayOfItem(items[1..][i - 1], d);
          }
        }
        if exists i :: 0 <= i < |items[1..]| && HolidayOfItem(items[1..][i], d) {
          var i :| 0 <= i < |items[1..]| && HolidayOfItem(items[1..][i], d);
          assert HolidayOfItem(items[i + 1], d);
        }
      }
      forall d ensures d in result.workdays <==> d in mc.workdays || exists i :: 0 <= i < |items| && WorkdayOfItem(items[i], d) {
        if exists i :: 0 <= i < |items| && WorkdayOfItem(items[i], d) {
          var i :| 0 <= i < |items| && WorkdayOfItem(items[i], d);
          if i > 0 {
            assert WorkdayOfItem(items[1..][i - 1], d);
          }
        }
        if exists i :: 0 <= i < |items[1..]| && WorkdayOfItem(items[1..][i], d) {
          var i :| 0 <= i < |items[1..]| && WorkdayOfItem(items[1..][i], d);
          assert WorkdayOfItem(items[i + 1], d);
        }
      }
    }
  }

  // ---------------------------------------------------------------------------
  // read_teams_from_config, read_releases_from_config, read_data_sources_from_config

  /** A `members` entry: `name`, and the optional `efficiency` and `works_since`. */
  datatype MemberConfig = MemberConfig(name: string, efficiency: Option<real>, worksSince: Option<Date>)
  datatype TeamConfig = TeamConfig(name: string, members: seq<MemberConfig>)
  datatype ReleaseConfig = ReleaseConfig(name: string, dataQuery: string)
  datatype DataSourceConfig = DataSourceConfig(name: string, kind: string, url: string)

  /** The `plan` section: the names it selects, the output file and the period. */
  datatype PlanSection = PlanSection(
    teams: seq<string>,
    releases: seq<string>,
    dataSource: string,
    outputFile: string,
    start: Date,
    end: Date)

  /** The configuration file; an absent list reads as empty, as `config.get(..., [])` does. */
  datatype ConfigFile = ConfigFile(
    teams: seq<TeamConfig>,
    releases: seq<ReleaseConfig>,
    dataSources: seq<DataSourceConfig>,
    calendar: seq<(int, map<int, string>)>,
    plan: PlanSection)

  function WorkersOf(members: seq<MemberConfig>): seq<Worker> {
    seq(|members|, i requires 0 <= i < |members| => MakeWorker(members[i].name, members[i].efficiency, members[i].worksSince))
  }

  function TeamsOf(config: seq<TeamConfig>): seq<Team> {
    seq(|config|, i requires 0 <= i < |config| => MakeTeam(config[i].name, WorkersOf(config[i].members)))
  }

  /** The configured teams keep their order, their names and their members' order and names. */
  lemma TeamsOfConfig(config: seq<TeamConfig>)
    ensures |TeamsOf(config)| == |config|
    ensures forall i :: 0 <= i < |config| ==>
      var t := TeamsOf(config)[i];
      && t.name == config[i].name
      && (IsQa(t) <==> Contains(Lower(config[i].name), "qa"))
      && |t.members| == |config[i].members|
      && forall j :: 0 <= j < |t.members| ==> (t.members[j].name == config[i].members[j].name
        && (t.members[j].TbhWorker? <==> Contains(config[i].members[j].name, "TBH")))
  {
  }

  /** `read_teams_from_config`: a team loop around a member loop. */
  method ReadTeams(config: seq<TeamConfig>) returns (teams: seq<Team>)
    ensures teams == TeamsOf(config)
  {
    teams := [];
    for i := 0 to |config|
      invariant teams == TeamsOf(config[..i])
    {
      var t := config[i];
      var workers: seq<Worker> := [];
      for j := 0 to |t.members|
        invariant workers == WorkersOf(t.members[..j])
      {
        var m := t.members[j];
        workers := workers + [MakeWorker(m.name, m.efficiency, m.worksSince)];
      }
      assert t.members[..|t.members|] == t.members;
      teams := teams + [MakeTeam(t.name, workers)];
    }
    assert config[..|config|] == config;
  }

  function ReleasesOf(config: seq<ReleaseConfig>): (releases: seq<ProductRelease>)
    ensures |releases| == |config|
    ensures forall i :: 0 <= i < |config| ==>
      releases[i].name == config[i].name && releases[i].dataQuery == config[i].dataQuery && releases[i].issues == []
  {
    seq(|config|, i requires 0 <= i < |config| => ProductRelease(config[i].name, config[i].dataQuery, []))
  }

  /** `read_releases_from_config`. */
  method ReadReleases(config: seq<ReleaseConfig>) returns (releases: seq<ProductRelease>)
    ensures releases == ReleasesOf(config)
  {
    releases := [];
    for i := 0 to |config|
      invariant releases == ReleasesOf(config[..i])
    {
      releases := releases + [ProductRelease(config[i].name, config[i].dataQuery, [])];
    }
    assert config[..|config|] == config;
  }

  /** The data sources, in order; the first whose type is not `jira` is an error. */
  function DataSourcesOf(config: seq<DataSourceConfig>): (r: Result<seq<DataSource>>)
    ensures r.Ok? <==> forall i :: 0 <= i < |config| ==> config[i].kind == "jira"
    ensures r.Ok? ==> |r.value| == |config| && forall i :: 0 <= i < |config| ==> r.value[i] == DataSource(config[i].name, config[i].url)
    ensures r.Err? ==> exists i :: (0 <= i < |config| && config[i].kind != "jira"
      && (forall j :: 0 <= j < i ==> config[j].kind == "jira")
      && r.error == UnknownDataSourceType(config[i].kind))
  {
    if config == [] then Ok([])
    else if config[0].kind != "jira" then Err(UnknownDataSourceType(config[0].kind))
    else
      var rest := DataSourcesOf(config[1..]);
      if rest.Err? then
        ghost var i :| 0 <= i < |config[1..]| && config[1..][i].kind != "jira"
          && (forall j :: 0 <= j < i ==> config[1..][j].kind == "jira")
          && rest.error == UnknownDataSourceType(config[1..][i].kind);
        assert config[i + 1].kind != "jira";
        rest
      else Ok([DataSource(config[0].name, config[0].url)] + rest.value)
  }

  /** `read_data_sources_from_config`. */
  method ReadDataSources(config: seq<DataSourceConfig>) returns (r: Result<seq<DataSource>>)
    ensures r == DataSourcesOf(config)
  {
    var sources: seq<DataSource> := [];
    for i := 0 to |config|
      invariant |sources| == i
      invariant forall j :: 0 <= j < i ==> config[j].kind == "jira" && sources[j] == DataSource(config[j].name, config[j].url)
    {
      if config[i].kind != "jira" {
        ghost var wanted := DataSourcesOf(config);
        assert wanted.Err?;
        ghost var k :| 0 <= k < |config| && config[k].kind != "jira"
          && (forall j :: 0 <= j < k ==> config[j].kind == "jira")
          && wanted.error == UnknownDataSourceType(config[k].kind);
        assert k == i;
        return Err(UnknownDataSourceType(config[i].kind));
      }
      sources := sources + [DataSource(config[i].name, config[i].url)];
    }
    assert DataSourcesOf(config).Ok?;
    assert DataSourcesOf(config).value == sources;
    return Ok(sources);
  }

  // ---------------------------------------------------------------------------
  // Name resolution in make_capacity_plan_from_config

  /** The indices of the definitions named `n`, in order: what `filter(lambda x: x.name == n, ...)` keeps. */
  function Positions(names: seq<string>, n: string): (ps: seq<nat>)
    ensures forall k :: 0 <= k < |ps| ==> ps[k] < |names| && names[ps[k]] == n
    ensures forall j :: 0 <= j < |names| && names[j] == n ==> j in ps
    ensures forall k, l :: 0 <= k < l < |ps| ==> ps[k] < ps[l]
  {
    if names == [] then []
    else Positions(names[..|names| - 1], n) + (if names[|names| - 1] == n then [|names| - 1] else [])
  }

  /** A name matched by exactly one definition names that definition and no other. */
  lemma SinglePosition(names: seq<string>, n: string)
    requires |Positions(names, n)| == 1
    ensures forall j :: 0 <= j < |names| && names[j] == n ==> j == Positions(names, n)[0]
  {
  }

  /**
   * The plan's names looked up one by one, after the definitions `acc` already found: each must
   * name exactly one definition, and the first that does not is reported with its match count.
   */
  function ResolveFrom<T>(items: seq<T>, names: seq<string>, what: string, wanted: seq<string>, acc: seq<T>): (r: Result<seq<T>>)
    requires |items| == |names|
    ensures r.Ok? ==> |r.value| == |acc| + |wanted|
  {
    if wanted == [] then Ok(acc)
    else
      var ps := Positions(names, wanted[0]);
      if |ps| != 1 then Err(InvalidPlanEntry(what, wanted[0], |ps|))
      else ResolveFrom(items, names, what, wanted[1..], acc + [items[ps[0]]])
  }

  /** Resolution succeeds exactly when every wanted name matches exactly one definition. */
  lemma {:induction false} ResolveSucceeds<T>(items: seq<T>, names: seq<string>, what: string, wanted: seq<string>, acc: seq<T>)
    requires |items| == |names|
    ensures ResolveFrom(items, names, what, wanted, acc).Ok? <==> forall i :: 0 <= i < |wanted| ==> |Positions(names, wanted[i])| == 1
  {
    if wanted != [] {
      var ps := Positions(names, wanted[0]);
      if |ps| == 1 {
        ResolveSucceeds(items, names, what, wanted[1..], acc + [items[ps[0]]]);
        assert forall i :: 1 <= i < |wanted| ==> wanted[i] == wanted[1..][i - 1];
      }
    }
  }

  /** The i-th resolved definition is the one definition named by the i-th wanted name. */
  lemma {:induction false} ResolveValues<T>(items: seq<T>, names: seq<string>, what: string, wanted: seq<string>, acc: seq<T>)
    requires |items| == |names| && ResolveFrom(items, names, what, wanted, acc).Ok?
    ensures var r := ResolveFrom(items, names, what, wanted, acc).value;
      && r[..|acc|] == acc
      && forall i :: 0 <= i < |wanted| ==> |Positions(names, wanted[i])| == 1 && r[|acc| + i] == items[Positions(names, wanted[i])[0]]
  {
    if wanted != [] {
      var ps := Positions(names, wanted[0]);
      var acc' := acc + [items[ps[0]]];
      ResolveValues(items, names, what, wanted[1..], acc');
      var r := ResolveFrom(items, names, what, wanted, acc).value;
      assert r[..|acc|] == r[..|acc'|][..|acc|];
      assert r[|acc|] == r[..|acc'|][|acc|];
      forall i | 1 <= i < |wanted|
        ensures |Positions(names, wanted[i])| == 1 && r[|acc| + i] == items[Positions(names, wanted[i])[0]]
      {
        assert wanted[i] == wanted[1..][i - 1];
      }
    }
  }

  /** The index of the first wanted name that does not match exactly one definition (|wanted| when none). */
  function FirstUnresolved(names: seq<string>, wanted: seq<string>): (i: nat)
    ensures i <= |wanted|
    ensures forall j :: 0 <= j < i ==> |Positions(names, wanted[j])| == 1
    ensures i < |wanted| ==> |Positions(names, wanted[i])| != 1
  {
    if wanted == [] || |Positions(names, wanted[0])| != 1 then 0
    else 1 + FirstUnresolved(names, wanted[1..])
  }

  /** A failed resolution reports the first name not matching exactly one definition, with its count. */
  lemma {:induction false} ResolveError<T>(items: seq<T>, names: seq<string>, what: string, wanted: seq<string>, acc: seq<T>)
    requires |items| == |names| && ResolveFrom(items, names, what, wanted, acc).Err?
    ensures FirstUnresolved(names, wanted) < |wanted|
    ensures ResolveFrom(items, names, what, wanted, acc).error
         == InvalidPlanEntry(what, wanted[FirstUnresolved(names, wanted)], |Positions(names, wanted[FirstUnresolved(names, wanted)])|)
  {
    var ps := Positions(names, wanted[0]);
    if |ps| == 1 {
      ResolveError(items, names, what, wanted[1..], acc + [items[ps[0]]]);
      assert wanted[1..][FirstUnresolved(names, wanted[1..])] == wanted[FirstUnresolved(names, wanted)];
    }
  }

  /** The loop resolving one kind of plan entry. */
  method ResolveNames<T>(items: seq<T>, names: seq<string>, what: string, wanted: seq<string>) returns (r: Result<seq<T>>)
    requires |items| == |names|
    ensures r == ResolveFrom(items, names, what, wanted, [])
  {
    var found: seq<T> := [];
    for i := 0 to |wanted|
      invariant ResolveFrom(items, names, what, wanted[i..], found) == ResolveFrom(items, names, what, wanted, [])
    {
      assert wanted[i..][1..] == wanted[i + 1..];
      var matching: seq<T> := [];
      ghost var ps: seq<nat> := [];
      for j := 0 to |items|
        invariant ps == Positions(names[..j], wanted[i])
        invariant |matching| == |ps| && forall k :: 0 <= k < |ps| ==> ps[k] < |items| && matching[k] == items[ps[k]]
      {
        assert names[..j + 1][..j] == names[..j];
        if names[j] == wanted[i] {
          matching := matching + [items[j]];
          ps := ps + [j];
        }
      }
      assert names[..|items|] == names;
      if |matching| != 1 {
        return Err(InvalidPlanEntry(what, wanted[i], |matching|));
      }
      found := found + [matching[0]];
    }
    assert wanted[|wanted|..] == [];
    return Ok(found);
  }

  function ReleaseNames(releases: seq<ProductRelease>): (names: seq<string>)
    ensures |names| == |releases| && forall i :: 0 <= i < |releases| ==> names[i] == releases[i].name
  {
    seq(|releases|, i requires 0 <= i < |releases| => releases[i].name)
  }

  function SourceNames(sources: seq<DataSource>): (names: seq<string>)
    ensures |names| == |sources| && forall i :: 0 <= i < |sources| ==> names[i] == sources[i].name
  {
    seq(|sources|, i requires 0 <= i < |sources| => sources[i].name)
  }

  /**
   * `make_capacity_plan_from_config` past the YAML load: teams, then releases, then the data
   * source (reading the data source list only then), then the production calendar.
   */
  function PlanOf(config: ConfigFile): Result<CapacityPlan> {
    var allTeams := TeamsOf(config.teams);
    var teams :- ResolveFrom(allTeams, TeamNames(allTeams), "teams", config.plan.teams, []);
    var allReleases := ReleasesOf(config.releases);
    var releases :- ResolveFrom(allReleases, ReleaseNames(allReleases), "releases", config.plan.releases, []);
    var sources :- DataSourcesOf(config.dataSources);
    var source :- ResolveFrom(sources, SourceNames(sources), "data source", [config.plan.dataSource], []);
    var calendar :- ProductionCalendarOf(config.calendar);
    Ok(CapacityPlan(config.plan.outputFile, config.plan.start, config.plan.end, calendar, source[0], teams, releases))
  }

  method MakeCapacityPlan(config: ConfigFile) returns (r: Result<CapacityPlan>)
    ensures r == PlanOf(config)
  {
    var allTeams := ReadTeams(config.teams);
    var teams := ResolveNames(allTeams, TeamNames(allTeams), "teams", config.plan.teams);
    if teams.Err? {
      return Err(teams.error);
    }
    var allReleases := ReadReleases(config.releases);
    var releases := ResolveNames(allReleases, ReleaseNames(allReleases), "releases", config.plan.releases);
    if releases.Err? {
      return Err(releases.error);
    }
    var sources := ReadDataSources(config.dataSources);
    if sources.Err? {
      return Err(sources.error);
    }
    var source := ResolveNames(sources.value, SourceNames(sources.value), "data source", [config.plan.dataSource]);
    if source.Err? {
      return Err(source.error);
    }
    var calendar := MakeProductionCalendar(config.calendar);
    if calendar.Err? {
      return Err(calendar.error);
    }
    return Ok(CapacityPlan(config.plan.outputFile, config.plan.start, config.plan.end, calendar.value,
      source.value[0], teams.value, releases.value));
  }

  /**
   * A plan is built exactly when every name it selects matches exactly one definition, every
   * data source is a Jira one and the calendar is well-formed.
   */
  lemma PlanSucceeds(config: ConfigFile)
    ensures var allTeams := TeamsOf(config.teams);
      var allReleases := ReleasesOf(config.releases);
      PlanOf(config).Ok? <==>
        (forall i :: 0 <= i < |config.plan.teams| ==> |Positions(TeamNames(allTeams), config.plan.teams[i])| == 1)
        && (forall i :: 0 <= i < |config.plan.releases| ==> |Positions(ReleaseNames(allReleases), config.plan.releases[i])| == 1)
        && (forall i :: 0 <= i < |config.dataSources| ==> config.dataSources[i].kind == "jira")
        && |Positions(SourceNames(DataSourcesOf(config.dataSources).value), config.plan.dataSource)| == 1
        && ProductionCalendarOf(config.calendar).Ok?
  {
    var allTeams := TeamsOf(config.teams);
    var allReleases := ReleasesOf(config.releases);
    ResolveSucceeds(allTeams, TeamNames(allTeams), "teams", config.plan.teams, []);
    ResolveSucceeds(allReleases, ReleaseNames(allReleases), "releases", config.plan.releases, []);
    var sources := DataSourcesOf(config.dataSources);
    if sources.Ok? {
      ResolveSucceeds(sources.value, SourceNames(sources.value), "data source", [config.plan.dataSource], []);
    }
  }

  /**
   * A built plan holds the selected teams and releases in the plan's order, each the one
   * definition of its name, the selected data source and a calendar for every configured year.
   */
  lemma PlanSelects(config: ConfigFile)
    requires PlanOf(config).Ok?
    ensures var p := PlanOf(config).value;
      && |p.teams| == |config.plan.teams|
      && (forall i :: 0 <= i < |p.teams| ==> p.teams[i].name == config.plan.teams[i])
      && |p.releases| == |config.plan.releases|
      && (forall i :: 0 <= i < |p.releases| ==> p.releases[i].name == config.plan.releases[i])
      && p.dataSource.name == config.plan.dataSource
      && p.calendar.Keys == Years(config.calendar)
  {
    var allTeams := TeamsOf(config.teams);
    var allReleases := ReleasesOf(config.releases);
    var p := PlanOf(config).value;
    var sources := DataSourcesOf(config.dataSources).value;
    ResolveValues(allTeams, TeamNames(allTeams), "teams", config.plan.teams, []);
    ResolveValues(allReleases, ReleaseNames(allReleases), "releases", config.plan.releases, []);
    ResolveValues(sources, SourceNames(sources), "data source", [config.plan.dataSource], []);
    forall i | 0 <= i < |p.teams| ensures p.teams[i].name == config.plan.teams[i] {
      var j := Positions(TeamNames(allTeams), config.plan.teams[i])[0];
      assert p.teams[i] == allTeams[j];
    }
    forall i | 0 <= i < |p.releases| ensures p.releases[i].name == config.plan.releases[i] {
      var j := Positions(ReleaseNames(allReleases), config.plan.releases[i])[0];
      assert p.releases[i] == allReleases[j];
    }
    var j := Positions(SourceNames(sources), config.plan.dataSource)[0];
    assert p.dataSource == sources[j];
  }
}
