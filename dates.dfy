/**
 * Calendar arithmetic of `plan_b/date_utils.py`: proleptic Gregorian dates as Python's
 * `datetime.date`, the month-start enumeration `get_months_range` and the per-month workday
 * count `get_month_workdays_count` under a production calendar.
 */
module Dates {
  import opened Wrappers
  import opened Text

  /** A `datetime.date`; only `Valid()` values are ever built by the exporter. */
  datatype Date = Date(year: int, month: int, day: int) {
    predicate Valid() {
      1 <= year <= 9999 && 1 <= month <= 12 && 1 <= day <= DaysInMonth(year, month)
    }
  }

  predicate IsLeap(y: int) {
    y % 4 == 0 && (y % 100 != 0 || y % 400 == 0)
  }

  /** `calendar.monthrange(y, m)[1]`. */
  function DaysInMonth(y: int, m: int): (n: int)
    ensures 28 <= n <= 31
  {
    if m == 2 then (if IsLeap(y) then 29 else 28)
    else if m == 4 || m == 6 || m == 9 || m == 11 then 30
    else 31
  }

  /** Python's `a < b` on dates: lexicographic on (year, month, day). */
  predicate Before(a: Date, b: Date) {
    a.year < b.year || (a.year == b.year && (a.month < b.month || (a.month == b.month && a.day < b.day)))
  }

  function DaysBeforeYear(y: int): int {
    var p := y - 1;
    365 * p + p / 4 - p / 100 + p / 400
  }

  function DaysBeforeMonth(y: int, m: int): nat
    requires 1 <= m <= 12
  {
    if m == 1 then 0 else DaysBeforeMonth(y, m - 1) + DaysInMonth(y, m - 1)
  }

  /** `date.toordinal()`: 0001-01-01 is day 1. */
  function Ordinal(d: Date): int
    requires d.Valid()
  {
    DaysBeforeYear(d.year) + DaysBeforeMonth(d.year, d.month) + d.day
  }

  /** `date.weekday()`: Monday is 0, Saturday 5 and Sunday 6. */
  function Weekday(d: Date): (w: int)
    requires d.Valid()
    ensures 0 <= w < 7
  {
    (Ordinal(d) + 6) % 7
  }

  function DaysInYear(y: int): int {
    if IsLeap(y) then 366 else 365
  }

  lemma YearStep4(y: int)
    ensures y / 4 - (y - 1) / 4 == if y % 4 == 0 then 1 else 0
  {
  }

  lemma YearStep100(y: int)
    ensures y / 100 - (y - 1) / 100 == if y % 100 == 0 then 1 else 0
  {
  }

  lemma YearStep400(y: int)
    ensures y / 400 - (y - 1) / 400 == if y % 400 == 0 then 1 else 0
  {
  }

  lemma DaysBeforeNextYear(y: int)
    ensures DaysBeforeYear(y + 1) == DaysBeforeYear(y) + DaysInYear(y)
  {
    YearStep4(y);
    YearStep100(y);
    YearStep400(y);
    CenturyMultiples(y);
    var p := y - 1;
    var step := (y / 4 - p / 4) - (y / 100 - p / 100) + (y / 400 - p / 400);
    assert DaysBeforeYear(y + 1) == DaysBeforeYear(y) + 365 + step;
    assert step == if IsLeap(y) then 1 else 0;
  }

  /** Every hundredth year is a fourth year, and every four-hundredth a hundredth. */
  lemma CenturyMultiples(y: int)
    ensures y % 100 == 0 ==> y % 4 == 0
    ensures y % 400 == 0 ==> y % 100 == 0
  {
    if y % 100 == 0 {
      var q := y / 100;
      assert y == 4 * (25 * q);
    }
    if y % 400 == 0 {
      var q := y / 400;
      assert y == 100 * (4 * q);
    }
  }

  lemma {:induction false} DaysBeforeYearMonotone(y: int, z: int)
    requires y < z
    ensures DaysBeforeYear(y) + DaysInYear(y) <= DaysBeforeYear(z)
    decreases z - y
  {
    DaysBeforeNextYear(y);
    if y + 1 < z {
      DaysBeforeYearMonotone(y + 1, z);
    }
  }

  lemma DaysBeforeDecember(y: int)
    ensures DaysBeforeMonth(y, 12) + 31 == DaysInYear(y)
  {
    assert DaysBeforeMonth(y, 2) == 31;
    assert DaysBeforeMonth(y, 3) == 31 + DaysInMonth(y, 2);
    assert DaysBeforeMonth(y, 4) == DaysBeforeMonth(y, 3) + 31;
    assert DaysBeforeMonth(y, 5) == DaysBeforeMonth(y, 4) + 30;
    assert DaysBeforeMonth(y, 6) == DaysBeforeMonth(y, 5) + 31;
    assert DaysBeforeMonth(y, 7) == DaysBeforeMonth(y, 6) + 30;
    assert DaysBeforeMonth(y, 8) == DaysBeforeMonth(y, 7) + 31;
    assert DaysBeforeMonth(y, 9) == DaysBeforeMonth(y, 8) + 31;
    assert DaysBeforeMonth(y, 10) == DaysBeforeMonth(y, 9) + 30;
    assert DaysBeforeMonth(y, 11) == DaysBeforeMonth(y, 10) + 31;
    assert DaysBeforeMonth(y, 12) == DaysBeforeMonth(y, 11) + 30;
  }

  lemma {:induction false} DaysBeforeMonthMonotone(y: int, m: int, n: int)
    requires 1 <= m < n <= 12
    ensures DaysBeforeMonth(y, m) + DaysInMonth(y, m) <= DaysBeforeMonth(y, n)
    decreases n - m
  {
    if m + 1 < n {
      DaysBeforeMonthMonotone(y, m + 1, n);
    }
  }

  /** A valid date's ordinal lies within its year. */
  lemma OrdinalWithinYear(d: Date)
    requires d.Valid()
    ensures DaysBeforeYear(d.year) < Ordinal(d) <= DaysBeforeYear(d.year) + DaysInYear(d.year)
  {
    DaysBeforeDecember(d.year);
    if d.month < 12 {
      DaysBeforeMonthMonotone(d.year, d.month, 12);
    }
  }

  /** The ordinal numbers the days in calendar order: date comparison is ordinal comparison. */
  lemma OrdinalOrder(a: Date, b: Date)
    requires a.Valid() && b.Valid()
    ensures Before(a, b) <==> Ordinal(a) < Ordinal(b)
    ensures a == b <==> Ordinal(a) == Ordinal(b)
  {
    if a != b {
      var (x, y) := if Before(a, b) then (a, b) else (b, a);
      assert Before(x, y);
      if x.year < y.year {
        OrdinalWithinYear(x);
        OrdinalWithinYear(y);
        DaysBeforeYearMonotone(x.year, y.year);
      } else if x.month < y.month {
        DaysBeforeMonthMonotone(x.year, x.month, y.month);
      }
    }
  }

  // ---------------------------------------------------------------------------
  // ISO 8601 calendar dates, as `date.isoformat()` writes them.

  function PadLeft(s: string, n: nat): (r: string)
    ensures |r| == if |s| >= n then |s| else n
    decreases n - |s|
  {
    if |s| >= n then s else PadLeft(['0'] + s, n)
  }

  /** Padding puts zeros in front and keeps the text itself at the end. */
  lemma {:induction false} PadLeftShape(s: string, n: nat)
    ensures var r := PadLeft(s, n);
      (forall i :: 0 <= i < |r| - |s| ==> r[i] == '0') && r[|r| - |s|..] == s
    decreases n - |s|
  {
    if |s| < n {
      var t := ['0'] + s;
      PadLeftShape(t, n);
      var r := PadLeft(s, n);
      assert r[|r| - |t|..] == t;
      assert r[|r| - |s|..] == t[1..];
    }
  }

  /** `date.isoformat()`: `YYYY-MM-DD`. */
  function IsoFormat(d: Date): string
    requires d.Valid()
  {
    PadLeft(NatToString(d.year), 4) + "-" + PadLeft(NatToString(d.month), 2) + "-" + PadLeft(NatToString(d.day), 2)
  }

  predicate AllDigits(s: string) {
    forall i :: 0 <= i < |s| ==> IsDigit(s[i])
  }

  /** Reading back a `YYYY-MM-DD` text; anything else, or an invalid date, is None. */
  function ParseIso(s: string): (r: Option<Date>)
    ensures r.Some? ==> r.value.Valid()
  {
    if |s| == 10 && s[4] == '-' && s[7] == '-' && AllDigits(s[..4]) && AllDigits(s[5..7]) && AllDigits(s[8..]) then
      var d := Date(DigitsValue(s[..4]), DigitsValue(s[5..7]), DigitsValue(s[8..]));
      if d.Valid() then Some(d) else None
    else None
  }

  lemma {:induction false} NatToStringLength(n: nat, k: nat)
    requires n < Pow10(k) && k >= 1
    ensures |NatToString(n)| <= k
  {
    if n >= 10 {
      NatToStringLength(n / 10, k - 1);
    }
  }

  lemma {:induction false} LeadingZeros(s: string, n: nat)
    requires AllDigits(s)
    ensures AllDigits(PadLeft(s, n)) && DigitsValue(PadLeft(s, n)) == DigitsValue(s)
    decreases n - |s|
  {
    if |s| < n {
      ZeroPrefix(s);
      LeadingZeros(['0'] + s, n);
    }
  }

  lemma {:induction false} ZeroPrefix(s: string)
    requires AllDigits(s)
    ensures DigitsValue(['0'] + s) == DigitsValue(s)
  {
    if s != [] {
      var t := ['0'] + s;
      assert t[..|t| - 1] == ['0'] + s[..|s| - 1];
      ZeroPrefix(s[..|s| - 1]);
    }
  }

  lemma PaddedValue(n: nat, k: nat)
    requires 1 <= k && n < Pow10(k)
    ensures var s := PadLeft(NatToString(n), k);
      |s| == k && AllDigits(s) && DigitsValue(s) == n
  {
    NatToStringLength(n, k);
    LeadingZeros(NatToString(n), k);
    DigitsRoundTrip(n);
  }

  lemma IsoParts(y: string, m: string, dd: string)
    requires |y| == 4 && |m| == 2 && |dd| == 2
    ensures var s := y + "-" + m + "-" + dd;
      |s| == 10 && s[4] == '-' && s[7] == '-' && s[..4] == y && s[5..7] == m && s[8..] == dd
  {
  }

  lemma IsoRoundTrip(d: Date)
    requires d.Valid()
    ensures |IsoFormat(d)| == 10
    ensures ParseIso(IsoFormat(d)) == Some(d)
  {
    assert Pow10(2) == 100 && Pow10(4) == 10000;
    PaddedValue(d.year, 4);
    PaddedValue(d.month, 2);
    PaddedValue(d.day, 2);
    IsoParts(PadLeft(NatToString(d.year), 4), PadLeft(NatToString(d.month), 2), PadLeft(NatToString(d.day), 2));
  }

  // ---------------------------------------------------------------------------
  // get_months_range

  /** Months counted from January of year 0: the index of `d`'s month. */
  function MonthIndex(d: Date): int {
    d.year * 12 + d.month - 1
  }

  /** The 1st of the month with index `i`. */
  function MonthStart(i: int): (d: Date)
    ensures MonthIndex(d) == i && d.day == 1 && 1 <= d.month <= 12
  {
    Date(i / 12, i % 12 + 1, 1)
  }

  lemma MonthStartNotAfter(i: int, end: Date)
    requires end.Valid()
    ensures !Before(end, MonthStart(i)) <==> i <= MonthIndex(end)
  {
  }

  /** The rrule iteration: month starts from index `i` while they are not after `end`. */
  function MonthsFrom(i: int, end: Date): seq<Date>
    requires end.Valid()
    decreases MonthIndex(end) + 1 - i
  {
    MonthStartNotAfter(i, end);
    if Before(end, MonthStart(i)) then [] else [MonthStart(i)] + MonthsFrom(i + 1, end)
  }

  /** `get_months_range(start, end)`: the 1st of every month from `start`'s month on, while not after `end`. */
  function MonthsRange(start: Date, end: Date): seq<Date>
    requires end.Valid()
  {
    MonthsFrom(MonthIndex(start), end)
  }

  /** Element `k` of the iteration from `i` is the month `k` after `i`. */
  lemma {:induction false} MonthsFromAt(i: int, end: Date, k: nat)
    requires end.Valid() && k < |MonthsFrom(i, end)|
    ensures MonthsFrom(i, end)[k] == MonthStart(i + k)
    decreases k
  {
    if k > 0 {
      var rest := MonthsFrom(i + 1, end);
      assert MonthsFrom(i, end) == [MonthStart(i)] + rest;
      assert MonthsFrom(i, end)[k] == rest[k - 1];
      MonthsFromAt(i + 1, end, k - 1);
    }
  }

  /** The iteration from `i` yields one month per index from `i` up to `end`'s month. */
  lemma {:induction false} MonthsFromLength(i: int, end: Date)
    requires end.Valid()
    ensures |MonthsFrom(i, end)| == if i <= MonthIndex(end) then MonthIndex(end) - i + 1 else 0
    decreases MonthIndex(end) + 1 - i
  {
    MonthStartNotAfter(i, end);
    if i <= MonthIndex(end) {
      MonthsFromLength(i + 1, end);
    }
  }

  lemma MonthsFromShape(i: int, end: Date)
    requires end.Valid()
    ensures |MonthsFrom(i, end)| == if i <= MonthIndex(end) then MonthIndex(end) - i + 1 else 0
    ensures forall k :: 0 <= k < |MonthsFrom(i, end)| ==> MonthsFrom(i, end)[k] == MonthStart(i + k)
  {
    MonthsFromLength(i, end);
    forall k | 0 <= k < |MonthsFrom(i, end)| ensures MonthsFrom(i, end)[k] == MonthStart(i + k) {
      MonthsFromAt(i, end, k);
    }
  }

  /**
   * The months range holds the 1st of each consecutive month, starting with `start`'s month
   * and ending with the last month whose 1st is not after `end`.
   */
  lemma MonthsRangeShape(start: Date, end: Date)
    requires start.Valid() && end.Valid()
    ensures var r := MonthsRange(start, end);
      && |r| == (if MonthIndex(start) <= MonthIndex(end) then MonthIndex(end) - MonthIndex(start) + 1 else 0)
      && (forall k :: 0 <= k < |r| ==> r[k].Valid() && r[k].day == 1 && MonthIndex(r[k]) == MonthIndex(start) + k)
      && (forall k :: 0 <= k < |r| ==> !Before(end, r[k]))
      && (r != [] ==> r[0] == Date(start.year, start.month, 1))
      && Before(end, MonthStart(MonthIndex(start) + |r|))
  {
    var r := MonthsRange(start, end);
    var n := if MonthIndex(start) <= MonthIndex(end) then MonthIndex(end) - MonthIndex(start) + 1 else 0;
    MonthsRangeElements(start, end);
    forall k | 0 <= k < n
      ensures r[k].Valid() && r[k].day == 1 && MonthIndex(r[k]) == MonthIndex(start) + k && !Before(end, r[k])
    {
      MonthStartInRange(start, end, MonthIndex(start) + k);
    }
    MonthStartNotAfter(MonthIndex(start) + n, end);
  }

  lemma MonthsRangeElements(start: Date, end: Date)
    requires end.Valid()
    ensures var r := MonthsRange(start, end);
      && |r| == (if MonthIndex(start) <= MonthIndex(end) then MonthIndex(end) - MonthIndex(start) + 1 else 0)
      && forall k :: 0 <= k < |r| ==> r[k] == MonthStart(MonthIndex(start) + k)
  {
    MonthsFromShape(MonthIndex(start), end);
  }

  lemma MonthStartInRange(start: Date, end: Date, i: int)
    requires start.Valid() && end.Valid() && MonthIndex(start) <= i <= MonthIndex(end)
    ensures MonthStart(i).Valid() && !Before(end, MonthStart(i))
  {
    MonthStartNotAfter(i, end);
  }

  lemma MonthsRangeValid(start: Date, end: Date)
    requires start.Valid() && end.Valid()
    ensures forall d :: d in MonthsRange(start, end) ==> d.Valid() && d.day == 1
  {
    MonthsRangeShape(start, end);
  }

  /** The months from January 1st to December 1st of a year: its twelve month starts, in order. */
  lemma YearMonthStarts(y: int)
    requires 1 <= y <= 9999
    ensures |MonthsRange(Date(y, 1, 1), Date(y, 12, 1))| == 12
    ensures forall k :: 0 <= k < 12 ==> MonthsRange(Date(y, 1, 1), Date(y, 12, 1))[k] == Date(y, k + 1, 1)
  {
    var r := MonthsRange(Date(y, 1, 1), Date(y, 12, 1));
    MonthsFromShape(MonthIndex(Date(y, 1, 1)), Date(y, 12, 1));
    forall k | 0 <= k < 12 ensures r[k] == Date(y, k + 1, 1) {
      assert r[k] == MonthStart(y * 12 + k);
      assert (y * 12 + k) / 12 == y && (y * 12 + k) % 12 == k;
    }
  }

  lemma MonthsRangeDistinct(start: Date, end: Date, j: int, k: int)
    requires start.Valid() && end.Valid()
    requires 0 <= j < k < |MonthsRange(start, end)|
    ensures MonthsRange(start, end)[j] != MonthsRange(start, end)[k]
  {
    MonthsRangeShape(start, end);
  }

  // ---------------------------------------------------------------------------
  // get_month_workdays_count

  /** One month of the production calendar: extra days off and extra working days. */
  datatype MonthCalendar = MonthCalendar(holidays: set<int>, workdays: set<int>)

  /** The production calendar: the month descriptors of each configured year, January first. */
  type ProductionCalendar = map<int, seq<MonthCalendar>>

  /** Whether `production_calendar[d.year][d.month - 1]` succeeds (a missing year reads as []). */
  predicate HasMonth(cal: ProductionCalendar, d: Date) {
    d.year in cal && 1 <= d.month <= |cal[d.year]|
  }

  function MonthOf(cal: ProductionCalendar, d: Date): MonthCalendar
    requires HasMonth(cal, d)
  {
    cal[d.year][d.month - 1]
  }

  /** A listed working day, or Monday to Friday and not a listed holiday. */
  predicate IsWorkday(day: Date, mc: MonthCalendar)
    requires day.Valid()
  {
    day.day in mc.workdays || (Weekday(day) < 5 && day.day !in mc.holidays)
  }

  /** A day the count includes: within [start, end] and a working day. */
  predicate Counted(day: Date, start: Date, end: Date, mc: MonthCalendar)
    requires day.Valid()
  {
    !Before(day, start) && !Before(end, day) && IsWorkday(day, mc)
  }

  /** The number of counted days among days 1..n of month `m`. */
  function CountUpTo(m: Date, n: int, start: Date, end: Date, mc: MonthCalendar): (c: nat)
    requires m.Valid() && n <= DaysInMonth(m.year, m.month)
    ensures c <= if n < 0 then 0 else n
  {
    if n <= 0 then 0
    else CountUpTo(m, n - 1, start, end, mc) + (if Counted(Date(m.year, m.month, n), start, end, mc) then 1 else 0)
  }

  /** The workday count of month `m`. */
  function WorkdaysInMonth(m: Date, start: Date, end: Date, mc: MonthCalendar): nat
    requires m.Valid()
  {
    CountUpTo(m, DaysInMonth(m.year, m.month), start, end, mc)
  }

  /** The counted day numbers among 1..n, as a set: an independent definition of the count. */
  function CountedDays(m: Date, n: int, start: Date, end: Date, mc: MonthCalendar): set<int>
    requires m.Valid() && n <= DaysInMonth(m.year, m.month)
  {
    set dd | 1 <= dd <= n && Counted(Date(m.year, m.month, dd), start, end, mc)
  }

  lemma {:induction false} CountIsCardinality(m: Date, n: int, start: Date, end: Date, mc: MonthCalendar)
    requires m.Valid() && n <= DaysInMonth(m.year, m.month)
    ensures CountUpTo(m, n, start, end, mc) == |CountedDays(m, n, start, end, mc)|
  {
    if n <= 0 {
      assert CountedDays(m, n, start, end, mc) == {};
    } else {
      CountIsCardinality(m, n - 1, start, end, mc);
      var prev := CountedDays(m, n - 1, start, end, mc);
      if Counted(Date(m.year, m.month, n), start, end, mc) {
        assert CountedDays(m, n, start, end, mc) == prev + {n};
      } else {
        assert CountedDays(m, n, start, end, mc) == prev;
      }
    }
  }

  /** Days after `end` add nothing, so the day loop may stop at the first of them. */
  lemma {:induction false} NothingCountedAfterEnd(m: Date, k: int, n: int, start: Date, end: Date, mc: MonthCalendar)
    requires m.Valid() && 0 <= k <= n <= DaysInMonth(m.year, m.month)
    requires Before(end, Date(m.year, m.month, k + 1))
    ensures CountUpTo(m, n, start, end, mc) == CountUpTo(m, k, start, end, mc)
  {
    if n > k {
      NothingCountedAfterEnd(m, k, n - 1, start, end, mc);
    }
  }

  /**
   * The day loop of `get_month_workdays_count` for month `d`: skip days before `start`, stop at
   * the first day after `end`, and count the working days in between.
   */
  method CountMonthWorkdays(d: Date, start: Date, end: Date, mc: MonthCalendar) returns (workdays: nat)
    requires d.Valid() && d.day == 1
    ensures workdays == WorkdaysInMonth(d, start, end, mc)
    ensures workdays == |CountedDays(d, DaysInMonth(d.year, d.month), start, end, mc)|
  {
    workdays := 0;
    var last := DaysInMonth(d.year, d.month);
    var day := 1;
    while day <= last
      invariant 1 <= day <= last + 1
      invariant workdays == CountUpTo(d, day - 1, start, end, mc)
    {
      var current := Date(d.year, d.month, day);
      if Before(current, start) {
        day := day + 1;
        continue;
      }
      if Before(end, current) {
        NothingCountedAfterEnd(d, day - 1, last, start, end, mc);
        break;
      }
      if !IsWorkday(current, mc) {
        day := day + 1;
        continue;
      }
      workdays := workdays + 1;
      day := day + 1;
    }
    CountIsCardinality(d, last, start, end, mc);
  }

  /**
   * `get_month_workdays_count`: one entry per month of the months range, holding the number of
   * counted days of that month, or the lookup error of the first month the calendar lacks. The
   * calendar lookup the Python code performs on every day is made once per month: every month has a
   * first day, so the first lookup decides whether the month raises.
   */
  method MonthWorkdaysCount(start: Date, end: Date, cal: ProductionCalendar) returns (r: Result<map<Date, nat>>)
    requires start.Valid() && end.Valid()
    ensures var months := MonthsRange(start, end);
      r.Err? <==> exists k :: 0 <= k < |months| && !HasMonth(cal, months[k])
    ensures var months := MonthsRange(start, end);
      r.Err? ==> exists k :: (0 <= k < |months| && !HasMonth(cal, months[k])
        && (forall j :: 0 <= j < k ==> HasMonth(cal, months[j]))
        && r.error == MissingCalendarMonth(months[k].year, months[k].month))
    ensures r.Ok? ==> forall d :: d in r.value <==> d in MonthsRange(start, end)
    ensures r.Ok? ==> forall d :: d in r.value ==>
      d.Valid() && HasMonth(cal, d) && r.value[d] == WorkdaysInMonth(d, start, end, MonthOf(cal, d))
  {
    var months := MonthsRange(start, end);
    MonthsRangeValid(start, end);
    var result: map<Date, nat> := map[];
    var i := 0;
    while i < |months|
      invariant 0 <= i <= |months|
      invariant forall j :: 0 <= j < i ==> HasMonth(cal, months[j])
      invariant forall d :: d in result <==> d in months[..i]
      invariant forall d :: d in result ==>
        d.Valid() && HasMonth(cal, d) && result[d] == WorkdaysInMonth(d, start, end, MonthOf(cal, d))
    {
      var d := months[i];
      if !HasMonth(cal, d) {
        return Err(MissingCalendarMonth(d.year, d.month));
      }
      var workdays := CountMonthWorkdays(d, start, end, cal[d.year][d.month - 1]);
      result := result[d := workdays];
      assert months[..i + 1] == months[..i] + [d];
      i := i + 1;
    }
    assert months[..i] == months;
    return Ok(result);
  }
}
