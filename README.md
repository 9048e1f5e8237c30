# plan_b capacity-plan exporter, modelled in Dafny

plan_b builds a capacity plan for a software organisation. It reads a plan configuration with these parts:

- the teams and their members;
- the product releases, each with a Jira query;
- the data sources;
- a production calendar of holidays and extra workdays per month.

For each release it fetches the Jira epics, stories and bugs. It reads every issue's `#plan` comments as effort estimates per team. Then it writes an xlsx workbook with three kinds of sheet:

- one team-calendar sheet per team: a capacity table of member efficiencies per month, working time, one allocation row per release reference, a difference row and a summary;
- one sheet per release: a development table and a QA table of per-issue efforts, with totals per team;
- a `Meta` sheet that records where every allocation row was written.

When a previous workbook exists, its `Meta` sheet is loaded again. The allocations a planner typed into it are then re-applied to the new calendars.

This project models that core and proves what the code promises about it. Each Python file has a Dafny module:

- `text.dfy` (Text): the Python string built-ins the code relies on.
- `wrappers.dfy` (Wrappers): `Option`/`Result` and the exceptions the code raises.
- `dicts.dfy` (Dicts): insertion-ordered dictionaries.
- `teams.dfy` (Teams): `plan_b/team.py`, covering worker efficiency, team kinds and the attribution of a person to a team by surname.
- `issues.dfy` (Issues): `plan_b/issue.py`, covering confidence levels, effort parsing and the `#plan` comment parser.
- `dates.dfy` (Dates): `plan_b/date_utils.py`, covering the proleptic Gregorian calendar, the month enumeration and the workday count.
- `config.dfy` (Config): `plan_b/exporters/config.py` after YAML loading, covering the calendar mini-language, the team, release and source lists, and name resolution.
- `jira.dfy` (Jira): `plan_b/issue_data_sources/jira.py` after the client calls, covering plan comments, issue classification and bug counts.
- `plan.dfy` (Plan), `plan_issues.dfy` (PlanIssues): `plan_b/plan.py`.
- `layout.dfy` (Layout): `plan_b/exporters/xlsx/utils.py`.
  - Positions and regions, rendered in A1 notation.
  - A worksheet class whose cells, column widths and merged ranges the writers update.
  - `write_row`, `merge_cells` and `merge_dicts`.
- `release_cells.dfy` (ReleaseCells), `release.dfy` (Release): `plan_b/exporters/xlsx/release.py`.
- `team_calendar.dfy` (TeamCalendar), `team_calendar_facts.dfy` (TeamCalendarFacts): `plan_b/exporters/xlsx/team_calendar.py`.
- `metadata.dfy` (Metadata): `plan_b/exporters/xlsx/metadata.py`, with the save/load round trip.
- `export.dfy` (Export): `export_plan` of `plan_b/exporters/xlsx/__init__.py`.

Code that changes state is modelled as methods:

- The worksheet is a class.
- The row writer, the calendar builders, the metadata writer and loader, the workday count and the export sequence are methods with loops.
- Each method is proved against a specification function.
- The properties are proved about those functions as lemmas.

Where the code's behaviour differs from its documented intent, the model follows the code:

- A calendar year or month missing from the production calendar is an error. It is not treated as an ordinary month.
- `apply_plan_edits_to_team_calendar` and `export_plan` look up every team and item in the previous allocations. One that is missing is a `KeyError` (`TeamCalendar.ApplyPlanEdits`).
- A `#plan` clause with two `:` is a `ValueError`, from the unpacking at `plan_b/issue.py:162` (`Issues.KeyValuesFrom`).
- An unassigned epic, story or bug is an error (`plan_b/issue_data_sources/jira.py:142`, `:158`). A bug whose owner is not a dev team is a `KeyError`.
- QA references point at column `1 + k` (`plan_b/exporters/xlsx/release.py:462-470`).
- Dev-table references use the table's anchor row.
- Allocation regions start at the title column.
- The capacity totals' `SUM` column adds the offset twice. This is harmless at origin 0, where the code uses it.
- A team that no release hands a reference to is a `KeyError` at `total_cells_by_team[team]` (`plan_b/exporters/xlsx/__init__.py:50`), and the whole export fails (`Export.TeamExports`, the error `MissingReferences`). This happens, for example, in a plan with no releases, or one where no release has an issue owned by a dev team.

A note on indexing: `save_metadata` stores 0-based rows, and `load_metadata` reads row `item_row + 1` because openpyxl counts rows from 1. The model counts rows from 0 throughout, so that conversion is already part of its reading of a row.

## Model

| member | source | states |
|---|---|---|
| Text.TrimStart | plan_b/issue.py:144 | the result is a suffix of the input, does not start with whitespace, and only whitespace was dropped |
| Text.TrimEnd | plan_b/issue.py:144 | the result is a prefix of the input, does not end with whitespace, and only whitespace was dropped |
| Text.Strip | plan_b/issue.py:144 | the result has no whitespace at either end and is empty exactly when the input is all whitespace |
| Text.StripSlice | plan_b/issue.py:144 | `strip()` removes whitespace and nothing else: the result is a slice of the input with only whitespace before and after it |
| Text.Lower | plan_b/issue.py:162 | same length, each character lower-cased |
| Text.LowerIdempotent | plan_b/issue.py:162 | lower-casing twice equals lower-casing once |
| Text.Split | plan_b/issue.py:153 | pieces never contain the separator, joining them gives back the input, and there is one piece more than separators |
| Text.SplitOnce | plan_b/issue.py:162 | `a:b` with no separator in `a` or `b` splits into exactly `[a, b]` |
| Text.SplitAbsent | plan_b/issue.py:153 | a text without the separator splits into itself alone |
| Text.CountZero | plan_b/issue.py:162 | a character occurs zero times exactly when it is absent |
| Text.ReplaceChars | plan_b/issue.py:151 | same length; every character of the class becomes the replacement, the others stay |
| Text.RemoveAll | plan_b/issue.py:149 | removing occurrences never lengthens the text |
| Text.NotContainsChar | plan_b/issue.py:149 | a text without a character does not contain it as a one-character substring |
| Text.RemoveAllAbsent | plan_b/issue.py:149 | removing a pattern that does not occur leaves the text unchanged |
| Text.NatToString | plan_b/exporters/xlsx/metadata.py:44 | the decimal rendering of a natural number consists of digits only |
| Text.DigitsRoundTrip | plan_b/exporters/xlsx/metadata.py:44 | reading back the rendered digits of a natural number gives that number |
| Text.ParseInt | plan_b/exporters/config.py:76 | `int()` succeeds exactly when the stripped text is an optionally signed, non-empty run of digits, and then gives the digits' value, negated after a minus sign |
| Text.StripUnpadded | plan_b/exporters/config.py:76 | stripping a text with no surrounding whitespace leaves it unchanged |
| Text.ParseIntRoundTrip | plan_b/exporters/config.py:76 | `int(str(i)) == i` for every integer |
| Text.ParseDecimal | plan_b/issue.py:94 | a number is only read from a text that is not blank |
| Text.Truncate | plan_b/issue.py:96-100 | `int(x)` truncates toward zero: it is the whole number at most 1 away from `x` on the side of zero |
| Text.TruncateWhole | plan_b/issue.py:96-100 | truncating a whole number gives it back |
| Text.TruncateNear | plan_b/issue.py:96-100 | the truncation is strictly less than 1 away from the value |
| Dicts.Keys | plan_b/issue.py:166 | the keys of a dictionary, one per entry, in insertion order |
| Dicts.Find | plan_b/issue.py:162 | a found position holds the key; no position means the key is absent |
| Dicts.FindFirst | plan_b/issue.py:162 | no position before the found one holds the key |
| Dicts.Get | plan_b/exporters/xlsx/utils.py:105 | `d.get(k)` is present exactly when `k` is a key, and then it is that key's entry |
| Dicts.Put | plan_b/issue.py:162 | `d[k] = v` keeps the key order when `k` is present and appends `k` otherwise; `(k, v)` is an entry and every other entry was there before |
| Dicts.PutGet | plan_b/issue.py:162 | after `d[k] = v`, `k` reads `v` and every other key reads what it read before |
| Dicts.FindPrefix | plan_b/issue.py:162 | looking up a key depends only on the entries up to its first occurrence |
| Dicts.PutUnique | plan_b/issue.py:162 | assignment never lists a key twice |
| Teams.Efficiency | plan_b/team.py:16-35 | a plain worker's efficiency is its stored value; a to-be-hired worker fails without a start date, otherwise never exceeds 0.7 and is at least 0.4 from its start date on |
| Teams.TbhReachesMaximum | plan_b/team.py:28-35 | 200 or more days after its start a to-be-hired worker has the maximum efficiency 0.7 |
| Teams.MakeWorker | plan_b/team.py:38-42 | the ramp-up variant is built exactly when the name contains `TBH`; name and start date are kept |
| Teams.PlainWorkerEfficiencyConstant | plan_b/team.py:7-17 | a worker whose name lacks `TBH` has its construction efficiency on every date |
| Teams.DevAndQaExclusive | plan_b/team.py:51-77 | no team is both dev and QA; a base team is neither |
| Teams.DevTeams | plan_b/exporters/xlsx/release.py:169 | the dev teams are exactly the listed teams that are dev teams, never more of them, in list order (Teams.DevTeamsAppend) |
| Teams.DevTeamsAppend | plan_b/exporters/xlsx/release.py:169 | the comprehension keeps list order: the dev teams of two lists are those of the first, then those of the second |
| Teams.QaTeams | plan_b/exporters/xlsx/release.py:170 | the QA teams are exactly the listed teams that are QA teams, in list order (Teams.QaTeamsAppend) |
| Teams.QaTeamsAppend | plan_b/exporters/xlsx/release.py:170 | the comprehension keeps list order: the QA teams of two lists are those of the first, then those of the second |
| Teams.MakeTeam | plan_b/team.py:80-83 | a QA team exactly when the lower-cased name contains `qa`, a dev team otherwise; name and members kept |
| Teams.AnyMemberMatches | plan_b/team.py:88-94 | true exactly when some member matches by surname or by surname inside the given name |
| Teams.MatchTeamByWorkerName | plan_b/team.py:86-94 | None exactly when no team has a matching member; otherwise a listed team with a matching member |
| Teams.FirstMatchingTeam | plan_b/team.py:87-91 | the index of the first team with a matching member: none before it matches |
| Teams.MatchTeamIsFirst | plan_b/team.py:86-94 | the returned team is the first team in list order with a matching member |
| Teams.SurnameOfDotted | plan_b/team.py:89-90 | the surname of `first.last` is `last` lower-cased |
| Teams.SampleAttribution | tests/cli/test_estimation_parsing.py:7-10 | with the test teams, `Vasily.Ivanov` is attributed to team `a` |
| Teams.LowerIvanov | plan_b/team.py:88 | `Ivanov` lower-cases to `ivanov` |
| Teams.SurnameIvanov | plan_b/team.py:88-89 | `V.Ivanov` and `Vasily.Ivanov` have the same surname `ivanov`, so both match the same worker |
| Issues.ConfidenceLevel.Value | plan_b/issue.py:9-12 | the level's multiplier lies between 1 (High) and 2 (Low) |
| Issues.ParseConfidenceLevel | plan_b/issue.py:79-87 | a level is returned exactly when the text is one of its aliases (`hi`/`high`, `med`/`medium`, `low`/`lo`); anything else is the invalid-level error naming the text |
| Issues.ParseEstimation | plan_b/issue.py:90-100 | an empty value and a value not ending in `h`, `d` or `w` are errors; otherwise it succeeds exactly when the rest reads as a number, and then gives that amount of the unit in whole seconds |
| Issues.SecondsNear | plan_b/issue.py:95-100 | the seconds are the amount times the unit's seconds, less than one second off |
| Issues.WholeSeconds | plan_b/issue.py:95-100 | a whole amount gives exactly that many units' seconds |
| Issues.DigitsParseAsDecimal | plan_b/issue.py:94 | a run of digits reads as the number it spells |
| Issues.ParseWholeEstimation | plan_b/issue.py:90-100 | `<n>h`, `<n>d` and `<n>w` parse to `n` hours, days (8 hours) or weeks (5 days) in seconds |
| Issues.WeeksRoundTrip | plan_b/issue.py:75-76 | `n` weeks written as `<n>w` come back as `n` man-weeks |
| Issues.DecimalParts | plan_b/issue.py:94 | `<whole>.<frac>` reads as the whole part plus the fraction's digits over their power of ten |
| Issues.UnsignedDecimalParts | plan_b/issue.py:94 | the same without a sign |
| Issues.DigitsHaveNoDot | plan_b/issue.py:94 | digits contain no decimal point |
| Issues.ParseFractionalEstimation | plan_b/issue.py:90-100 | an amount with a fractional part and a unit parses to that amount's seconds, truncated |
| Issues.HalfWeek | tests/cli/test_estimation_parsing.py:36 | `0.5w` parses to 72000 seconds, as the parsing test expects |
| Issues.HalfAmount | tests/cli/test_estimation_parsing.py:36 | `0.5` reads as one half |
| Issues.HalfWeekSeconds | tests/cli/test_estimation_parsing.py:45 | half a week is 72000 seconds |
| Issues.Get | plan_b/issue.py:112 | a field that is set holds a value of the field's kind |
| Issues.Assign | plan_b/issue.py:114 | `setattr` sets the one field and keeps every other |
| Issues.ParseFieldValue | plan_b/issue.py:168-174 | a parsed value has the kind of its field |
| Issues.SetProperty | plan_b/issue.py:103-116 | a key not naming the field changes nothing and answers false; a field already set is the already-specified error; otherwise the field is set from the parsed value, or the parse error is returned |
| Issues.FieldOf | plan_b/issue.py:119-126 | the field found is one whose tokens include the key; none means no field lists it |
| Issues.TokensDisjoint | plan_b/issue.py:119-126 | no key names two fields, and `team` names none |
| Issues.SetChainTail | plan_b/issue.py:167-175 | when none of the fields is named, the `or` chain changes nothing |
| Issues.SetChainIsSetField | plan_b/issue.py:167-175 | the seven-call chain is exactly "set the field the key names" |
| Issues.SetChainPrefix | plan_b/issue.py:167-175 | the chain skips fields the key does not name and stops at the one it names |
| Issues.Lookup | plan_b/issue.py:162 | a key is found exactly when some entry has it |
| Issues.Put | plan_b/issue.py:162 | assignment keeps keys unique, makes the key read `v`, leaves other keys alone, and grows the dict only for a new key |
| Issues.LookupUnique | plan_b/issue.py:162 | a key that is not found is on no entry |
| Issues.Clauses | plan_b/issue.py:149-153 | every clause is stripped |
| Issues.NonEmptyStripped | plan_b/issue.py:153 | every kept piece is stripped |
| Issues.KeptClauses | plan_b/issue.py:155-160 | the filter never adds clauses |
| Issues.KeptClausesExactly | plan_b/issue.py:155-160 | a clause is kept exactly when it is one of the clauses and starts with a recognised token |
| Issues.KeyValuesFrom | plan_b/issue.py:162 | the dict comprehension produces unique keys |
| Issues.KeyValues | plan_b/issue.py:162 | the `kv` dict has unique keys |
| Issues.KeyValuesLastWins | plan_b/issue.py:162 | the dict holds, for every key, the value of the last clause with that key |
| Issues.LastTeamContaining | plan_b/issue.py:178-181 | unchanged when no team name contains the value; otherwise the last team name that contains it |
| Issues.TeamNames | plan_b/issue.py:179 | the names of the teams, in order |
| Issues.ClauseErrorStops | plan_b/issue.py:166-181 | a failing clause ends the loop with that clause's error |
| Issues.ParseWorkEstimateText | plan_b/issue.py:139-189 | the parser's loops compute exactly `ParseWorkEstimate`, the estimate and team the lemmas below characterise |
| Issues.ApplyKeyValues | plan_b/issue.py:164-181 | the loop over `kv` computes exactly the clause fold |
| Issues.FilterClauses | plan_b/issue.py:155-160 | the token filter loop keeps exactly the kept clauses |
| Issues.StartsWithSome | plan_b/issue.py:157-160 | the scan answers true exactly when the clause starts with some token |
| Issues.KeptClausesStep | plan_b/issue.py:156-160 | one more clause adds itself exactly when it starts with a token |
| Issues.ApplyClauseStep | plan_b/issue.py:167-181 | one loop step is exactly one clause's effect |
| Issues.NoMarkerNoEstimate | plan_b/issue.py:144-147 | text that does not begin with `#plan` once stripped has no estimate and no team |
| Issues.SpacedMarker | tests/cli/test_estimation_parsing.py:24-26 | ` # plan ` has no estimate and no team |
| Issues.SpaceBreaksMarker | plan_b/issue.py:146 | `# ...` does not start with `#plan` |
| Issues.BareMarker | tests/cli/test_estimation_parsing.py:15-22 | a bare `#plan` in any surrounding whitespace gives an empty estimate and the author's team |
| Issues.FieldsSetOnce | plan_b/issue.py:112-113 | when parsing succeeds, no two clauses name the same field, and a field is set exactly when a clause names it |
| Issues.FieldsFromClauses | plan_b/issue.py:166-175 | when parsing succeeds, every field is named once at most and holds its clause's parsed value |
| Issues.OnceStep | plan_b/issue.py:166-175 | one more successful clause keeps fields named at most once |
| Issues.SetStep | plan_b/issue.py:166-175 | one more successful clause keeps "set exactly when named" |
| Issues.ValuesStep | plan_b/issue.py:166-175 | one more successful clause keeps every named field's value |
| Issues.SetFieldEffect | plan_b/issue.py:103-116 | a successful clause for no field changes nothing; for a field that was unset it sets the parsed value and keeps the other fields |
| Issues.RepeatedKeyLastWins | plan_b/issue.py:162 | repeating the very same key is no error: the dict keeps the later value |
| Issues.TeamFromClause | plan_b/issue.py:178-187 | with a `team` clause, the team is the last name containing its value; the author decides only when no clause selected a team |
| Issues.TeamUnchangedWithoutKey | plan_b/issue.py:178-181 | without a `team` clause no team is selected by the clause loop |
| Issues.Exhausted | plan_b/issue.py:59-67 | the confidence levels are kept and every effort is 0 |
| Issues.RemainingEstimates | plan_b/issue.py:57-69 | same teams; for a closed issue zero effort and the original levels; otherwise the original estimates |
| Issues.MakeIssue | plan_b/issue.py:36-69 | the issue keeps its key, summary, link, status, owner and estimates, and its remaining estimates are those of its status |
| Dates.DaysInMonth | plan_b/date_utils.py:23 | `monthrange`'s last day: between 28 and 31 |
| Dates.Weekday | plan_b/date_utils.py:38 | `weekday()`: Monday 0 to Sunday 6 |
| Dates.DaysBeforeNextYear | plan_b/date_utils.py:23-25 | the proleptic Gregorian day count grows by the year's length each year |
| Dates.DaysBeforeYearMonotone | plan_b/date_utils.py:24-35 | a later year starts after the whole earlier year |
| Dates.DaysBeforeDecember | plan_b/date_utils.py:23 | December's 31 days close the year |
| Dates.DaysBeforeMonthMonotone | plan_b/date_utils.py:24-35 | a later month starts after the whole earlier month |
| Dates.OrdinalWithinYear | plan_b/date_utils.py:29-35 | a valid date's day number lies inside its year |
| Dates.OrdinalOrder | plan_b/date_utils.py:29-35 | date comparison `<` is day-number order, and dates are equal exactly when their day numbers are |
| Dates.PadLeft | plan_b/exporters/xlsx/metadata.py:44 | zero padding to a width: the longer of the text and the width |
| Dates.PadLeftShape | plan_b/exporters/xlsx/metadata.py:44 | the padding is zeros followed by the text itself |
| Dates.ParseIso | plan_b/exporters/xlsx/metadata.py:88-89 | only a valid calendar date is ever parsed |
| Dates.NatToStringLength | plan_b/exporters/xlsx/metadata.py:44 | a number below 10^k has at most k digits |
| Dates.LeadingZeros | plan_b/exporters/xlsx/metadata.py:44 | leading zeros keep a digit string's value |
| Dates.ZeroPrefix | plan_b/exporters/xlsx/metadata.py:44 | one leading zero keeps the value |
| Dates.PaddedValue | plan_b/exporters/xlsx/metadata.py:44 | a padded number has exactly the width and still reads as the number |
| Dates.IsoParts | plan_b/exporters/xlsx/metadata.py:44 | `YYYY-MM-DD` is ten characters with dashes at 4 and 7 |
| Dates.IsoRoundTrip | plan_b/exporters/xlsx/metadata.py:88-89 | the `isoformat()` text written at `plan_b/exporters/xlsx/metadata.py:44` is ten characters long and parses back to the same date |
| Dates.MonthStart | plan_b/date_utils.py:10-12 | the first day of the month with a given month number |
| Dates.MonthStartNotAfter | plan_b/date_utils.py:11 | a month start is within `until` exactly when its month is not after the end's |
| Dates.MonthsFromAt | plan_b/date_utils.py:8-15 | the k-th month yielded is the k-th month start after the first |
| Dates.MonthsFromLength | plan_b/date_utils.py:8-15 | as many months as from the first to the end's month, none when the first is later |
| Dates.MonthsFromShape | plan_b/date_utils.py:8-15 | both of the above at once |
| Dates.MonthsRangeShape | plan_b/date_utils.py:7-15 | `get_months_range` yields the first days of every month from the start's month to the end's, all valid, none after the end, starting at the start's month, and the next month start is after the end |
| Dates.MonthsRangeElements | plan_b/date_utils.py:7-15 | the k-th yielded date is the start's month plus k |
| Dates.MonthStartInRange | plan_b/date_utils.py:8-15 | every month start between the two months is valid and not after the end |
| Dates.MonthsRangeValid | plan_b/date_utils.py:7-15 | every yielded date is a valid first of a month |
| Dates.YearMonthStarts | plan_b/date_utils.py:7-15 | January 1 to December 1 yields the twelve firsts of the year |
| Dates.MonthsRangeDistinct | plan_b/date_utils.py:7-15 | no month is yielded twice |
| Dates.CountUpTo | plan_b/date_utils.py:24-43 | counting the first n days counts at most n |
| Dates.CountIsCardinality | plan_b/date_utils.py:24-43 | the day count is the number of days up to n that are within the period and are workdays |
| Dates.NothingCountedAfterEnd | plan_b/date_utils.py:33-35 | days after the end add nothing, as the `break` stops the loop |
| Dates.CountMonthWorkdays | plan_b/date_utils.py:21-45 | the day loop counts exactly the month's days within the period that are workdays: not Saturday or Sunday and not a holiday, unless listed as a workday |
| Dates.MonthWorkdaysCount | plan_b/date_utils.py:18-47 | fails exactly when some month of the range has no calendar, reporting the first such month; otherwise maps exactly the months of the range, each to its workday count |
| Config.MonthItems | plan_b/exporters/config.py:68-69 | a month description always yields at least one item |
| Config.DayRange | plan_b/exporters/config.py:76 | a day is visited exactly when it lies between both ends, inclusive |
| Config.IntervalDays | plan_b/exporters/config.py:72-77 | an item without exactly one `-` is the invalid-interval error; otherwise it succeeds exactly when both ends read as integers, giving every day between them |
| Config.ApplyItem | plan_b/exporters/config.py:71-83 | a malformed interval is an error; an empty item changes nothing; a plain number adds that holiday; a success only adds days |
| Config.MonthDescriptors | plan_b/exporters/config.py:65-69 | twelve descriptors, the k-th describing month k + 1 |
| Config.YearFrom | plan_b/exporters/config.py:65-85 | a finished year has twelve months and keeps those already gathered |
| Config.YearCalendar | plan_b/exporters/config.py:64-86 | a year's calendar has twelve months |
| Config.CalendarFrom | plan_b/exporters/config.py:63-86 | the built calendar has the years gathered so far and every configured year |
| Config.ProductionCalendarOf | plan_b/exporters/config.py:55-87 | the calendar has exactly the configured years |
| Config.CalendarYearsHaveTwelveMonths | plan_b/exporters/config.py:65-86 | every year of a built calendar has exactly twelve months |
| Config.YearFromMonths | plan_b/exporters/config.py:65-85 | the k-th month of a built year is the k-th descriptor |
| Config.YearCalendarMonths | plan_b/exporters/config.py:64-86 | every month of a built year is the one its configuration describes, January first |
| Config.MakeProductionCalendar | plan_b/exporters/config.py:55-87 | the three nested loops compute exactly `ProductionCalendarOf` |
| Config.ParseMonthDescription | plan_b/exporters/config.py:66-85 | the item loop of one month applies every item, from an empty month |
| Config.ApplyItemStep | plan_b/exporters/config.py:72-83 | one loop step is exactly one item's effect |
| Config.AddDays | plan_b/exporters/config.py:76-77 | the range loop adds exactly the days from `lo` to `hi` |
| Config.SeparatorsActAsComma | plan_b/exporters/config.py:19 | a space, a tab or `;` separates items exactly as `,` does |
| Config.DigitsHaveNoSign | plan_b/exporters/config.py:72 | a rendered natural number contains no non-digit |
| Config.IntervalOfNumbers | plan_b/exporters/config.py:72-77 | `a-b` gives exactly the days `a..b` |
| Config.IntervalItem | plan_b/exporters/config.py:71-83 | `a-b` makes every day from a to b a holiday and changes nothing else |
| Config.IntervalStepOf | plan_b/exporters/config.py:72-77 | the interval test of `a-b` adds `a..b` |
| Config.IntervalNotNumber | plan_b/exporters/config.py:79-80 | `a-b` is not a plain number |
| Config.IntervalNotWorkday | plan_b/exporters/config.py:82-83 | `a-b` is not an `x` item |
| Config.WorkdayItem | plan_b/exporters/config.py:82-83 | `xN` makes day N an extra working day and changes nothing else |
| Config.MissingMonthIsEmpty | plan_b/exporters/config.py:68 | a month missing from the configuration has no holidays and no extra working days |
| Config.ItemEffect | plan_b/exporters/config.py:71-83 | after one item a day is a holiday (working day) exactly when it was one or the item denotes it |
| Config.ItemsEffect | plan_b/exporters/config.py:71-83 | after the item loop a day is a holiday exactly when it was one or some item denotes it, and an extra working day exactly when some `x` item names it |
| Config.TeamsOfConfig | plan_b/exporters/config.py:25-34 | the teams keep their order and names, are QA teams exactly when the name contains `qa`, and keep their members' order and names, to-be-hired exactly when the name contains `TBH` |
| Config.ReadTeams | plan_b/exporters/config.py:25-34 | the two loops compute exactly `TeamsOf` |
| Config.ReleasesOf | plan_b/exporters/config.py:37-42 | one release per entry, in order, with its name and query and no issues |
| Config.ReadReleases | plan_b/exporters/config.py:37-42 | the loop computes exactly `ReleasesOf` |
| Config.DataSourcesOf | plan_b/exporters/config.py:45-52 | succeeds exactly when every source is of type `jira`, giving one source per entry with its name and URL; otherwise reports a non-Jira type |
| Config.ReadDataSources | plan_b/exporters/config.py:45-52 | the loop computes exactly `DataSourcesOf` |
| Config.Positions | plan_b/exporters/config.py:127 | exactly the indices of the definitions with that name, in increasing order |
| Config.SinglePosition | plan_b/exporters/config.py:128-130 | a name matched by one definition names that one and no other |
| Config.ResolveFrom | plan_b/exporters/config.py:126-137 | a success has one definition per wanted name |
| Config.ResolveSucceeds | plan_b/exporters/config.py:126-137 | resolution succeeds exactly when every wanted name matches exactly one definition |
| Config.ResolveValues | plan_b/exporters/config.py:126-137 | the i-th resolved definition is the one definition named by the i-th wanted name |
| Config.FirstUnresolved | plan_b/exporters/config.py:128-129 | every name before it matches once; the one at it, if any, does not |
| Config.ResolveError | plan_b/exporters/config.py:128-129 | a failure reports the first name not matching exactly one definition, with its match count |
| Config.ResolveNames | plan_b/exporters/config.py:125-130 | the resolving loop computes exactly `ResolveFrom` |
| Config.ReleaseNames | plan_b/exporters/config.py:134 | the release names, in order |
| Config.SourceNames | plan_b/exporters/config.py:140 | the data source names, in order |
| Config.MakeCapacityPlan | plan_b/exporters/config.py:118-152 | the method computes exactly `PlanOf` |
| Config.PlanSucceeds | plan_b/exporters/config.py:118-152 | a plan is built exactly when every selected name matches one definition, every data source is Jira, the selected source matches once and the calendar is well-formed |
| Config.PlanSelects | plan_b/exporters/config.py:118-152 | a built plan has the selected teams and releases in the plan's order, the selected data source and a calendar for every configured year |
| Jira.IssueUrlParts | plan_b/issue_data_sources/jira.py:52-56 | an issue link is the server, then `/browse/`, then the key; `https://jira.domain` stands in for a missing server |
| Jira.Record | plan_b/issue_data_sources/jira.py:94-99 | after one comment a team's entry is the comment's estimate when the comment carries one for that team, and unchanged otherwise |
| Jira.PlanEstimatesLastWins | plan_b/issue_data_sources/jira.py:91-101 | each team's entry holds the estimate of the last plan comment attributed to it; a team with no such comment keeps what it had |
| Jira.SkipsNonPlanComment | plan_b/issue_data_sources/jira.py:95-96 | a comment that is not a plan comment changes nothing |
| Jira.FindAndParsePlanComment | plan_b/issue_data_sources/jira.py:91-101 | the comment loop computes exactly `PlanEstimates` |
| Jira.Filter | plan_b/issue_data_sources/jira.py:118-125 | the result is no longer than the input and holds exactly the accepted elements |
| Jira.FilterConcat | plan_b/issue_data_sources/jira.py:118-125 | filtering keeps order: it distributes over concatenation |
| Jira.FilterSnoc | plan_b/issue_data_sources/jira.py:118-125 | filtering one more element appends it exactly when it is accepted |
| Jira.EpicKeys | plan_b/issue_data_sources/jira.py:120-121 | exactly the keys of the issues of type `Epic` |
| Jira.EpicKeysSnoc | plan_b/issue_data_sources/jira.py:120-121 | one more issue adds its key exactly when it is an epic |
| Jira.Classification | plan_b/issue_data_sources/jira.py:120-125 | epics and stories become work items, `Bug` and `Bug US` known bugs, no issue is both, every other type is dropped |
| Jira.ClassifyIssues | plan_b/issue_data_sources/jira.py:112-125 | the search loop collects exactly the epic keys, the work items and the known bugs |
| Jira.ClassifyIssue | plan_b/issue_data_sources/jira.py:119-125 | one issue extends the three collections exactly as the whole-list definitions say |
| Jira.SkipLinkedStories | plan_b/issue_data_sources/jira.py:127-134 | the loop keeps exactly the work items that are not stories linked to a found epic |
| Jira.WorkItemIssue | plan_b/issue_data_sources/jira.py:138-154 | a built issue keeps the key, has the issue link, needs an assignee, is owned by the assignee's team and holds the plan comments' estimates |
| Jira.Traverse | plan_b/issue_data_sources/jira.py:138-154 | a success holds one result per element after those already made |
| Jira.TraverseInOrder | plan_b/issue_data_sources/jira.py:138-154 | a success keeps what was made before and then holds each element's result, in order |
| Jira.TraverseFails | plan_b/issue_data_sources/jira.py:138-154 | the loop fails exactly when some element fails, with the error of some failing element |
| Jira.MakeWorkItemIssue | plan_b/issue_data_sources/jira.py:139-154 | one step computes exactly `WorkItemIssue` |
| Jira.ShapeWorkItems | plan_b/issue_data_sources/jira.py:136-154 | the loop computes exactly `WorkItemIssues` |
| Jira.InitialBugCounts | plan_b/issue_data_sources/jira.py:156 | one zero count per dev team and no other key |
| Jira.CountOwned | plan_b/issue_data_sources/jira.py:159 | succeeds exactly when the owner has a count, and then adds one to it alone |
| Jira.CountBug | plan_b/issue_data_sources/jira.py:157-159 | succeeds exactly when the bug's owner team has a count; an unassigned bug is the no-assignee error |
| Jira.CountBugsFrom | plan_b/issue_data_sources/jira.py:157-159 | counting keeps the set of counted teams |
| Jira.CountBugsSucceeds | plan_b/issue_data_sources/jira.py:157-159 | counting succeeds exactly when every bug is assigned to a member of a counted team |
| Jira.CountBugsExactly | plan_b/issue_data_sources/jira.py:157-159 | each team's count grows by exactly the number of bugs attributed to it |
| Jira.CountBugStep | plan_b/issue_data_sources/jira.py:158-159 | one loop step computes exactly `CountBug` |
| Jira.CountKnownBugs | plan_b/issue_data_sources/jira.py:156-159 | the bug loop computes exactly the count from zero for every dev team |
| Jira.ExportIssues | plan_b/issue_data_sources/jira.py:103-161 | the method computes exactly `ExportIssuesOf` |
| Jira.ExportShape | plan_b/issue_data_sources/jira.py:103-161 | a successful export holds one issue per kept work item in query order, and for every dev team, and no other, the number of known bugs attributed to it |
| Layout.RelPosCompose | plan_b/exporters/xlsx/utils.py:18-21 | relative positions compose by adding offsets, only the outermost sheet name survives, and a zero offset on the base's own sheet is the base |
| Layout.PosBelow | plan_b/exporters/xlsx/utils.py:31-32 | the position below a region is its offset moved down by its height, on no sheet |
| Layout.PosBelowIgnoresWidth | plan_b/exporters/xlsx/utils.py:31-32 | that position depends on the offset and height only: same column, `rows` rows lower |
| Layout.ColumnName | plan_b/exporters/xlsx/utils.py:12 | column letters are a non-empty run of capital letters |
| Layout.ColumnRoundTrip | plan_b/exporters/xlsx/utils.py:12 | reading the letters of a column back gives the column |
| Layout.LetterRun | plan_b/exporters/xlsx/utils.py:12 | the leading run of letters is no longer than the text |
| Layout.LetterRunOfLettersThenDigits | plan_b/exporters/xlsx/utils.py:12 | in letters followed by digits the letter run is exactly the letters |
| Layout.LetterRunPrefix | plan_b/exporters/xlsx/utils.py:12 | the leading run is all letters |
| Layout.A1RoundTrip | plan_b/exporters/xlsx/utils.py:12 | every A1 reference reads back as the row and column it was made from |
| Layout.A1Injective | plan_b/exporters/xlsx/utils.py:12 | distinct cells have distinct A1 references |
| Layout.IndexOf | plan_b/exporters/xlsx/utils.py:14 | a found index holds the character |
| Layout.IndexOfAfter | plan_b/exporters/xlsx/utils.py:14 | in `s + c + rest` with `c` not in `s`, the first `c` is at `|s|` |
| Layout.ToCellRoundTrip | plan_b/exporters/xlsx/utils.py:11-15 | `to_cell` reads back as the position it was made from, with the quoted sheet name when one is set and none when it is empty |
| Layout.ReadBackStored | plan_b/exporters/xlsx/team_calendar.py:216 | writing back what was read from a written cell stores the same content again |
| Layout.Sheet.constructor | plan_b/exporters/xlsx/__init__.py:28 | a new worksheet has its name and no cells, widths or merges |
| Layout.Sheet.Write | plan_b/exporters/xlsx/utils.py:83 | `write` sets exactly the one cell to the stored value and format |
| Layout.Sheet.WriteFormula | plan_b/exporters/xlsx/utils.py:78 | `write_formula` sets exactly the one cell to the formula |
| Layout.Sheet.WriteUrl | plan_b/exporters/xlsx/utils.py:68-69 | `write_url` sets exactly the one cell to the link and caption |
| Layout.Sheet.SetColumn | plan_b/exporters/xlsx/utils.py:89 | `set_column` records one width and changes no cell |
| Layout.Sheet.MergeRange | plan_b/exporters/xlsx/utils.py:95 | `merge_range` records one merge and changes no cell |
| Layout.MergeCells | plan_b/exporters/xlsx/utils.py:94-98 | returns the start row and column, records the merge, sets the start column's width only when one is given |
| Layout.WrittenAt | plan_b/exporters/xlsx/utils.py:62-84 | writing a row sets exactly the cells of its span, to the row's i-th element, and keeps every other cell |
| Layout.WrittenExtend | plan_b/exporters/xlsx/utils.py:62-84 | writing one more element of a row extends the written cells by that one cell |
| Layout.RowCells | plan_b/exporters/xlsx/utils.py:62-76 | one cell per element, the i-th from element i at column `column + i` |
| Layout.Indices | plan_b/exporters/xlsx/utils.py:58 | `range(0, col_count)`: exactly the indices `0 .. count-1` |
| Layout.RowWriteEffect | plan_b/exporters/xlsx/utils.py:35-91 | the i-th element lands at `(row, column + i)` and no other cell is touched |
| Layout.CountedRowCells | plan_b/exporters/xlsx/utils.py:56-58 | with no elements, column i holds `cell_func(column + i, i)` |
| Layout.WriteRow | plan_b/exporters/xlsx/utils.py:35-91 | fails when there is neither an element nor a count and then changes nothing; otherwise returns the number of cells written, writes exactly the row's cells, and sets one width only when one is given |
| Layout.WrittenRowsAt | plan_b/exporters/xlsx/utils.py:35-91 | a cell holds what the last row write covering it put there |
| Layout.WrittenRowsOutside | plan_b/exporters/xlsx/utils.py:35-91 | a cell no row write covers keeps its old value, and no cell appears outside the rows |
| Layout.WrittenRowsLast | plan_b/exporters/xlsx/utils.py:35-91 | a cell whose row later writes avoid keeps the value the earlier write gave it |
| Layout.WrittenRowsAppend | plan_b/exporters/xlsx/utils.py:35-91 | writing two batches of rows equals writing them one after the other |
| Layout.WrittenRowsStep | plan_b/exporters/xlsx/utils.py:35-91 | writing `k + 1` rows is writing `k` rows and then row `k` |
| Layout.WrittenRowsThree | plan_b/exporters/xlsx/utils.py:35-91 | three batches in a row equal their concatenation |
| Layout.WrittenRowsNested | plan_b/exporters/xlsx/utils.py:35-91 | three batches in a row equal the first followed by the other two together |
| Layout.DecidesAt | plan_b/exporters/xlsx/utils.py:35-91 | a write that covers a cell, when later writes avoid its row, decides that cell |
| Layout.ShowsAt | plan_b/exporters/xlsx/utils.py:35-91 | the deciding write gives a cell its final value |
| Layout.ShowsFirst | plan_b/exporters/xlsx/utils.py:35-91 | a write of the first of three batches decides a cell when the other two avoid its row |
| Layout.ShowsMiddle | plan_b/exporters/xlsx/utils.py:35-91 | a write of the second of three batches decides a cell when the third avoids its row |
| Layout.ShowsEnd | plan_b/exporters/xlsx/utils.py:35-91 | a deciding write of the last batch gives the cell its final value |
| Layout.ShowsSecond | plan_b/exporters/xlsx/utils.py:35-91 | a deciding write of the second of two batches gives the cell its final value |
| Layout.PutRow | plan_b/exporters/xlsx/utils.py:35-91 | a `write_row` of listed elements adds exactly that row write to the cells, and at most one width |
| Layout.PutCell | plan_b/exporters/xlsx/utils.py:83 | a single `write` is the row write of one cell |
| Layout.WrittenRowsSingle | plan_b/exporters/xlsx/utils.py:35-91 | one row write is the write of its cells |
| Layout.PutLabelled | plan_b/exporters/xlsx/team_calendar.py:14-46 | a label cell and then a row: the two row writes, in order |
| Layout.WriteElement | plan_b/exporters/xlsx/utils.py:64-84 | one loop step of `write_row` sets exactly the one cell for its element |
| Layout.Merged | plan_b/exporters/xlsx/utils.py:101-114 | the merged dictionary has every key of either input |
| Layout.AsEntries | plan_b/exporters/xlsx/__init__.py:36-39 | a merged dictionary fed back as the first argument keeps its keys |
| Layout.MergedItems | plan_b/exporters/xlsx/utils.py:103-112 | each merged list is d1's items (a single item wrapped) followed by d2's |
| Layout.MergedLeftAt | plan_b/exporters/xlsx/__init__.py:34-39 | merging `a` with `b` and then `c` lists a key's items of `a`, `b`, `c` in order |
| Layout.MergedRightAt | plan_b/exporters/xlsx/utils.py:101-114 | merging `a` with the merge of `b` and `c` lists the same items in the same order |
| Layout.MergeAssociative | plan_b/exporters/xlsx/__init__.py:34-39 | accumulating with `merge_dicts` is associative |
| Layout.MergedValuesAgree | plan_b/exporters/xlsx/utils.py:101-114 | both groupings have the same keys and the same lists |
| Layout.Values | plan_b/exporters/xlsx/utils.py:104 | every key's items as a list, same keys |
| Layout.MergedValues | plan_b/exporters/xlsx/utils.py:104 | listing a dictionary's items before merging it changes nothing |
| Layout.ItemsOfAbsent | plan_b/exporters/xlsx/__init__.py:34-39 | a key no part has gathers no items |
| Layout.MergedAllKeys | plan_b/exporters/xlsx/__init__.py:34-39 | the accumulated dictionary has a key exactly when some release's dictionary has it |
| Layout.MergedAllItems | plan_b/exporters/xlsx/__init__.py:34-39 | for a key it has, the accumulated dictionary holds that key's items of every release, in release order |
| Layout.MergeDicts | plan_b/exporters/xlsx/utils.py:101-114 | the two loops of `merge_dicts` compute exactly the merged dictionary |
| ReleaseCells.ConfidenceColours | plan_b/exporters/xlsx/release.py:18-32 | level 1 is coloured high, 1.5 medium, 2 low, 0 not at all, and a higher level never gets a more confident colour |
| ReleaseCells.MaxLevel | plan_b/exporters/xlsx/release.py:44-58 | the largest level any team's estimate sets, or 2 when none sets one: no set level exceeds it, and when some team sets a level the result is one of the set levels (1 when all are High, 1.5 when the largest is Medium) |
| ReleaseCells.SumChoice | plan_b/exporters/xlsx/release.py:62-64 | a non-empty sum splits into one entry plus the sum of the rest |
| ReleaseCells.SumRemove | plan_b/exporters/xlsx/release.py:62-64 | the sum over a dictionary is any entry plus the sum of the rest |
| ReleaseCells.SumOfZeros | plan_b/exporters/xlsx/release.py:62-64 | a sum of zeros is zero |
| ReleaseCells.Efforts | plan_b/exporters/xlsx/release.py:63 | one effort per team, the field's value or 0 when unset |
| ReleaseCells.TotalEffortRemove | plan_b/exporters/xlsx/release.py:63 | the total effort is one team's effort plus the others' |
| ReleaseCells.ClosedIssueHasNoEffort | plan_b/exporters/xlsx/release.py:62-64 | a closed issue contributes no remaining effort to any total |
| ReleaseCells.SumEffort | plan_b/exporters/xlsx/release.py:62-64 | the summing loop computes exactly the total effort over all teams |
| ReleaseCells.TeamEffortColumns | plan_b/exporters/xlsx/release.py:69-74 | one column per team: its remaining effort in man-weeks, the first with a left border |
| ReleaseCells.FormulaText | plan_b/exporters/xlsx/release.py:78-81 | every formula is text starting with `=` |
| ReleaseCells.A1HasNoColon | plan_b/exporters/xlsx/release.py:78-81 | a cell reference contains no `:` |
| ReleaseCells.SumFormulaRange | plan_b/exporters/xlsx/release.py:78-81 | the text `=SUM(a:b)` reads back as exactly the range from `a` to `b` |
| ReleaseCells.Items | plan_b/exporters/xlsx/utils.py:62-76 | one row element per column, in order |
| ReleaseCells.ComputedIsStoredAsFormula | plan_b/exporters/xlsx/utils.py:77-78 | a computed column is stored as a formula with its text |
| ReleaseCells.ShareColumns | plan_b/exporters/xlsx/release.py:116-122 | one column per dev team: its share of the feature dev total, proportional to its implementation effort, 0 when the implementation total is 0 |
| ReleaseCells.LeadColumns | plan_b/exporters/xlsx/release.py:38-66 | the key, summary, two levels and architecture columns: five columns |
| ReleaseCells.ImplColumns | plan_b/exporters/xlsx/release.py:68-98 | `d + 5` columns: implementation per dev team, its total, integration, automation, stabilisation and documentation |
| ReleaseCells.PerfColumns | plan_b/exporters/xlsx/release.py:100-114 | `d + 1` columns: perf engineering per dev team and its total |
| ReleaseCells.QaColumns | plan_b/exporters/xlsx/release.py:142-164 | `q + 2` columns: QA effort per QA team, its total and the feature total |
| ReleaseCells.IssueColumns | plan_b/exporters/xlsx/release.py:35-165 | an issue row has `14 + 3d + q` columns, as many as the header |
| ReleaseCells.IssueRowGroups | plan_b/exporters/xlsx/release.py:35-165 | the row is the lead, implementation, perf, share, feature dev and QA groups, at columns 0, 5, `10+d`, `11+2d`, `11+3d`, `12+3d` |
| ReleaseCells.AllPlacedAppend | plan_b/exporters/xlsx/release.py:35-165 | concatenating placed columns keeps them placed |
| ReleaseCells.EffortGroupPlaced | plan_b/exporters/xlsx/release.py:69-74 | effort columns are always placed |
| ReleaseCells.FeatureDevPlaced | plan_b/exporters/xlsx/release.py:125-138 | the feature dev formula refers only to cells on the sheet |
| ReleaseCells.GroupsPlaced | plan_b/exporters/xlsx/release.py:35-165 | every formula of the implementation, perf and QA groups refers only to cells on the sheet |
| ReleaseCells.IssueRowPlaced | plan_b/exporters/xlsx/release.py:35-165 | every formula of an issue row refers only to cells on the sheet |
| ReleaseCells.IssueRowImplementation | plan_b/exporters/xlsx/release.py:68-84 | columns `5 .. 4+d` are the dev teams' implementation efforts and column `5+d` sums exactly them |
| ReleaseCells.IssueRowPerf | plan_b/exporters/xlsx/release.py:100-114 | columns `10+d .. 9+2d` are the perf efforts and column `10+2d` sums exactly them |
| ReleaseCells.IssueRowQa | plan_b/exporters/xlsx/release.py:142-157 | columns `12+3d ..` are the QA efforts and the next column sums exactly them |
| ReleaseCells.IssueRowShares | plan_b/exporters/xlsx/release.py:116-138 | the share columns, then the feature dev total: the seven effort parts times both confidence levels |
| ReleaseCells.IssueRowScaled | plan_b/exporters/xlsx/release.py:86-93 | integration, automation and stabilisation are 0.1, 0.2 and 0.3 of the implementation total |
| ReleaseCells.IssueRowFeatureTotal | plan_b/exporters/xlsx/release.py:159-164 | the last column adds the feature dev total and the QA total |
| ReleaseCells.IssueRowFigures | plan_b/exporters/xlsx/release.py:38-98 | the link, summary, styled levels, architecture and documentation cells hold the issue's figures |
| ReleaseCells.IssueLevels | plan_b/exporters/xlsx/release.py:44-58 | a QA-owned issue has levels 0; any other has the largest level set, or 2, and both lie between 1 and 2 |
| ReleaseCells.CreateCellsForIssue | plan_b/exporters/xlsx/release.py:35-165 | the method builds exactly the issue's columns |
| ReleaseCells.TeamEfforts | plan_b/exporters/xlsx/release.py:69-74 | the team loop builds exactly the effort columns |
| ReleaseCells.Shares | plan_b/exporters/xlsx/release.py:116-122 | the share loop builds exactly the share columns |
| ReleaseCells.QaIssueColumns | plan_b/exporters/xlsx/release.py:415-437 | `3 + q` columns: link, summary, each QA team's effort and their sum |
| ReleaseCells.QaIssueRowPlaced | plan_b/exporters/xlsx/release.py:415-437 | every formula of a QA row refers only to cells on the sheet |
| ReleaseCells.QaIssueRowTotal | plan_b/exporters/xlsx/release.py:429-435 | the QA row's total sums exactly its QA effort cells |
| ReleaseCells.CreateCellsForQaIssue | plan_b/exporters/xlsx/release.py:415-437 | the method builds exactly the QA row's columns |
| ReleaseCells.TotalsColumns | plan_b/exporters/xlsx/release.py:317-329 | one total per column of the region |
| ReleaseCells.TotalsPlaced | plan_b/exporters/xlsx/release.py:316-331 | every totals formula refers only to cells on the sheet |
| ReleaseCells.TotalsSumColumns | plan_b/exporters/xlsx/release.py:321-327 | from the skipped columns on, each total sums exactly its column of the region |
| ReleaseCells.TotalsItems | plan_b/exporters/xlsx/release.py:317-329 | the loop builds exactly the totals |
| Release.Owned | plan_b/exporters/xlsx/release.py:337 | the selection is never longer than the release's issues |
| Release.OwnedSpec | plan_b/exporters/xlsx/release.py:337 | the selection fails exactly when some issue has no owner team, naming the first such issue; otherwise it keeps exactly the issues owned by the requested kind of team |
| Release.OwnedTogether | plan_b/exporters/xlsx/release.py:337-443 | the dev and QA selections fail on the same issue, and no issue is in both |
| Release.MaxOf | plan_b/exporters/xlsx/release.py:359 | the maximum is one of the values and no value exceeds it |
| Release.SummaryWidths | plan_b/exporters/xlsx/release.py:359 | one width per issue |
| Release.KeyWidths | plan_b/exporters/xlsx/release.py:363 | one width per issue |
| Release.TeamHeader | plan_b/exporters/xlsx/release.py:262-266 | one name per team and the closing `Total` |
| Release.HeaderCoversRow | plan_b/exporters/xlsx/release.py:168-313 | the header's rows of names end at the last QA column and `Feature total` sits in the last of the `14 + 3d + q` columns, the same number of cells as an issue row |
| Release.CreateReleaseTableHeader | plan_b/exporters/xlsx/release.py:168-313 | returns the three-row region of `14 + 3d + q` columns at the offset, and writes exactly the header's titles, name rows, merges and widths |
| Release.HeaderTitles | plan_b/exporters/xlsx/release.py:174-245 | the header's `merge_cells` calls record exactly its titled merges and widths and write no cell |
| Release.EffortHeaderTitles | plan_b/exporters/xlsx/release.py:193-245 | the titles after the implementation group, placed from the shifted offset, and their widths |
| Release.TotalNames | plan_b/exporters/xlsx/release.py:271-311 | the last three `write_row` calls of the header write the split, perf and QA rows of team names, each starting where the previous one ended |
| Release.HeaderNames | plan_b/exporters/xlsx/release.py:247-311 | the header's `write_row` calls write exactly the level titles and the four rows of team names |
| Release.HeaderRowsWritten | plan_b/exporters/xlsx/release.py:247-311 | writing the five rows one after another equals writing all five |
| Release.IssueRows | plan_b/exporters/xlsx/release.py:343-351 | one row per issue |
| Release.AddTotalsRow | plan_b/exporters/xlsx/release.py:316-331 | writes exactly the totals row under the region: `Total`, blanks before the skipped columns, a column sum after |
| Release.DistinctPairs | plan_b/exporters/xlsx/release.py:367-382 | no repeats means elements at different places differ |
| Release.DistinctAt | plan_b/exporters/xlsx/release.py:367-382 | in a list without repeats an element differs from every other |
| Release.DistinctAppend | plan_b/exporters/xlsx/release.py:367-382 | two lists without repeats and sharing nothing concatenate to one without repeats |
| Release.ColumnRefsKeys | plan_b/exporters/xlsx/release.py:370-382 | the loop adds the listed teams to the keys and no others |
| Release.ColumnRefsAt | plan_b/exporters/xlsx/release.py:370-382 | with no team listed twice, the k-th team refers to column `column + k` on the release's sheet; unlisted teams keep their reference |
| Release.AddColumnRefs | plan_b/exporters/xlsx/release.py:370-374 | the loop computes exactly `ColumnRefs` |
| Release.CreateDevActivitiesTable | plan_b/exporters/xlsx/release.py:334-386 | fails, writing nothing, when an issue has no owner team; otherwise returns the dev table's references and region and writes exactly its rows, merges and widths |
| Release.WriteOwnedDevTable | plan_b/exporters/xlsx/release.py:341-386 | with at least one dev issue, returns the total references and the region of header, issue rows and totals, and writes exactly them |
| Release.SetSummaryAndKeyWidths | plan_b/exporters/xlsx/release.py:357-364 | the summary column gets the widest `0.75 * len(summary)` and the key column the longest key, and no cell changes |
| Release.WriteDevTable | plan_b/exporters/xlsx/release.py:341-354 | the header, the issue rows and the totals row, written in that order |
| Release.WriteIssueRows | plan_b/exporters/xlsx/release.py:343-351 | the row loop writes exactly one issue row under another |
| Release.PutIssueRow | plan_b/exporters/xlsx/release.py:344-351 | one pass writes exactly one issue row |
| Release.DevReferences | plan_b/exporters/xlsx/release.py:367-382 | the two loops make exactly the dev and QA total references |
| Release.CreateQaActivitiesTableHeader | plan_b/exporters/xlsx/release.py:389-412 | returns the region of 2 rows and `3 + q` columns at the offset, and writes exactly its merges, name row and width |
| Release.QaIssueRows | plan_b/exporters/xlsx/release.py:452-460 | one row per issue |
| Release.RowRefsAt | plan_b/exporters/xlsx/release.py:462-470 | a row appends one reference to each listed team's list, at column `1 + k`, and leaves other teams alone |
| Release.QaRefsAt | plan_b/exporters/xlsx/release.py:451-470 | each QA team gets one reference per QA-owned issue in issue order, at column `1 + k` of the issue's row, titled with the issue's summary |
| Release.CreateQaActivitiesTable | plan_b/exporters/xlsx/release.py:440-477 | fails, writing nothing, when an issue has no owner team; otherwise returns the QA references and region and writes exactly the table's rows, merges and widths |
| Release.WriteQaIssueRows | plan_b/exporters/xlsx/release.py:452-470 | the row loop writes exactly the QA issue rows and gathers exactly the per-team references |
| Release.PutQaIssueRow | plan_b/exporters/xlsx/release.py:453-460 | one pass writes exactly one QA issue row |
| Release.AddRowRefs | plan_b/exporters/xlsx/release.py:462-470 | the inner loop computes exactly `RowRefs` |
| Release.ReleaseTable | plan_b/exporters/xlsx/release.py:484-488 | the dev table is placed so that the QA table below it starts on the sheet |
| Release.ReleaseRefsTables | plan_b/exporters/xlsx/release.py:480-490 | a release sheet's references are its dev table's merged with its QA table's |
| Release.ColumnRefsPlaced | plan_b/exporters/xlsx/release.py:370-382 | the column references point at cells with non-negative coordinates |
| Release.RowRefsPlaced | plan_b/exporters/xlsx/release.py:462-470 | the row references point at cells with non-negative coordinates |
| Release.QaRefsPlaced | plan_b/exporters/xlsx/release.py:451-470 | every QA reference points at a cell on the sheet |
| Release.MergedPlaced | plan_b/exporters/xlsx/release.py:490 | merging placed references keeps them placed |
| Release.DevRefsPlaced | plan_b/exporters/xlsx/release.py:367-382 | every dev-table reference points at a cell on the sheet |
| Release.TwoColumnRefsPlaced | plan_b/exporters/xlsx/release.py:367-382 | both reference loops keep every reference placed |
| Release.NoRefsPlaced | plan_b/exporters/xlsx/release.py:339 | the empty result has no misplaced reference |
| Release.QaRefsTablePlaced | plan_b/exporters/xlsx/release.py:440-477 | every reference of the QA table points at a cell on the sheet |
| Release.ReleaseTablePlaced | plan_b/exporters/xlsx/release.py:484-488 | every reference either table returns points at a cell on the sheet |
| Release.ReleaseRefsPlaced | plan_b/exporters/xlsx/release.py:480-490 | every reference a release sheet hands to the calendars points at a cell on that sheet |
| Release.FillReleaseWorksheet | plan_b/exporters/xlsx/release.py:480-490 | fails, writing nothing, when an issue has no owner team; otherwise returns the references `ReleaseRefs` defines and writes exactly both tables |
| TeamCalendar.CellText | plan_b/exporters/xlsx/team_calendar.py:41 | a placed position is written as its `to_cell` reference; a row above the first is printed as it is |
| TeamCalendar.FormulaText | plan_b/exporters/xlsx/team_calendar.py:40-41 | every formula is text starting with `=` and at least one more character |
| TeamCalendar.FormulaValue | plan_b/exporters/xlsx/team_calendar.py:73 | the written value is stored as that formula |
| TeamCalendar.MonthHeaders | plan_b/exporters/xlsx/team_calendar.py:21 | one header per month of the period, in order |
| TeamCalendar.Months | plan_b/exporters/xlsx/team_calendar.py:21 | the months of the period, all valid dates |
| TeamCalendar.EfficiencyCells | plan_b/exporters/xlsx/team_calendar.py:31 | fails, naming the worker, exactly when there is a month and the to-be-hired worker has no start date; otherwise one cell per month holding the worker's efficiency then |
| TeamCalendar.MembersRows | plan_b/exporters/xlsx/team_calendar.py:26-34 | two row writes per member: the name and the efficiencies |
| TeamCalendar.CapacityTotals | plan_b/exporters/xlsx/team_calendar.py:37-44 | one total per month column |
| TeamCalendar.CreateTeamCapacityTable | plan_b/exporters/xlsx/team_calendar.py:14-46 | fails, naming a worker without a start date, exactly when some member's efficiency cannot be computed; otherwise returns the region of `2 + members` rows and one column per month at the origin, and writes exactly the capacity rows |
| TeamCalendar.PutCapacityHead | plan_b/exporters/xlsx/team_calendar.py:17-23 | writes `People` and the month headers, and returns the number of months |
| TeamCalendar.PutCapacityTail | plan_b/exporters/xlsx/team_calendar.py:36-44 | writes `Total` and one column sum per month |
| TeamCalendar.WriteMemberRows | plan_b/exporters/xlsx/team_calendar.py:26-34 | the member loop fails exactly when some member is unstaffed, naming one; otherwise it writes exactly two rows per member |
| TeamCalendar.MembersRowsStep | plan_b/exporters/xlsx/team_calendar.py:26-34 | one more staffed member appends exactly its two rows |
| TeamCalendar.PutMemberRows | plan_b/exporters/xlsx/team_calendar.py:27-33 | writes exactly the member's name and efficiency row |
| TeamCalendar.LineItems | plan_b/exporters/xlsx/team_calendar.py:69-136 | one cell per month: the line's value at that month's column |
| TeamCalendar.LineAt | plan_b/exporters/xlsx/team_calendar.py:69-136 | the k-th of the seven calculation lines is line k |
| TeamCalendar.LinesThrough | plan_b/exporters/xlsx/team_calendar.py:69-136 | two row writes per line, each on its line's row |
| TeamCalendar.MonthDays | plan_b/exporters/xlsx/team_calendar.py:79-86 | one working-day count per month |
| TeamCalendar.PutLine | plan_b/exporters/xlsx/team_calendar.py:69-136 | writes exactly one labelled line |
| TeamCalendar.WriteCalendarLines | plan_b/exporters/xlsx/team_calendar.py:59-136 | fails exactly when the calendar lacks a month of the period, naming one; otherwise returns the month's working days and writes exactly the header and the seven lines |
| TeamCalendar.WorkdayCounts | plan_b/exporters/xlsx/team_calendar.py:79 | fails exactly when the calendar lacks a month of the period, naming one; otherwise returns each month's working days |
| TeamCalendar.PeopleIgnoresDays | plan_b/exporters/xlsx/team_calendar.py:69-76 | the `People` line does not depend on the working days |
| TeamCalendar.PutWorkingLines | plan_b/exporters/xlsx/team_calendar.py:78-136 | after the first line, writes lines 2 to 7 in order |
| TeamCalendar.PutNextLine | plan_b/exporters/xlsx/team_calendar.py:78-136 | writes exactly line k after lines 1 to k-1 |
| TeamCalendar.PutCalendarHeader | plan_b/exporters/xlsx/team_calendar.py:61-67 | writes the blank corner and the month headers |
| TeamCalendar.AllocationRows | plan_b/exporters/xlsx/team_calendar.py:144-148 | one title row per reference, the j-th j rows down |
| TeamCalendar.AllocationRegionsTitles | plan_b/exporters/xlsx/team_calendar.py:144-148 | every reference's title is a key of the result |
| TeamCalendar.AllocationRegionsUnique | plan_b/exporters/xlsx/team_calendar.py:144-148 | no title is a key twice |
| TeamCalendar.AllocationRegionsEntries | plan_b/exporters/xlsx/team_calendar.py:144-148 | every entry is some reference's title with the region of its row |
| TeamCalendar.AllocationRegionsGet | plan_b/exporters/xlsx/team_calendar.py:144-148 | a title maps to the region of the last row with that title |
| TeamCalendar.WriteAllocationRows | plan_b/exporters/xlsx/team_calendar.py:141-148 | returns exactly the allocation regions and writes exactly the title rows |
| TeamCalendar.PutAllocationTitle | plan_b/exporters/xlsx/team_calendar.py:145-146 | writes exactly one title row |
| TeamCalendar.AllocationRegionsStep | plan_b/exporters/xlsx/team_calendar.py:144-148 | one more reference assigns its title its row's region |
| TeamCalendar.DifferenceItems | plan_b/exporters/xlsx/team_calendar.py:153-160 | one formula per month column |
| TeamCalendar.DifferenceFormula | plan_b/exporters/xlsx/team_calendar.py:157-158 | the difference formula refers only to cells on the sheet |
| TeamCalendar.DifferenceRows | plan_b/exporters/xlsx/team_calendar.py:152-160 | the label and the formulas are on the difference row |
| TeamCalendar.PutDifferenceRow | plan_b/exporters/xlsx/team_calendar.py:151-160 | writes exactly the difference row |
| TeamCalendar.AllocationRegionsIndexed | plan_b/exporters/xlsx/team_calendar.py:171 | every reference's title looks up a placed region |
| TeamCalendar.SummaryRows | plan_b/exporters/xlsx/team_calendar.py:168-183 | one summary row per reference |
| TeamCalendar.SummaryRowsAt | plan_b/exporters/xlsx/team_calendar.py:170-182 | the j-th summary row is the title's row, needed, allocated over its region and the difference |
| TeamCalendar.WriteSummaryRows | plan_b/exporters/xlsx/team_calendar.py:168-183 | the loop writes exactly the summary rows |
| TeamCalendar.SummaryTable | plan_b/exporters/xlsx/team_calendar.py:163-183 | the header and one row per reference, one below another from `8 + refs + releases` rows below the table |
| TeamCalendar.CreateTeamCalendarTable | plan_b/exporters/xlsx/team_calendar.py:49-185 | fails exactly when the calendar lacks a month of the period, naming one; otherwise returns the allocation regions and writes exactly the lines and the plan rows, setting column 0 to width 15 |
| TeamCalendar.WritePlanRows | plan_b/exporters/xlsx/team_calendar.py:139-183 | returns the allocation regions and writes exactly the allocation, difference and summary rows |
| TeamCalendar.FillCalendarPlanWorksheet | plan_b/exporters/xlsx/team_calendar.py:188-207 | fails exactly when a member is unstaffed or a month is missing from the calendar, a member's error first; otherwise returns the allocation regions starting at row `11 + members` and writes exactly the calendar sheet's rows |
| TeamCalendar.EditItems | plan_b/exporters/xlsx/team_calendar.py:215-216 | one cell per column of the region, the i-th holding the item's i-th saved allocation |
| TeamCalendar.EditRows | plan_b/exporters/xlsx/team_calendar.py:213-217 | one row write per region, in order |
| TeamCalendar.ApplyPlanEdits | plan_b/exporters/xlsx/team_calendar.py:210-217 | succeeds exactly when every region's item was saved with enough allocations; a failure is the first region's error; a success writes exactly the saved values back |
| TeamCalendar.EditRowsStep | plan_b/exporters/xlsx/team_calendar.py:213-217 | one more applicable region appends its row |
| TeamCalendar.ApplyItemEdits | plan_b/exporters/xlsx/team_calendar.py:214-217 | fails exactly with the item's error when it is missing or short; otherwise writes exactly its row |
| TeamCalendarFacts.MembersRowsAt | plan_b/exporters/xlsx/team_calendar.py:26-34 | member j's name is written at row `1 + j`, column 0 of the table, and its efficiencies from column 1 on the same row |
| TeamCalendarFacts.MembersRowsRows | plan_b/exporters/xlsx/team_calendar.py:25-34 | the q-th member write is on row `1 + q / 2` of the table |
| TeamCalendarFacts.CapacityRowsAt | plan_b/exporters/xlsx/team_calendar.py:14-44 | the capacity writes are on the header row, then the members' rows, then the totals row |
| TeamCalendarFacts.CapacityEfficiencyCell | plan_b/exporters/xlsx/team_calendar.py:26-34 | after the capacity table, the cell of member j and month i holds the member's efficiency in that month |
| TeamCalendarFacts.EfficiencyWrite | plan_b/exporters/xlsx/team_calendar.py:28-33 | that cell's final value comes from member j's efficiency row |
| TeamCalendarFacts.CapacityTotalCell | plan_b/exporters/xlsx/team_calendar.py:36-44 | the totals row holds, per month, a sum over the member rows; as written the sum's column is the column index added to the offset twice |
| TeamCalendarFacts.TotalWrite | plan_b/exporters/xlsx/team_calendar.py:37-44 | that total's final value comes from the last write of the table |
| TeamCalendarFacts.CapacityMonthCell | plan_b/exporters/xlsx/team_calendar.py:18-23 | the header row holds each month's date in the green header style |
| TeamCalendarFacts.MonthWrite | plan_b/exporters/xlsx/team_calendar.py:18-23 | that header cell's final value comes from the month row |
| TeamCalendarFacts.LinesThroughAt | plan_b/exporters/xlsx/team_calendar.py:69-136 | the value row of line j is write `2j - 1` |
| TeamCalendarFacts.CalendarLineCell | plan_b/exporters/xlsx/team_calendar.py:59-136 | after the calendar lines, each line's cell for month i holds the line's value for that month |
| TeamCalendarFacts.LineCellWrite | plan_b/exporters/xlsx/team_calendar.py:69-136 | that cell's final value comes from line j's value row |
| TeamCalendarFacts.LineItemCell | plan_b/exporters/xlsx/team_calendar.py:69-136 | a line's value row covers month i's cell and puts the line's value there |
| TeamCalendarFacts.LineAtIndex | plan_b/exporters/xlsx/team_calendar.py:69-136 | each line is the line of its own index |
| TeamCalendarFacts.LinesBelow | plan_b/exporters/xlsx/team_calendar.py:69-136 | later lines do not touch line j's row |
| TeamCalendarFacts.AllocationTitleCell | plan_b/exporters/xlsx/team_calendar.py:144-148 | the j-th allocation row starts with the j-th reference's title |
| TeamCalendarFacts.AllocationTitleWrite | plan_b/exporters/xlsx/team_calendar.py:145-146 | that title's final value comes from its own write |
| TeamCalendarFacts.DifferenceRowsAvoid | plan_b/exporters/xlsx/team_calendar.py:151-160 | the difference row touches no other row |
| TeamCalendarFacts.SummaryTableAvoids | plan_b/exporters/xlsx/team_calendar.py:162-183 | the summary table touches no row above it |
| TeamCalendarFacts.DifferenceCell | plan_b/exporters/xlsx/team_calendar.py:151-160 | the difference row holds, per month, the row `releases + 1` above minus the sum of the `releases` rows above |
| TeamCalendarFacts.DifferenceItemCell | plan_b/exporters/xlsx/team_calendar.py:153-160 | that difference cell's final value comes from the difference row |
| TeamCalendarFacts.DifferenceDecides | plan_b/exporters/xlsx/team_calendar.py:153-160 | the i-th difference formula is the final value of its cell |
| TeamCalendarFacts.LastWriteDecides | plan_b/exporters/xlsx/team_calendar.py:153-160 | a formula in the second of two writes on a row is its cell's final value |
| TeamCalendarFacts.DifferenceCoversAllocations | plan_b/exporters/xlsx/team_calendar.py:157-158 | with as many releases as references, the difference is `Remaining` minus the sum of exactly the allocation rows |
| TeamCalendarFacts.LastTitled | plan_b/exporters/xlsx/team_calendar.py:147 | the last reference with the title, or none: no later reference has it |
| TeamCalendarFacts.SummaryAllocatedCell | plan_b/exporters/xlsx/team_calendar.py:169-182 | the j-th summary row's `Allocated` sums the allocation row of the last reference with its title |
| TeamCalendarFacts.SummaryAllocatedItem | plan_b/exporters/xlsx/team_calendar.py:169-182 | that cell's final value comes from the summary row |
| TeamCalendarFacts.SummaryRowCell | plan_b/exporters/xlsx/team_calendar.py:172-182 | the summary row covers its `Allocated` cell with that sum |
| TeamCalendarFacts.SummaryRowWrite | plan_b/exporters/xlsx/team_calendar.py:169-182 | the j-th summary write is the row for that reference and region |
| TeamCalendarFacts.SummaryTableAt | plan_b/exporters/xlsx/team_calendar.py:163-183 | the j-th summary write is the j-th summary row under the header |
| TeamCalendarFacts.LastTitledAtLeast | plan_b/exporters/xlsx/team_calendar.py:147 | the last reference with a title is at or after any reference with it |
| TeamCalendarFacts.AllocationRegionsRows | plan_b/exporters/xlsx/team_calendar.py:144-148 | distinct allocation regions are on distinct rows |
| TeamCalendarFacts.EditCell | plan_b/exporters/xlsx/team_calendar.py:213-217 | after the edits, column i of an item's region holds the item's i-th saved allocation |
| TeamCalendarFacts.EditsElsewhere | plan_b/exporters/xlsx/team_calendar.py:213-217 | the edits touch no cell outside the regions |
| Metadata.ItemRecords | plan_b/exporters/xlsx/metadata.py:52-65 | one record per item, in order: `Item`, name, row, column, rows, columns |
| Metadata.Plains | plan_b/exporters/xlsx/metadata.py:40-65 | one plain cell per value |
| Metadata.RecordRows | plan_b/exporters/xlsx/metadata.py:39-65 | record i is written on row i from column 0 |
| Metadata.RecordRowsAppend | plan_b/exporters/xlsx/metadata.py:39-65 | one more record appends its row write |
| Metadata.PutRecord | plan_b/exporters/xlsx/metadata.py:40-65 | writes exactly the next record's row |
| Metadata.PutHeadRecords | plan_b/exporters/xlsx/metadata.py:39-47 | writes exactly the three head records: header, period, `Team calendars` |
| Metadata.HeadOnly | plan_b/exporters/xlsx/metadata.py:39-47 | with no teams the records are just the three head records |
| Metadata.PutThreeRecords | plan_b/exporters/xlsx/metadata.py:40-46 | writes exactly three records on rows 0 to 2 |
| Metadata.ItemRecordsStep | plan_b/exporters/xlsx/metadata.py:52-65 | one more item appends its record |
| Metadata.PutItemRecord | plan_b/exporters/xlsx/metadata.py:53-65 | writes exactly the next item's record |
| Metadata.PutTeamRecords | plan_b/exporters/xlsx/metadata.py:49-65 | writes the team record and then its items' records, and returns the next free row |
| Metadata.RecordsStep | plan_b/exporters/xlsx/metadata.py:49-65 | one more team appends its team record and its item records |
| Metadata.TeamRecordsStep | plan_b/exporters/xlsx/metadata.py:49-65 | the same for the team part alone |
| Metadata.SaveMetadata | plan_b/exporters/xlsx/metadata.py:36-65 | writes exactly the records: the header, the period as ISO dates, `Team calendars`, and for each team its name and one record per item |
| Metadata.TeamRecordCount | plan_b/exporters/xlsx/metadata.py:49-65 | one record per team plus one per item |
| Metadata.RecordCount | plan_b/exporters/xlsx/metadata.py:36-65 | three head records, then one per team and one per item |
| Metadata.RecordCell | plan_b/exporters/xlsx/metadata.py:36-65 | after saving, cell (r, c) holds the c-th value of record r |
| Metadata.RecordGap | plan_b/exporters/xlsx/metadata.py:36-65 | saving touches no cell outside the records |
| Metadata.ReadRecord | plan_b/exporters/xlsx/metadata.py:82 | a read row has the sheet's width |
| Metadata.ReadRecords | plan_b/exporters/xlsx/metadata.py:82 | one read row per record |
| Metadata.ReadRecordsAppend | plan_b/exporters/xlsx/metadata.py:82 | reading two batches of rows is reading each |
| Metadata.SavedTable | plan_b/exporters/xlsx/metadata.py:82 | reading back the saved sheet gives each record padded to the width |
| Metadata.TextReadBack | plan_b/exporters/xlsx/metadata.py:87-107 | a saved text reads back as itself, an empty one as blank |
| Metadata.SliceBound | plan_b/exporters/xlsx/metadata.py:109 | a slice bound is clamped into the sequence and an in-range bound is kept |
| Metadata.PySlice | plan_b/exporters/xlsx/metadata.py:109 | Python slicing: the elements from the clamped start, never more than the sequence |
| Metadata.SliceLength | plan_b/exporters/xlsx/metadata.py:109 | a slice of n elements has at most n, exactly the plain slice when in range |
| Metadata.AsInt | plan_b/exporters/xlsx/metadata.py:105 | a cell read as an integer holds that integer |
| Metadata.WholeReadBack | plan_b/exporters/xlsx/metadata.py:59-62 | a saved integer reads back as that integer |
| Metadata.Zip | plan_b/exporters/xlsx/metadata.py:110-112 | the pairs of months and cells, as many as the shorter side |
| Metadata.Field | plan_b/exporters/xlsx/metadata.py:87-105 | `row[i]` exists exactly when the row is long enough |
| Metadata.ItemCells | plan_b/exporters/xlsx/metadata.py:109 | the item's row exists exactly when its index is in the sheet, and gives the Python slice of it |
| Metadata.Paired | plan_b/exporters/xlsx/metadata.py:110-112 | pairing fails exactly when there are cells and no period or too few months (the `months_range[month_idx]` IndexError); otherwise each cell is paired with its month |
| Metadata.ErrorSticks | plan_b/exporters/xlsx/metadata.py:82-116 | once a row fails, the whole load fails the same way |
| Metadata.LoadFromAppend | plan_b/exporters/xlsx/metadata.py:82-116 | loading two batches of rows is loading each in turn |
| Metadata.PairMonths | plan_b/exporters/xlsx/metadata.py:110-112 | the cell loop computes exactly `Paired` |
| Metadata.LoadRecord | plan_b/exporters/xlsx/metadata.py:83-116 | one row of the loop computes exactly `LoadRow` |
| Metadata.LoadMetadata | plan_b/exporters/xlsx/metadata.py:68-118 | the row loop computes exactly `Loaded` |
| Metadata.KindsDistinct | plan_b/exporters/xlsx/metadata.py:83-102 | the five record kinds are distinct texts |
| Metadata.HeaderChecked | plan_b/exporters/xlsx/metadata.py:83-85 | a first row not starting with the header is the invalid-header error; a right one just advances |
| Metadata.IgnoredBeforeSection | plan_b/exporters/xlsx/metadata.py:87-95 | before `Team calendars`, rows other than `Period` are skipped |
| Metadata.PeriodRead | plan_b/exporters/xlsx/metadata.py:87-90 | a `Period` row sets the months of the period it names |
| Metadata.PeriodParsed | plan_b/exporters/xlsx/metadata.py:88-90 | two ISO dates give the months range between them |
| Metadata.HeaderRead | plan_b/exporters/xlsx/metadata.py:83-85 | a correct header row just advances |
| Metadata.SectionRead | plan_b/exporters/xlsx/metadata.py:92-93 | `Team calendars` turns the section flag on |
| Metadata.TeamRead | plan_b/exporters/xlsx/metadata.py:97-100 | a `Team` row starts that team with no items |
| Metadata.ItemRead | plan_b/exporters/xlsx/metadata.py:102-114 | an `Item` row stores the item's cells sliced from its row, each paired with its month |
| Metadata.HeadRows | plan_b/exporters/xlsx/metadata.py:39-47 | the saved head reads back as the header, a period row with both dates, and `Team calendars` |
| Metadata.TextCellReadBack | plan_b/exporters/xlsx/metadata.py:40-65 | a saved non-empty text reads back as itself |
| Metadata.DateCellReadBack | plan_b/exporters/xlsx/metadata.py:44 | a saved ISO date reads back as that date |
| Metadata.HeadLoads | plan_b/exporters/xlsx/metadata.py:83-93 | loading the saved head gives the months of the period and an open section |
| Metadata.HeadChain | plan_b/exporters/xlsx/metadata.py:83-93 | the three head rows load to the same state |
| Metadata.TeamRowLoads | plan_b/exporters/xlsx/metadata.py:97-100 | a saved team record loads as the start of that team |
| Metadata.ItemRowLoads | plan_b/exporters/xlsx/metadata.py:102-114 | a saved item record loads as the item's cells read from its region |
| Metadata.ItemsLoadedStep | plan_b/exporters/xlsx/metadata.py:102-114 | one more item record stores its item |
| Metadata.ItemRecordsLoad | plan_b/exporters/xlsx/metadata.py:102-114 | a team's saved item records load as its items |
| Metadata.LoadStep | plan_b/exporters/xlsx/metadata.py:82-116 | a loaded prefix and one more loaded row load together |
| Metadata.ItemRecordsSnoc | plan_b/exporters/xlsx/metadata.py:52-65 | the last item's record is read last |
| Metadata.LoadFromSnoc | plan_b/exporters/xlsx/metadata.py:82-116 | loading one more row continues from the prefix |
| Metadata.TeamsLoadedStep | plan_b/exporters/xlsx/metadata.py:97-114 | one more team's records load after the rest |
| Metadata.RecordablePrefix | plan_b/exporters/xlsx/metadata.py:49-65 | the teams before the last are recordable too |
| Metadata.ItemsRecordablePrefix | plan_b/exporters/xlsx/metadata.py:52-65 | the items before the last are recordable too |
| Metadata.LaterKeysPrefix | plan_b/exporters/xlsx/metadata.py:99-114 | a key that is last in a list is still last in its prefix |
| Metadata.TeamRecordsLength | plan_b/exporters/xlsx/metadata.py:49-65 | the last team adds one record plus one per item |
| Metadata.TeamRecordsSnoc | plan_b/exporters/xlsx/metadata.py:49-65 | the last team's records are read last |
| Metadata.TeamRecordsFit | plan_b/exporters/xlsx/metadata.py:49-65 | records that fit the width still fit without the last team |
| Metadata.FitsParts | plan_b/exporters/xlsx/metadata.py:36-65 | both parts of fitting records fit |
| Metadata.LoadChain | plan_b/exporters/xlsx/metadata.py:82-116 | two loaded batches load together |
| Metadata.TeamRecordsLoad | plan_b/exporters/xlsx/metadata.py:95-114 | the saved team records load as every team's items |
| Metadata.SaveLoadRoundTrip | plan_b/exporters/xlsx/metadata.py:36-118 | loading a saved metadata sheet gives, for every team, each item's values read from its region, paired with the months of the saved period |
| Metadata.HeadFits | plan_b/exporters/xlsx/metadata.py:44 | saved records fit only a sheet at least three columns wide |
| Metadata.PeriodRecord | plan_b/exporters/xlsx/metadata.py:41-45 | the period record has three values |
| Metadata.HeadShape | plan_b/exporters/xlsx/metadata.py:39-47 | three head records, the period with three values |
| Metadata.FitsRow | plan_b/exporters/xlsx/metadata.py:82 | every record of fitting records is no wider than the sheet |
| Metadata.LoadedMeta | plan_b/exporters/xlsx/metadata.py:68-118 | a successful loop over the `Meta` rows gives its allocations |
| Metadata.RecordsLoad | plan_b/exporters/xlsx/metadata.py:36-118 | all saved records load to the state after every team |
| Metadata.ItemsReadLast | plan_b/exporters/xlsx/metadata.py:114 | an item is read as its last record: its cells paired with the months |
| Metadata.TeamsReadLast | plan_b/exporters/xlsx/metadata.py:99 | a team is read as its last team record with its items |
| Metadata.SpanRead | plan_b/exporters/xlsx/metadata.py:109-112 | an item's stored allocations pair month k with the cell k columns into its region |
| Metadata.SpanValuesRead | plan_b/exporters/xlsx/metadata.py:36-118 | after a save and load, each team's item holds exactly the cells of its region, each paired with its month |
| PlanIssues.StoredPairFails | plan_b/plan.py:51 | as written, the release stores the `(issues, known_bugs_count)` pair, and the release sheet's `owned_by_team` lookup (`plan_b/exporters/xlsx/release.py:337`) fails on it for every release, whatever was exported |
| PlanIssues.Exports | plan_b/plan.py:49-51 | what the data source exports for each release's query, in release order |
| PlanIssues.RefreshedStep | plan_b/plan.py:49-51 | one more release takes its exported issues, or its error ends the loop |
| PlanIssues.RefreshedFailsAt | plan_b/plan.py:49-51 | a failing export fails the whole loop with its error |
| PlanIssues.RefreshedStops | plan_b/plan.py:49-51 | after a failure, later releases change nothing |
| PlanIssues.RefreshedSucceeds | plan_b/plan.py:49-51 | the loop succeeds exactly when every export does, and then release j keeps its name and query and holds export j's issues |
| PlanIssues.RefreshedFails | plan_b/plan.py:49-51 | a failed loop reports the first failing export's error |
| PlanIssues.RefreshReleases | plan_b/plan.py:48-51 | the release loop computes exactly the refreshed releases |
| PlanIssues.ExportIssuesForReleases | plan_b/plan.py:48-51 | corrected `_export_issues_for_releases`: succeeds exactly when every release's export does, each release then holding its own exported issues; otherwise fails with the first failing export's error |
| PlanIssues.StoredIssuesRead | plan_b/plan.py:51 | stored as intended, the release sheet reads exactly the exported issues |
| Export.SheetName | plan_b/exporters/xlsx/__init__.py:28-32 | a sheet always gets a non-empty name, the asked one when it is not empty |
| Export.AddedNamesNext | plan_b/exporters/xlsx/__init__.py:26-32 | one more sheet: the earlier names, then its own unless refused |
| Export.AddedNamesAccepts | plan_b/exporters/xlsx/__init__.py:26-32 | an accepted name is appended |
| Export.AddedNamesRefused | plan_b/exporters/xlsx/__init__.py:26-32 | a refused name stops the export with that refusal |
| Export.AddedNamesStops | plan_b/exporters/xlsx/__init__.py:26-32 | after a refusal, later sheets change nothing |
| Export.AddedNamesValid | plan_b/exporters/xlsx/__init__.py:26-32 | when every sheet is added, the names are valid, as asked when not empty, distinct from the existing names and from each other, ignoring case |
| Export.AddedNamesAccepted | plan_b/exporters/xlsx/__init__.py:26-32 | valid, non-empty names distinct from each other and from the existing ones are all accepted as they are |
| Export.Names | plan_b/exporters/xlsx/__init__.py:26-32 | the names of the sheets, in order |
| Export.NamesAppend | plan_b/exporters/xlsx/__init__.py:26-32 | the names of two lists of sheets are the names of each |
| Export.NewSheetAppended | plan_b/exporters/xlsx/__init__.py:28-32 | a new sheet keeps the sheets distinct and adds its name last |
| Export.AppendSheet | plan_b/exporters/xlsx/__init__.py:28-32 | `add_worksheet`: a fresh empty sheet with the given name after the others, which are unchanged |
| Export.AddSheets | plan_b/exporters/xlsx/__init__.py:26-32 | fails exactly when a name is refused, with that refusal; otherwise a fresh, empty, distinct sheet per name, named as `AddedNames` says |
| Export.FillRelease | plan_b/exporters/xlsx/__init__.py:35-39 | fills the release's sheet with its rows and merges its references into those of the earlier releases |
| Export.FillReleases | plan_b/exporters/xlsx/__init__.py:34-39 | the loop gives exactly the merged references of every release, and each release sheet holds that release's rows |
| Export.AllRefsNext | plan_b/exporters/xlsx/__init__.py:34-39 | one more release merges its references into the earlier ones |
| Export.AllRefsStops | plan_b/exporters/xlsx/__init__.py:34-39 | after a failing release, later releases change nothing |
| Export.AllRefsEach | plan_b/exporters/xlsx/__init__.py:34-39 | a successful merge means every release's references succeeded |
| Export.AllRefsMerged | plan_b/exporters/xlsx/__init__.py:34-39 | the merged references are the merge of every release's references, in release order |
| Export.AllRefsPlaced | plan_b/exporters/xlsx/__init__.py:34-39 | every merged reference points into a release sheet's totals |
| Export.TeamsExportEach | plan_b/exporters/xlsx/__init__.py:42-56 | the calendars export exactly when every team's calendar exports |
| Export.CellsOf | plan_b/exporters/xlsx/__init__.py:42-56 | the cells of each sheet, in order |
| Export.CalendarsTable | plan_b/exporters/xlsx/__init__.py:42-56 | the calendar cells each team's sheet should hold |
| Export.CalendarsWritten | plan_b/exporters/xlsx/__init__.py:42-56 | cells matching each team's table are each team's calendar written on an empty sheet |
| Export.ExportedRegions | plan_b/exporters/xlsx/__init__.py:41-51 | one entry of regions per team |
| Export.ExportedRegionsNext | plan_b/exporters/xlsx/__init__.py:41-51 | one more team adds its regions last |
| Export.ExportedRegionsAt | plan_b/exporters/xlsx/__init__.py:41-51 | the i-th entry is team i's name with its calendar regions |
| Export.FillCalendar | plan_b/exporters/xlsx/__init__.py:43-56 | a team's calendar: succeeds exactly when the team exports, with the reason otherwise; gives its regions, and the sheet holds the calendar with the previous edits applied |
| Export.FailsFirstAt | plan_b/exporters/xlsx/__init__.py:42-56 | when the teams before `i` export and team `i` fails with `e`, the calendars fail with `e` as the first failing team's reason |
| Export.CalendarsNext | plan_b/exporters/xlsx/__init__.py:42-51 | one more team that exports extends the exporting teams and appends its own regions to Meta's |
| Export.FillCalendarAt | plan_b/exporters/xlsx/__init__.py:43-56 | one turn of the team loop: team `i` either is the first to fail, with its reason, or exports, gets its regions and its sheet holds its calendar, while every other sheet stays as it was |
| Export.FillCalendarsLoop | plan_b/exporters/xlsx/__init__.py:41-56 | the team loop succeeds exactly when every team exports, failing with the first team's reason otherwise; gives every team's regions in team order and leaves every sheet with its calendar |
| Export.FillCalendars | plan_b/exporters/xlsx/__init__.py:41-56 | succeeds exactly when every team exports, failing with the first team's reason otherwise; gives every team's regions and fills every team sheet with its calendar |
| Export.TeamNames | plan_b/exporters/xlsx/__init__.py:27-28 | the team names, in order |
| Export.ReleaseNames | plan_b/exporters/xlsx/__init__.py:31-32 | the release names, in order |
| Export.SheetNamesValid | plan_b/exporters/xlsx/__init__.py:26-32 | the sheet names of a successful export are valid, distinct ignoring case, team sheets first with their teams' names, then the releases' |
| Export.FillSheets | plan_b/exporters/xlsx/__init__.py:34-56 | a failing release stops the export with its error; otherwise the calendars succeed exactly when every team exports, and every sheet is filled |
| Export.AddMeta | plan_b/exporters/xlsx/__init__.py:58-59 | the `Meta` sheet is refused exactly when its name is; otherwise it is a new sheet holding exactly the saved metadata, and the other sheets are unchanged |
| Export.BookSheets | plan_b/exporters/xlsx/__init__.py:26-58 | the workbook's sheets are distinct: the team sheets, the release sheets, then `Meta` |
| Export.FinishBook | plan_b/exporters/xlsx/__init__.py:58-61 | adding `Meta` fails exactly when its name is refused; otherwise the workbook holds the filled sheets and `Meta` |
| Export.BookExported | plan_b/exporters/xlsx/__init__.py:14-61 | filled sheets and the saved metadata make an exported workbook |
| Export.ExportPlan | plan_b/exporters/xlsx/__init__.py:14-61 | `export_plan`: fails on the first refused sheet name, then on the first failing release, then on the first team whose calendar fails, then on `Meta`'s name; otherwise the sheets are named team by team, release by release and `Meta`, and the workbook is exactly the exported one |

## Left out

- I/O is not modelled:
  - the Jira client and its search and comment calls (`plan_b/issue_data_sources/jira.py:104-117`, `:132`): raw issues and comments are inputs;
  - xlsxwriter's `Workbook`/`close` and openpyxl's `load_workbook`: sheets are objects of the model's worksheet class, and a loaded sheet is a table of values;
  - `os.path` and the file system;
  - logging.
- YAML loading (`yaml.load` in `plan_b/exporters/config.py`) is not modelled. Config starts from the values YAML would produce.
- `plan_b/exporters/xlsx/formats.py` is not part of this model. Formats are opaque tokens chosen by the builders, and confidence formats are a colour and a border.
- Column widths are recorded as `(first, last, width)` entries on the sheet. Their rendering is not modelled.
- `plan_b/cli.py`, `setup.py`, the database schema and its migrations are not part of this model.
- `tests/cli/test_cli.py` is not modelled; its names only serve as example data.
- Text.Strip: strips the ASCII whitespace, the separators U+001C to U+001F, U+0085 and U+00A0. Python's `str.strip` also strips the other Unicode spaces, such as U+2000 to U+200A and U+3000.
- Text.ParseInt: reads ASCII digits only. Python's `int()` also accepts underscores between digits (`int('1_0') == 10`, so the holiday item `1_0-12` means days 10 to 12) and any Unicode decimal digit (`int('١') == 1`). The model reads such texts as not a number.
- Text.IsDigits: true for ASCII digits only. Python's `str.isdigit()` is also true for other digits, such as superscripts. For the item `²`, `plan_b/exporters/config.py:79-80` raises `ValueError` from `int()`, while the model ignores that item.
- Text.Lower: lower-cases the ASCII letters `A` to `Z` only. Python's `str.lower` lower-cases every Unicode letter, for example Cyrillic names.
- Text.ParseDecimal: `float()` is reduced to plain decimal literals, read as exact `real` values. Exponents, `inf`/`nan`, underscores and IEEE rounding are not modelled. Efforts, efficiencies and multipliers are `real`, and `int()` is truncation toward zero.
- TeamCalendar.MonthHeaders: month headers are date cells (`Day`), not `strftime` text under the process locale.
- Config.MonthDescriptor: months are keyed by number. The `month_abbr` lookup by locale abbreviation is not modelled.
- Dates.ParseIso: `dateutil.parser.parse` is reduced to `YYYY-MM-DD`, the form `save_metadata` writes. Other date formats that dateutil accepts are not modelled.
- Metadata.ReadItem: an `Item` row whose name cell is not text is skipped. Python would keep it under a non-string key.
- Layout.Merged: `merge_dicts` extends d1's lists in place, so the caller's lists are aliased. Layout.MergeDicts builds fresh values, and that aliasing is not modelled.
- TeamCalendar.CellText: a reference above the first row is printed with its row number as it is (row -3 of column B reads `B-2`), as older XlsxWriter releases do. Newer releases return `None` there, so the difference formula would hold the text `None`. `setup.py` does not pin the XlsxWriter version. Such a row occurs when the difference row refers to more rows above it than the table has (team_calendar.py:157-158), for example a dev team of 2 with one reference in a plan of 14 releases.
- Release references are keyed by team value (`map<Team, ...>`), not by object identity as Python's dictionaries key them. Two teams equal in name and members are one key.
- Jira.CountKnownBugs: known-bug counts are keyed by team name (`map<string, nat>`), while `plan_b/issue_data_sources/jira.py:156` keys them by the `Team` object. The two agree because team names in a configuration are unique. Previous allocations from `Meta` are keyed by team name, as in the code.
- Teams.Efficiency: float arithmetic is exact `real` arithmetic, and the elapsed days come from the model's ordinal day count.
- Layout.Sheet.MergeRange: records every merge with its caption, a one-cell range included. XlsxWriter's `merge_range` refuses a one-cell range with the warning "Can't merge single cell" and writes nothing. The header's `QA effort` merge (`plan_b/exporters/xlsx/release.py:237-240`) is such a range in a plan with no QA team, so there the model records a merge and caption that the workbook would not hold.
- Plan.ProductRelease: modelled as a value. `_export_issues_for_releases` is modelled in PlanIssues, where the release list is rebuilt rather than mutated in place.

## Findings

| source | as written | input that shows it | evidently intended | confidence | as-written member | corrected member |
|---|---|---|---|---|---|---|
| plan_b/plan.py:51 | `release.issues = ...export_issues(...)` stores the pair `(epics_and_stories, known_bugs_count)` that `export_issues` returns (`plan_b/issue_data_sources/jira.py:161`). `fill_release_worksheet` then iterates over that pair, and `x.owned_by_team` raises `AttributeError` (`plan_b/exporters/xlsx/release.py:337`). | any release, even one whose query returns no issue: the pair is `([], {...})`, whose first element is a list and not an issue | store only the issues, `release.issues, _ = ...export_issues(...)` | high (from the code, not executed) | PlanIssues.StoredPairFails | PlanIssues.ExportIssuesForReleases |
