/**
 * Teams and workers of `plan_b/team.py`: worker efficiency (constant, or ramping up for a
 * to-be-hired worker), the name-based factories and attribution of a person to a team by surname.
 */
module Teams {
  import opened Wrappers
  import opened Text
  import opened Dates

  /** Efficiency of a worker built without an explicit value (the constructor default). */
  const DefaultEfficiency: real := 0.5
  const TbhStartEfficiency: real := 0.4
  const TbhMaxEfficiency: real := 0.7
  /** Efficiency gained per calendar day by a to-be-hired worker. */
  const TbhDailyGain: real := 0.0015

  /**
   * A `Worker` keeps the efficiency it was given (None when the configuration has none);
   * a `TBHWorker` derives it from the days elapsed since it started.
   */
  datatype Worker =
    | Worker(name: string, efficiency: Option<real>, worksSince: Option<Date>)
    | TbhWorker(name: string, worksSince: Option<Date>)

  predicate WellFormedWorker(w: Worker) {
    w.worksSince.Some? ==> w.worksSince.value.Valid()
  }

  function Min(a: real, b: real): real {
    if a <= b then a else b
  }

  /**
   * `Worker.efficiency(current_date)`. A to-be-hired worker without a start date fails the
   * date subtraction.
   */
  function Efficiency(w: Worker, current: Date): (r: Result<Option<real>>)
    requires current.Valid() && WellFormedWorker(w)
    ensures w.Worker? ==> r == Ok(w.efficiency)
    ensures w.TbhWorker? ==> (r.Err? <==> w.worksSince.None?)
    ensures w.TbhWorker? && r.Ok? ==> r.value.Some? && r.value.value <= TbhMaxEfficiency
    ensures w.TbhWorker? && r.Ok? && !Before(current, w.worksSince.value) ==> r.value.value >= TbhStartEfficiency
  {
    match w
    case Worker(_, e, _) => Ok(e)
    case TbhWorker(name, since) =>
      if since.None? then Err(MissingWorksSince(name))
      else
        OrdinalOrder(current, since.value);
        var days := Ordinal(current) - Ordinal(since.value);
        Ok(Some(TbhStartEfficiency + Min(TbhMaxEfficiency - TbhStartEfficiency, TbhDailyGain * days as real)))
  }

  /** A to-be-hired worker reaches the maximum efficiency after 200 days. */
  lemma TbhReachesMaximum(w: Worker, current: Date)
    requires w.TbhWorker? && w.worksSince.Some? && WellFormedWorker(w) && current.Valid()
    requires Ordinal(current) - Ordinal(w.worksSince.value) >= 200
    ensures Efficiency(w, current) == Ok(Some(TbhMaxEfficiency))
  {
  }

  /** `make_worker`: a name containing `TBH` (case-sensitive) makes a ramp-up worker and drops `efficiency`. */
  function MakeWorker(name: string, efficiency: Option<real>, worksSince: Option<Date>): (w: Worker)
    ensures w.name == name && w.worksSince == worksSince
    ensures w.TbhWorker? <==> Contains(name, "TBH")
  {
    if Contains(name, "TBH") then TbhWorker(name, worksSince) else Worker(name, efficiency, worksSince)
  }

  /** A plain worker's efficiency is its construction value on every date. */
  lemma PlainWorkerEfficiencyConstant(name: string, efficiency: Option<real>, since: Option<Date>, d1: Date, d2: Date)
    requires !Contains(name, "TBH") && d1.Valid() && d2.Valid()
    requires since.Some? ==> since.value.Valid()
    ensures Efficiency(MakeWorker(name, efficiency, since), d1) == Efficiency(MakeWorker(name, efficiency, since), d2) == Ok(efficiency)
  {
  }

  /** `Team` itself answers neither dev nor QA; the factory only builds the two subclasses. */
  datatype TeamKind = Other | Dev | Qa

  datatype Team = Team(name: string, members: seq<Worker>, kind: TeamKind)

  predicate IsDev(t: Team) { t.kind == Dev }
  predicate IsQa(t: Team) { t.kind == Qa }

  lemma DevAndQaExclusive(t: Team)
    ensures !(IsDev(t) && IsQa(t))
    ensures t.kind == Other <==> !IsDev(t) && !IsQa(t)
  {
  }

  /** `[team for team in teams if team.is_dev()]`. */
  function DevTeams(teams: seq<Team>): (r: seq<Team>)
    ensures |r| <= |teams|
    ensures forall t :: t in r <==> t in teams && IsDev(t)
  {
    if teams == [] then []
    else (if IsDev(teams[0]) then [teams[0]] else []) + DevTeams(teams[1..])
  }

  /** `[team for team in teams if team.is_qa()]`. */
  function QaTeams(teams: seq<Team>): (r: seq<Team>)
    ensures |r| <= |teams|
    ensures forall t :: t in r <==> t in teams && IsQa(t)
  {
    if teams == [] then []
    else (if IsQa(teams[0]) then [teams[0]] else []) + QaTeams(teams[1..])
  }

  /** The dev teams of two lists are those of the first, then those of the second: list order is kept. */
  lemma {:induction false} DevTeamsAppend(a: seq<Team>, b: seq<Team>)
    ensures DevTeams(a + b) == DevTeams(a) + DevTeams(b)
  {
    if a == [] {
      assert a + b == b;
    } else {
      assert (a + b)[0] == a[0] && (a + b)[1..] == a[1..] + b;
      DevTeamsAppend(a[1..], b);
    }
  }

  /** The QA teams of two lists are those of the first, then those of the second: list order is kept. */
  lemma {:induction false} QaTeamsAppend(a: seq<Team>, b: seq<Team>)
    ensures QaTeams(a + b) == QaTeams(a) + QaTeams(b)
  {
    if a == [] {
      assert a + b == b;
    } else {
      assert (a + b)[0] == a[0] && (a + b)[1..] == a[1..] + b;
      QaTeamsAppend(a[1..], b);
    }
  }

  /** `make_team`: a QA team exactly when the lower-cased name contains `qa`, a dev team otherwise. */
  function MakeTeam(name: string, workers: seq<Worker>): (t: Team)
    ensures t.name == name && t.members == workers
    ensures IsQa(t) <==> Contains(Lower(name), "qa")
    ensures IsDev(t) <==> !Contains(Lower(name), "qa")
  {
    Team(name, workers, if Contains(Lower(name), "qa") then Qa else Dev)
  }

  /** The lower-cased last `.`-separated segment of a person name. */
  function Surname(name: string): string {
    var parts := Split(name, '.');
    Lower(parts[|parts| - 1])
  }

  /**
   * Whether a member stands for the person `given`: same lower-cased surname, or (for logins
   * such as `ipetrov`) the member's surname occurs in `given` as written.
   */
  predicate MatchesWorker(member: Worker, given: string) {
    Surname(member.name) == Surname(given) || Contains(given, Surname(member.name))
  }

  predicate HasMatchingMember(t: Team, given: string) {
    exists i :: 0 <= i < |t.members| && MatchesWorker(t.members[i], given)
  }

  /** The scan over one team's members, in order. */
  function AnyMemberMatches(members: seq<Worker>, given: string): (b: bool)
    ensures b <==> exists i :: 0 <= i < |members| && MatchesWorker(members[i], given)
  {
    if members == [] then false
    else MatchesWorker(members[0], given) || AnyMemberMatches(members[1..], given)
  }

  /** `match_team_by_worker_name`: the first team, in list order, with a matching member. */
  function MatchTeamByWorkerName(given: string, teams: seq<Team>): (r: Option<Team>)
    ensures r.None? <==> forall i :: 0 <= i < |teams| ==> !HasMatchingMember(teams[i], given)
    ensures r.Some? ==> r.value in teams && HasMatchingMember(r.value, given)
  {
    if teams == [] then None
    else if AnyMemberMatches(teams[0].members, given) then Some(teams[0])
    else
      var r := MatchTeamByWorkerName(given, teams[1..]);
      assert forall i :: 1 <= i < |teams| ==> teams[i] == teams[1..][i - 1];
      r
  }

  /** The position of the first team with a matching member (|teams| when there is none). */
  function FirstMatchingTeam(given: string, teams: seq<Team>): (i: nat)
    ensures i <= |teams|
    ensures forall j :: 0 <= j < i ==> !HasMatchingMember(teams[j], given)
    ensures i < |teams| ==> HasMatchingMember(teams[i], given)
  {
    if teams == [] || HasMatchingMember(teams[0], given) then 0
    else
      var i := FirstMatchingTeam(given, teams[1..]);
      assert forall j :: 1 <= j < |teams| ==> teams[j] == teams[1..][j - 1];
      1 + i
  }

  /** The matched team is the first one in list order that has a matching member. */
  lemma {:induction false} MatchTeamIsFirst(given: string, teams: seq<Team>)
    ensures var i := FirstMatchingTeam(given, teams);
      MatchTeamByWorkerName(given, teams) == if i < |teams| then Some(teams[i]) else None
  {
    if teams != [] && !HasMatchingMember(teams[0], given) {
      MatchTeamIsFirst(given, teams[1..]);
    }
  }

  lemma SurnameOfDotted(first: string, last: string)
    requires '.' !in first && '.' !in last
    ensures Surname(first + ['.'] + last) == Lower(last)
  {
    SplitOnce(first, last, '.');
  }

  lemma LowerIvanov()
    ensures Lower("Ivanov") == "ivanov"
  {
    var low := Lower("Ivanov");
    assert low[0] == 'i' && low[1] == 'v' && low[2] == 'a' && low[3] == 'n' && low[4] == 'o' && low[5] == 'v';
  }

  lemma SurnameOfIvanov(first: string)
    requires '.' !in first
    ensures Surname(first + ['.'] + "Ivanov") == "ivanov"
  {
    SurnameOfDotted(first, "Ivanov");
    LowerIvanov();
  }

  lemma SurnameIvanov()
    ensures Surname("V.Ivanov") == Surname("Vasily.Ivanov") == "ivanov"
  {
    assert "V.Ivanov" == "V" + ['.'] + "Ivanov";
    SurnameOfIvanov("V");
    assert "Vasily.Ivanov" == "Vasily" + ['.'] + "Ivanov";
    SurnameOfIvanov("Vasily");
  }

  /** The teams of the estimate-parsing tests attribute `Vasily.Ivanov` to team `a`. */
  lemma SampleAttribution()
    ensures var a := Team("a", [Worker("V.Ivanov", Some(DefaultEfficiency), None), Worker("P.Smirnov", Some(DefaultEfficiency), None)], Other);
      var b := Team("b", [Worker("A.Petrov", Some(DefaultEfficiency), None), Worker("S.Kuznetsov", Some(DefaultEfficiency), None)], Other);
      MatchTeamByWorkerName("Vasily.Ivanov", [a, b]) == Some(a)
  {
    SurnameIvanov();
  }
}
