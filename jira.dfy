/**
 * The Jira issue data source of `plan_b/issue_data_sources/jira.py` past its client calls: the
 * search result and each issue's comments are inputs, and what is modelled is how they are
 * shaped into plan issues and known-bug counts.
 */
module Jira {
  import opened Wrappers
  import opened Text
  import opened Teams
  import opened Issues

  /** The server used for issue links when the raw issue carries no client options. */
  const DefaultServer: string := "https://jira.domain"

  /** A comment as `JiraComment(author name, body)`. */
  datatype Comment = Comment(author: string, body: string)

  /**
   * The fields of a raw search result the exporter reads: the client server (absent without
   * `_options`), the issue type name, the assignee's name (absent when unassigned), the status
   * name, the epic link, and the comments the client returns for the issue.
   */
  datatype RawIssue = RawIssue(
    key: string,
    server: Option<string>,
    kind: string,
    summary: string,
    assignee: Option<string>,
    status: string,
    epicLink: Option<string>,
    comments: seq<Comment>)

  /** The `url` of `make_jira_issue_from_raw_data`. */
  function IssueUrl(server: Option<string>, key: string): string {
    (if server.Some? then server.value else DefaultServer) + "/browse/" + key
  }

  /** An issue link is the server, then `/browse/`, then the key; the default server stands in for a missing one. */
  lemma IssueUrlParts(server: Option<string>, key: string)
    ensures var base := if server.Some? then server.value else DefaultServer;
      var url := IssueUrl(server, key);
      && |url| == |base| + 8 + |key|
      && url[..|base|] == base
      && url[|base|..|base| + 8] == "/browse/"
      && url[|base| + 8..] == key
    ensures server.None? ==> StartsWith(IssueUrl(server, key), "https://jira.domain/browse/")
  {
    var base := if server.Some? then server.value else DefaultServer;
    var url := IssueUrl(server, key);
    assert url == base + "/browse/" + key;
    if server.None? {
      assert url[..|"https://jira.domain/browse/"|] == "https://jira.domain/browse/";
    }
  }

  // ---------------------------------------------------------------------------
  // _find_and_parse_plan_comment

  /**
   * The comment loop from the estimates `acc` gathered so far: comments without a plan estimate
   * are skipped, the others are stored under their team (None when no team matched).
   */
  function PlanEstimatesFrom(comments: seq<Comment>, teams: seq<Team>, acc: EstimatesByTeam): Result<EstimatesByTeam> {
    if comments == [] then Ok(acc)
    else
      var parsed :- ParseWorkEstimate(comments[0].body, comments[0].author, teams);
      PlanEstimatesFrom(comments[1..], teams, Record(acc, parsed))
  }

  /** Stores a parsed comment's estimate under its team; a comment without an estimate changes nothing. */
  function Record(acc: EstimatesByTeam, parsed: (Option<WorkEstimate>, Option<string>)): (r: EstimatesByTeam)
    ensures forall team :: Find(r, team) == if parsed.0.Some? && parsed.1 == team then parsed.0 else Find(acc, team)
  {
    if parsed.0.None? then acc else acc[parsed.1 := parsed.0.value]
  }

  function PlanEstimates(comments: seq<Comment>, teams: seq<Team>): Result<EstimatesByTeam> {
    PlanEstimatesFrom(comments, teams, map[])
  }

  /** The estimate of the last comment, after `acc`, that carries a plan estimate for `team`. */
  function LastEstimateFor(comments: seq<Comment>, teams: seq<Team>, team: Option<string>, acc: Option<WorkEstimate>): Option<WorkEstimate> {
    if comments == [] then acc
    else
      LastEstimateFor(comments[1..], teams, team, CommentEstimateFor(comments[0], teams, team, acc))
  }

  /** The comment's estimate when it is a plan comment for `team`, `acc` otherwise. */
  function CommentEstimateFor(c: Comment, teams: seq<Team>, team: Option<string>, acc: Option<WorkEstimate>): Option<WorkEstimate> {
    var parsed := ParseWorkEstimate(c.body, c.author, teams);
    if parsed.Ok? && parsed.value.0.Some? && parsed.value.1 == team then parsed.value.0 else acc
  }

  function Find(m: EstimatesByTeam, team: Option<string>): Option<WorkEstimate> {
    if team in m then Some(m[team]) else None
  }

  /**
   * Each team's entry holds the estimate of the last plan comment attributed to it, and a team
   * with no such comment has no entry.
   */
  lemma {:induction false} PlanEstimatesLastWins(comments: seq<Comment>, teams: seq<Team>, acc: EstimatesByTeam, team: Option<string>)
    requires PlanEstimatesFrom(comments, teams, acc).Ok?
    ensures Find(PlanEstimatesFrom(comments, teams, acc).value, team) == LastEstimateFor(comments, teams, team, Find(acc, team))
  {
    if comments != [] {
      var parsed := ParseWorkEstimate(comments[0].body, comments[0].author, teams).value;
      PlanEstimatesLastWins(comments[1..], teams, Record(acc, parsed), team);
    }
  }

  /** A comment that is not a plan comment changes nothing. */
  lemma SkipsNonPlanComment(c: Comment, rest: seq<Comment>, teams: seq<Team>, acc: EstimatesByTeam)
    requires !StartsWith(Strip(c.body), "#plan")
    ensures PlanEstimatesFrom([c] + rest, teams, acc) == PlanEstimatesFrom(rest, teams, acc)
  {
    NoMarkerNoEstimate(c.body, c.author, teams);
    assert ([c] + rest)[1..] == rest;
  }

  /** `_find_and_parse_plan_comment` as written: a loop over the comments. */
  method FindAndParsePlanComment(comments: seq<Comment>, teams: seq<Team>) returns (r: Result<EstimatesByTeam>)
    ensures r == PlanEstimates(comments, teams)
  {
    var estimates: EstimatesByTeam := map[];
    for i := 0 to |comments|
      invariant PlanEstimatesFrom(comments[i..], teams, estimates) == PlanEstimates(comments, teams)
    {
      assert comments[i..][1..] == comments[i + 1..];
      var parsed := ParseWorkEstimateText(comments[i].body, comments[i].author, teams);
      if parsed.Err? {
        return Err(parsed.error);
      }
      var (estimate, teamName) := parsed.value;
      if estimate.None? {
        continue;
      }
      estimates := estimates[teamName := estimate.value];
    }
    assert comments[|comments|..] == [];
    return Ok(estimates);
  }

  // ---------------------------------------------------------------------------
  // export_issues

  /** The elements of `xs` that `keep` accepts, in order. */
  function Filter<T(!new)>(xs: seq<T>, keep: T -> bool): (r: seq<T>)
    ensures |r| <= |xs|
    ensures forall x {:trigger x in r} :: x in r <==> x in xs && keep(x)
  {
    if xs == [] then []
    else Filter(xs[..|xs| - 1], keep) + (if keep(xs[|xs| - 1]) then [xs[|xs| - 1]] else [])
  }

  /** Filtering keeps order: it distributes over concatenation. */
  lemma {:induction false} FilterConcat<T(!new)>(a: seq<T>, b: seq<T>, keep: T -> bool)
    ensures Filter(a + b, keep) == Filter(a, keep) + Filter(b, keep)
  {
    if b != [] {
      assert (a + b)[..|a + b| - 1] == a + b[..|b| - 1];
      FilterConcat(a, b[..|b| - 1], keep);
    } else {
      assert a + b == a;
    }
  }

  lemma FilterSnoc<T(!new)>(xs: seq<T>, x: T, keep: T -> bool)
    ensures Filter(xs + [x], keep) == Filter(xs, keep) + (if keep(x) then [x] else [])
  {
    assert (xs + [x])[..|xs|] == xs;
  }

  predicate IsWorkItem(x: RawIssue) { x.kind == "Epic" || x.kind == "Story" }

  predicate IsKnownBug(x: RawIssue) { x.kind == "Bug" || x.kind == "Bug US" }

  function EpicKeys(raw: seq<RawIssue>): (keys: set<string>)
    ensures forall k :: k in keys <==> exists i :: 0 <= i < |raw| && raw[i].kind == "Epic" && raw[i].key == k
  {
    if raw == [] then {}
    else
      var front := raw[..|raw| - 1];
      var last := raw[|raw| - 1];
      assert forall i :: 0 <= i < |front| ==> front[i] == raw[i];
      EpicKeys(front) + (if last.kind == "Epic" then {last.key} else {})
  }

  lemma EpicKeysSnoc(raw: seq<RawIssue>, x: RawIssue)
    ensures EpicKeys(raw + [x]) == EpicKeys(raw) + (if x.kind == "Epic" then {x.key} else {})
  {
    assert (raw + [x])[..|raw|] == raw;
  }

  /** A story already covered by an epic of the same result. */
  predicate LinkedToEpic(x: RawIssue, epics: set<string>) {
    x.kind == "Story" && x.epicLink.Some? && x.epicLink.value in epics
  }

  function Unlinked(items: seq<RawIssue>, epics: set<string>): seq<RawIssue> {
    Filter(items, x => !LinkedToEpic(x, epics))
  }

  /** Epics and stories become work items, bugs known bugs; every other type is dropped. */
  lemma Classification(raw: seq<RawIssue>, x: RawIssue)
    ensures x in Filter(raw, IsWorkItem) <==> x in raw && (x.kind == "Epic" || x.kind == "Story")
    ensures x in Filter(raw, IsKnownBug) <==> x in raw && (x.kind == "Bug" || x.kind == "Bug US")
    ensures !(x in Filter(raw, IsWorkItem) && x in Filter(raw, IsKnownBug))
  {
  }

  /** The search loop: collects the epic keys, the work items and the known bugs. */
  method ClassifyIssues(raw: seq<RawIssue>) returns (epics: set<string>, items: seq<RawIssue>, bugs: seq<RawIssue>)
    ensures epics == EpicKeys(raw)
    ensures items == Filter(raw, IsWorkItem)
    ensures bugs == Filter(raw, IsKnownBug)
  {
    epics, items, bugs := {}, [], [];
    for i := 0 to |raw|
      invariant epics == EpicKeys(raw[..i])
      invariant items == Filter(raw[..i], IsWorkItem)
      invariant bugs == Filter(raw[..i], IsKnownBug)
    {
      assert raw[..i + 1] == raw[..i] + [raw[i]];
      epics, items, bugs := ClassifyIssue(raw[..i], raw[i], epics, items, bugs);
    }
    assert raw[..|raw|] == raw;
  }

  /** One issue of the search loop. */
  method ClassifyIssue(seen: seq<RawIssue>, x: RawIssue, epics: set<string>, items: seq<RawIssue>, bugs: seq<RawIssue>)
    returns (epics': set<string>, items': seq<RawIssue>, bugs': seq<RawIssue>)
    requires epics == EpicKeys(seen) && items == Filter(seen, IsWorkItem) && bugs == Filter(seen, IsKnownBug)
    ensures epics' == EpicKeys(seen + [x])
    ensures items' == Filter(seen + [x], IsWorkItem)
    ensures bugs' == Filter(seen + [x], IsKnownBug)
  {
    FilterSnoc(seen, x, IsWorkItem);
    FilterSnoc(seen, x, IsKnownBug);
    EpicKeysSnoc(seen, x);
    epics', items', bugs' := epics, items, bugs;
    if x.kind == "Epic" {
      epics' := epics + {x.key};
    }
    if x.kind == "Epic" || x.kind == "Story" {
      items' := items + [x];
    }
    if x.kind == "Bug" || x.kind == "Bug US" {
      bugs' := bugs + [x];
    }
  }

  /** The filter loop: stories linked to an epic of the result are skipped. */
  method SkipLinkedStories(items: seq<RawIssue>, epics: set<string>) returns (kept: seq<RawIssue>)
    ensures kept == Unlinked(items, epics)
  {
    kept := [];
    for i := 0 to |items|
      invariant kept == Unlinked(items[..i], epics)
    {
      assert items[..i + 1][..i] == items[..i];
      if items[i].kind == "Story" && items[i].epicLink.Some? && items[i].epicLink.value in epics {
        continue;
      }
      kept := kept + [items[i]];
    }
    assert items[..|items|] == items;
  }

  /** The plan issue built from one work item: its plan comments, then its owner by assignee. */
  function WorkItemIssue(x: RawIssue, teams: seq<Team>): (r: Result<Issue>)
    ensures r.Ok? ==> (r.value.key == x.key && r.value.url == IssueUrl(x.server, x.key)
      && x.assignee.Some? && r.value.owner == MatchTeamByWorkerName(x.assignee.value, teams)
      && PlanEstimates(x.comments, teams).Ok? && r.value.original == PlanEstimates(x.comments, teams).value)
  {
    var estimates :- PlanEstimates(x.comments, teams);
    if x.assignee.None? then Err(NoAssignee(x.key))
    else
      var owner := MatchTeamByWorkerName(x.assignee.value, teams);
      var status := Some(x.status);
      Ok(Issue(x.key, x.summary, IssueUrl(x.server, x.key), status, owner, estimates, RemainingEstimates(status, estimates)))
  }

  /** Applies `f` to each element in order after the results `acc`; the first failure ends the loop. */
  function Traverse<A, B>(xs: seq<A>, f: A -> Result<B>, acc: seq<B>): (r: Result<seq<B>>)
    ensures r.Ok? ==> |r.value| == |acc| + |xs|
  {
    if xs == [] then Ok(acc)
    else
      var y :- f(xs[0]);
      Traverse(xs[1..], f, acc + [y])
  }

  /** A successful traversal keeps `acc` and then holds the result of each element, in order. */
  lemma {:induction false} TraverseInOrder<A, B>(xs: seq<A>, f: A -> Result<B>, acc: seq<B>)
    requires Traverse(xs, f, acc).Ok?
    ensures var r := Traverse(xs, f, acc).value;
      && r[..|acc|] == acc
      && forall i :: 0 <= i < |xs| ==> f(xs[i]) == Ok(r[|acc| + i])
  {
    if xs != [] {
      var acc' := acc + [f(xs[0]).value];
      TraverseInOrder(xs[1..], f, acc');
      var r := Traverse(xs, f, acc).value;
      assert r[..|acc|] == r[..|acc'|][..|acc|];
      assert r[|acc|] == r[..|acc'|][|acc|];
      forall i | 1 <= i < |xs| ensures f(xs[i]) == Ok(r[|acc| + i]) {
        assert xs[i] == xs[1..][i - 1];
      }
    }
  }

  /** A traversal fails exactly when some element fails, with the error of the first one. */
  lemma {:induction false} TraverseFails<A, B>(xs: seq<A>, f: A -> Result<B>, acc: seq<B>)
    ensures Traverse(xs, f, acc).Err? <==> exists i :: 0 <= i < |xs| && f(xs[i]).Err?
    ensures Traverse(xs, f, acc).Err? ==> exists i :: (0 <= i < |xs| && f(xs[i]) == Err(Traverse(xs, f, acc).error)
      && forall j :: 0 <= j < i ==> f(xs[j]).Ok?)
  {
    if xs != [] {
      if f(xs[0]).Ok? {
        TraverseFails(xs[1..], f, acc + [f(xs[0]).value]);
        assert forall i :: 1 <= i < |xs| ==> xs[i] == xs[1..][i - 1];
      } else {
        assert f(xs[0]).Err?;
      }
    }
  }

  function WorkItemIssues(items: seq<RawIssue>, teams: seq<Team>): Result<seq<Issue>> {
    Traverse(items, x => WorkItemIssue(x, teams), [])
  }

  method MakeWorkItemIssue(x: RawIssue, teams: seq<Team>) returns (r: Result<Issue>)
    ensures r == WorkItemIssue(x, teams)
  {
    var estimates := FindAndParsePlanComment(x.comments, teams);
    if estimates.Err? {
      return Err(estimates.error);
    }
    if x.assignee.None? {
      return Err(NoAssignee(x.key));
    }
    var owner := MatchTeamByWorkerName(x.assignee.value, teams);
    var issue := MakeIssue(x.key, x.summary, IssueUrl(x.server, x.key), Some(x.status), owner, estimates.value);
    return Ok(issue);
  }

  /** The loop turning the kept work items into plan issues. */
  method ShapeWorkItems(items: seq<RawIssue>, teams: seq<Team>) returns (r: Result<seq<Issue>>)
    ensures r == WorkItemIssues(items, teams)
  {
    var issues: seq<Issue> := [];
    for i := 0 to |items|
      invariant Traverse(items[i..], x => WorkItemIssue(x, teams), issues) == WorkItemIssues(items, teams)
    {
      assert items[i..][1..] == items[i + 1..];
      var issue := MakeWorkItemIssue(items[i], teams);
      if issue.Err? {
        return Err(issue.error);
      }
      issues := issues + [issue.value];
    }
    assert items[|items|..] == [];
    return Ok(issues);
  }

  // ---------------------------------------------------------------------------
  // Known bugs per dev team (teams are keyed by name)

  function DevTeamNames(teams: seq<Team>): set<string> {
    set i | 0 <= i < |teams| && IsDev(teams[i]) :: teams[i].name
  }

  /** `{x: 0 for x in teams if x.is_dev()}`. */
  function InitialBugCounts(teams: seq<Team>): (counts: map<string, nat>)
    ensures counts.Keys == DevTeamNames(teams)
    ensures forall t :: t in counts ==> counts[t] == 0
  {
    map t | t in DevTeamNames(teams) :: 0
  }

  /** The team a bug is attributed to, by its assignee. */
  function BugOwner(bug: RawIssue, teams: seq<Team>): Option<string> {
    if bug.assignee.None? then None
    else
      match MatchTeamByWorkerName(bug.assignee.value, teams)
      case None => None
      case Some(t) => Some(t.name)
  }

  /** One more bug for `owner`, whose count must exist. */
  function CountOwned(owner: Option<string>, key: string, counts: map<string, nat>): (r: Result<map<string, nat>>)
    ensures r.Ok? <==> owner.Some? && owner.value in counts
    ensures r.Ok? ==> r.value == counts[owner.value := counts[owner.value] + 1]
  {
    if owner.None? || owner.value !in counts then Err(BugOwnerNotDevTeam(key))
    else Ok(counts[owner.value := counts[owner.value] + 1])
  }

  /** One bug of the loop: an unassigned bug fails, the others count for their owner. */
  function CountBug(bug: RawIssue, teams: seq<Team>, counts: map<string, nat>): (r: Result<map<string, nat>>)
    ensures r.Ok? <==> BugOwner(bug, teams).Some? && BugOwner(bug, teams).value in counts
    ensures r.Err? && bug.assignee.None? ==> r.error == NoAssignee(bug.key)
  {
    if bug.assignee.None? then Err(NoAssignee(bug.key))
    else CountOwned(BugOwner(bug, teams), bug.key, counts)
  }

  /** The bug loop from the counts so far. */
  function CountBugsFrom(bugs: seq<RawIssue>, teams: seq<Team>, counts: map<string, nat>): (r: Result<map<string, nat>>)
    ensures r.Ok? ==> r.value.Keys == counts.Keys
  {
    if bugs == [] then Ok(counts)
    else
      var next :- CountBug(bugs[0], teams, counts);
      CountBugsFrom(bugs[1..], teams, next)
  }

  /** The number of bugs attributed to `team`. */
  function BugsOwnedBy(bugs: seq<RawIssue>, teams: seq<Team>, team: string): nat {
    if bugs == [] then 0
    else (if BugOwner(bugs[0], teams) == Some(team) then 1 else 0) + BugsOwnedBy(bugs[1..], teams, team)
  }

  /** Counting succeeds exactly when every bug is assigned to a member of a counted team. */
  lemma {:induction false} CountBugsSucceeds(bugs: seq<RawIssue>, teams: seq<Team>, counts: map<string, nat>)
    ensures CountBugsFrom(bugs, teams, counts).Ok? <==>
      forall i :: 0 <= i < |bugs| ==> BugOwner(bugs[i], teams).Some? && BugOwner(bugs[i], teams).value in counts
  {
    if bugs != [] {
      var next := CountBug(bugs[0], teams, counts);
      if next.Ok? {
        assert CountBugsFrom(bugs, teams, counts) == CountBugsFrom(bugs[1..], teams, next.value);
        assert next.value.Keys == counts.Keys;
        CountBugsSucceeds(bugs[1..], teams, next.value);
        assert forall i :: 1 <= i < |bugs| ==> bugs[i] == bugs[1..][i - 1];
      } else {
        assert !(BugOwner(bugs[0], teams).Some? && BugOwner(bugs[0], teams).value in counts);
      }
    }
  }

  /** Each team's count grows by exactly the number of bugs attributed to it. */
  lemma {:induction false} CountBugsExactly(bugs: seq<RawIssue>, teams: seq<Team>, counts: map<string, nat>, team: string)
    requires CountBugsFrom(bugs, teams, counts).Ok? && team in counts
    ensures CountBugsFrom(bugs, teams, counts).value[team] == counts[team] + BugsOwnedBy(bugs, teams, team)
  {
    if bugs != [] {
      CountBugsExactly(bugs[1..], teams, CountBug(bugs[0], teams, counts).value, team);
    }
  }

  method CountBugStep(bug: RawIssue, teams: seq<Team>, counts: map<string, nat>) returns (r: Result<map<string, nat>>)
    ensures r == CountBug(bug, teams, counts)
  {
    if bug.assignee.None? {
      return Err(NoAssignee(bug.key));
    }
    var owner := BugOwner(bug, teams);
    if owner.None? || owner.value !in counts {
      return Err(BugOwnerNotDevTeam(bug.key));
    }
    return Ok(counts[owner.value := counts[owner.value] + 1]);
  }

  /** The known-bugs loop. */
  method CountKnownBugs(bugs: seq<RawIssue>, teams: seq<Team>) returns (r: Result<map<string, nat>>)
    ensures r == CountBugsFrom(bugs, teams, InitialBugCounts(teams))
  {
    var counts := InitialBugCounts(teams);
    for i := 0 to |bugs|
      invariant CountBugsFrom(bugs[i..], teams, counts) == CountBugsFrom(bugs, teams, InitialBugCounts(teams))
    {
      assert bugs[i..][1..] == bugs[i + 1..];
      var next := CountBugStep(bugs[i], teams, counts);
      if next.Err? {
        return Err(next.error);
      }
      counts := next.value;
    }
    assert bugs[|bugs|..] == [];
    return Ok(counts);
  }

  /** `export_issues` past the client calls: the plan issues, then the known-bug counts. */
  function ExportIssuesOf(raw: seq<RawIssue>, teams: seq<Team>): Result<(seq<Issue>, map<string, nat>)> {
    var items := Unlinked(Filter(raw, IsWorkItem), EpicKeys(raw));
    var issues :- WorkItemIssues(items, teams);
    var counts :- CountBugsFrom(Filter(raw, IsKnownBug), teams, InitialBugCounts(teams));
    Ok((issues, counts))
  }

  method ExportIssues(raw: seq<RawIssue>, teams: seq<Team>) returns (r: Result<(seq<Issue>, map<string, nat>)>)
    ensures r == ExportIssuesOf(raw, teams)
  {
    var epics, items, bugs := ClassifyIssues(raw);
    var kept := SkipLinkedStories(items, epics);
    var issues := ShapeWorkItems(kept, teams);
    if issues.Err? {
      return Err(issues.error);
    }
    var counts := CountKnownBugs(bugs, teams);
    if counts.Err? {
      return Err(counts.error);
    }
    return Ok((issues.value, counts.value));
  }

  /**
   * A successful export holds one issue per kept work item in query order, and a bug count for
   * every dev team equal to the number of bugs attributed to it.
   */
  lemma ExportShape(raw: seq<RawIssue>, teams: seq<Team>)
    requires ExportIssuesOf(raw, teams).Ok?
    ensures var items := Unlinked(Filter(raw, IsWorkItem), EpicKeys(raw));
      var (issues, counts) := ExportIssuesOf(raw, teams).value;
      && |issues| == |items|
      && (forall i :: 0 <= i < |items| ==> WorkItemIssue(items[i], teams) == Ok(issues[i]))
      && counts.Keys == DevTeamNames(teams)
      && forall t :: t in counts ==> counts[t] == BugsOwnedBy(Filter(raw, IsKnownBug), teams, t)
  {
    var items := Unlinked(Filter(raw, IsWorkItem), EpicKeys(raw));
    TraverseInOrder(items, x => WorkItemIssue(x, teams), []);
    var bugs := Filter(raw, IsKnownBug);
    forall t | t in DevTeamNames(teams)
      ensures CountBugsFrom(bugs, teams, InitialBugCounts(teams)).value[t] == BugsOwnedBy(bugs, teams, t)
    {
      CountBugsExactly(bugs, teams, InitialBugCounts(teams), t);
    }
  }
}
