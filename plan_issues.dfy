/**
 * `CapacityPlan._export_issues_for_releases` of `plan_b/plan.py`: every release gets the issues
 * the data source exports for its query. As written it stores the whole pair `export_issues`
 * returns (the issues and the known-bug counts), on which the release sheet then fails; the
 * corrected version stores the issues alone.
 */
module PlanIssues {
  import opened Wrappers
  import opened Teams
  import opened Issues
  import opened Plan
  import opened Jira
  import opened Release

  /** What a release's `issues` attribute holds: a list of issues, or the pair as written. */
  datatype Stored = IssueList(issues: seq<Issue>) | ExportPair(issues: seq<Issue>, bugCounts: map<string, nat>)

  /** `release.issues = ...export_issues(...)` as written: the whole pair. */
  function StoredAsWritten(exported: (seq<Issue>, map<string, nat>)): Stored {
    ExportPair(exported.0, exported.1)
  }

  /**
   * The dev-owned issues the release sheet starts from, over what the release holds: iterating the
   * pair yields a list and a dictionary, and neither has `owned_by_team`.
   */
  function DevOwnedOf(release: string, stored: Stored): Result<seq<Issue>> {
    match stored
    case IssueList(issues) => Owned(issues, false)
    case ExportPair(_, _) => Err(NotAnIssue(release))
  }

  /** As written, the sheet of every release fails, whatever the export found, even no issue at all. */
  lemma StoredPairFails(release: string, exported: (seq<Issue>, map<string, nat>))
    ensures DevOwnedOf(release, StoredAsWritten(exported)) == Err(NotAnIssue(release))
  {
  }

  /** What `export_issues` returns for the query of each release, in order. */
  function Exports(raws: seq<seq<RawIssue>>, teams: seq<Team>): (r: seq<Result<(seq<Issue>, map<string, nat>)>>)
    ensures |r| == |raws| && forall k {:trigger r[k]} :: 0 <= k < |raws| ==> r[k] == ExportIssuesOf(raws[k], teams)
  {
    seq(|raws|, k requires 0 <= k < |raws| => ExportIssuesOf(raws[k], teams))
  }

  /**
   * The first `k` releases after they got their issues as intended: release `j` takes the issues
   * of `exports[j]`; the first export that failed stops it.
   */
  function Refreshed(releases: seq<ProductRelease>, exports: seq<Result<(seq<Issue>, map<string, nat>)>>, k: nat): Result<seq<ProductRelease>>
    requires k <= |releases| == |exports|
  {
    if k == 0 then Ok([])
    else
      var before :- Refreshed(releases, exports, k - 1);
      var exported :- exports[k - 1];
      Ok(before + [releases[k - 1].(issues := exported.0)])
  }

  /** Release `k` takes the issues of `exports[k]`, or its error ends the refresh. */
  lemma RefreshedStep(releases: seq<ProductRelease>, exports: seq<Result<(seq<Issue>, map<string, nat>)>>, k: nat,
                      before: seq<ProductRelease>)
    requires k < |releases| == |exports| && Refreshed(releases, exports, k) == Ok(before)
    ensures Refreshed(releases, exports, k + 1)
         == if exports[k].Ok? then Ok(before + [releases[k].(issues := exports[k].value.0)]) else Err(exports[k].error)
  {
  }

  /** A failed export of release `k`, after the releases before it succeeded, is the error of the whole refresh. */
  lemma RefreshedFailsAt(releases: seq<ProductRelease>, exports: seq<Result<(seq<Issue>, map<string, nat>)>>, k: nat,
                         before: seq<ProductRelease>)
    requires k < |releases| == |exports| && Refreshed(releases, exports, k) == Ok(before) && exports[k].Err?
    ensures Refreshed(releases, exports, |releases|) == Err(exports[k].error)
  {
    RefreshedStep(releases, exports, k, before);
    RefreshedStops(releases, exports, k + 1, |releases|);
  }

  /** Once an export has failed, the releases after it change nothing: the error stays. */
  lemma {:induction false} RefreshedStops(releases: seq<ProductRelease>, exports: seq<Result<(seq<Issue>, map<string, nat>)>>, k: nat, n: nat)
    requires k <= n <= |releases| == |exports|
    requires Refreshed(releases, exports, k).Err?
    ensures Refreshed(releases, exports, n) == Refreshed(releases, exports, k)
    decreases n
  {
    if n > k {
      RefreshedStops(releases, exports, k, n - 1);
    }
  }

  /** The refresh succeeds exactly when every export does, and release `j` then holds the issues of `exports[j]`. */
  lemma {:induction false} RefreshedSucceeds(releases: seq<ProductRelease>, exports: seq<Result<(seq<Issue>, map<string, nat>)>>, k: nat)
    requires k <= |releases| == |exports|
    ensures Refreshed(releases, exports, k).Ok? <==> forall j :: 0 <= j < k ==> exports[j].Ok?
    ensures Refreshed(releases, exports, k).Ok? ==> var r := Refreshed(releases, exports, k).value;
      |r| == k && forall j :: 0 <= j < k ==> r[j] == releases[j].(issues := exports[j].value.0)
  {
    if k > 0 {
      RefreshedSucceeds(releases, exports, k - 1);
    }
  }

  /** A failed refresh reports the error of the first export that failed. */
  lemma {:induction false} RefreshedFails(releases: seq<ProductRelease>, exports: seq<Result<(seq<Issue>, map<string, nat>)>>, k: nat)
    requires k <= |releases| == |exports|
    requires Refreshed(releases, exports, k).Err?
    ensures exists i :: (0 <= i < k && (forall j :: 0 <= j < i ==> exports[j].Ok?)
      && exports[i] == Err(Refreshed(releases, exports, k).error))
  {
    if Refreshed(releases, exports, k - 1).Err? {
      RefreshedFails(releases, exports, k - 1);
    } else {
      RefreshedSucceeds(releases, exports, k - 1);
    }
  }

  /** `export_issues` for the query of release `k`, whose result is `exports[k]`. */
  method ExportIssuesAt(raws: seq<seq<RawIssue>>, k: nat, teams: seq<Team>, ghost exports: seq<Result<(seq<Issue>, map<string, nat>)>>)
    returns (r: Result<(seq<Issue>, map<string, nat>)>)
    requires k < |raws| == |exports|
    requires forall k {:trigger ExportIssuesOf(raws[k], teams)} :: 0 <= k < |raws| ==> exports[k] == ExportIssuesOf(raws[k], teams)
    ensures r == exports[k]
  {
    r := ExportIssues(raws[k], teams);
  }

  /**
   * The loop of `_export_issues_for_releases` over the exports its queries give: release `k` takes
   * the issues `export_issues` returns for `raws[k]`, which is `exports[k]`.
   */
  method RefreshReleases(releases: seq<ProductRelease>, raws: seq<seq<RawIssue>>, teams: seq<Team>,
                         ghost exports: seq<Result<(seq<Issue>, map<string, nat>)>>)
    returns (r: Result<seq<ProductRelease>>)
    requires |raws| == |releases| == |exports|
    requires forall k {:trigger ExportIssuesOf(raws[k], teams)} :: 0 <= k < |raws| ==> exports[k] == ExportIssuesOf(raws[k], teams)
    ensures r == Refreshed(releases, exports, |releases|)
  {
    var updated: seq<ProductRelease> := [];
    for k := 0 to |releases|
      invariant Refreshed(releases, exports, k) == Ok(updated)
    {
      var exported := ExportIssuesAt(raws, k, teams, exports);
      if exported.Err? {
        RefreshedFailsAt(releases, exports, k, updated);
        return Err(exported.error);
      }
      RefreshedStep(releases, exports, k, updated);
      updated := updated + [releases[k].(issues := exported.value.0)];
    }
    return Ok(updated);
  }

  /**
   * `_export_issues_for_releases` as intended: every release, in order, gets the issues its query
   * exports in place of its own.
   */
  method ExportIssuesForReleases(releases: seq<ProductRelease>, raws: seq<seq<RawIssue>>, teams: seq<Team>)
    returns (r: Result<seq<ProductRelease>>)
    requires |raws| == |releases|
    ensures r == Refreshed(releases, Exports(raws, teams), |releases|)
    ensures r.Ok? <==> forall k :: 0 <= k < |releases| ==> ExportIssuesOf(raws[k], teams).Ok?
    ensures r.Ok? ==> |r.value| == |releases| && forall k :: 0 <= k < |releases| ==>
      r.value[k] == releases[k].(issues := ExportIssuesOf(raws[k], teams).value.0)
    ensures r.Err? ==> exists k :: (0 <= k < |releases| && (forall j :: 0 <= j < k ==> ExportIssuesOf(raws[j], teams).Ok?)
      && ExportIssuesOf(raws[k], teams) == Err(r.error))
  {
    ghost var exports := Exports(raws, teams);
    r := RefreshReleases(releases, raws, teams, exports);
    RefreshedSucceeds(releases, exports, |releases|);
    if r.Err? {
      RefreshedFails(releases, exports, |releases|);
    }
  }

  /** Stored as intended, the release sheet reads exactly the exported issues. */
  lemma StoredIssuesRead(release: string, exported: (seq<Issue>, map<string, nat>))
    ensures DevOwnedOf(release, IssueList(exported.0)) == Owned(exported.0, false)
  {
  }
}
