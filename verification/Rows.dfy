/** Rows of the `jobs` and `snapshots` tables and the effect of each SQL statement on one row. */
module Rows {

  datatype Option<+T> = None | Some(value: T)

  type JobId = nat
  type SnapId = nat
  type RepoId = string
  type Branch = string
  type Sha = string
  type Time = int // microseconds, the resolution of TIMESTAMPTZ

  const MINUTE: Time := 60_000_000
  const TIMEOUT_MINUTES := 20

  datatype Status = Queued | Running | Succeeded | Failed | Cancelled | Superseded {
    predicate IsTerminal() {
      match this
      case Succeeded => true
      case Failed => true
      case Cancelled => true
      case Superseded => true
      case _ => false
    }

    /** The order in which statuses may follow each other. */
    function Rank(): nat {
      if Queued? then 0 else if Running? then 1 else 2
    }
  }

  datatype Job = Job(
    repo: RepoId,
    branch: Branch,
    sha: Sha,
    delivery: Option<string>,
    status: Status,
    error: Option<string>,
    createdAt: Time,
    startedAt: Option<Time>,
    finishedAt: Option<Time>
  )

  datatype Snapshot = Snapshot(repo: RepoId, job: JobId, branch: Branch, sha: Sha, path: string)

  /** A validated push event with its delivery id ("" when the header is missing). */
  datatype Push = Push(repo: RepoId, branch: Branch, sha: Sha, delivery: string)

  /** The body of a completion callback: the validator forces a message on failure and a path on success. */
  datatype Completion = Success(path: string) | Failure(message: string)

  // ----- one row, one statement -----

  function NullIfEmpty(s: string): Option<string> {
    if s == "" then None else Some(s)
  }

  function NewRow(p: Push, now: Time): Job {
    Job(p.repo, p.branch, p.sha, NullIfEmpty(p.delivery), Queued, None, now, None, None)
  }

  function SetStatus(row: Job, status: Status, error: Option<string>, now: Time): Job {
    row.(status := status,
         error := error,
         startedAt := if status == Running then Some(now) else row.startedAt,
         finishedAt := if status.IsTerminal() then Some(now) else row.finishedAt)
  }

  function ClaimRow(row: Job, now: Time): Job {
    row.(status := Running, startedAt := Some(now))
  }

  predicate Overdue(row: Job, now: Time) {
    row.status == Running && row.startedAt.Some? && row.startedAt.value < now - TIMEOUT_MINUTES * MINUTE
  }

  const TIMED_OUT := "Job timed out"

  function TimeoutRow(row: Job, now: Time): Job {
    row.(status := Failed, error := Some(TIMED_OUT), finishedAt := Some(now))
  }

  const REPO_NOT_FOUND := "repo not found for job"

  function CompletedRow(row: Job, c: Completion, now: Time): Job {
    match c
    case Success(_) => SetStatus(row, Succeeded, None, now)
    case Failure(m) => SetStatus(row, Failed, NullIfEmpty(m), now)
  }

  predicate SameKey(a: Snapshot, b: Snapshot) {
    a.repo == b.repo && a.branch == b.branch && a.sha == b.sha
  }

  predicate OnBranch(row: Job, repo: RepoId, branch: Branch) {
    row.repo == repo && row.branch == branch
  }

  // ----- what every committed row satisfies, and how a row may change -----

  predicate RowOk(row: Job) {
    && (row.finishedAt.Some? <==> row.status.IsTerminal())
    && (row.status == Queued ==> row.startedAt.None?)
    && (row.status == Running || row.status == Succeeded ==> row.startedAt.Some?)
    && (row.status != Failed ==> row.error.None?)
    && (row.status == Failed ==> row.error.Some? && row.error.value != "")
    && row.status != Cancelled
    && row.status != Superseded
    && row.delivery != Some("")
  }

  /** `b` may replace `a`: the identity of the row is kept, the status never moves back,
      the SHA is fixed once the job has left the queue and `started_at` once it is set. */
  predicate Evolves(a: Job, b: Job) {
    && b.repo == a.repo && b.branch == a.branch && b.delivery == a.delivery && b.createdAt == a.createdAt
    && a.status.Rank() <= b.status.Rank()
    && (a.status.IsTerminal() ==> b.status == a.status)
    && (a.status != Queued ==> b.sha == a.sha)
    && (a.startedAt.Some? ==> b.startedAt == a.startedAt)
  }

  // ----- object paths -----

  function SnapshotPath(org: string, repo: string, sha: Sha): string {
    org + "/" + repo + "/" + sha + "/snapshot.json"
  }

  predicate NoSlash(s: string) {
    forall i :: 0 <= i < |s| ==> s[i] != '/'
  }

  lemma CutAtSlash(a: string, x: string, b: string, y: string)
    requires NoSlash(a) && NoSlash(b)
    requires a + "/" + x == b + "/" + y
    ensures a == b && x == y
  {
    var l, r := a + "/" + x, b + "/" + y;
    assert l[|a|] == '/' && r[|b|] == '/';
    assert |a| == |b|;
    assert a == l[..|a|] && b == r[..|b|];
    assert x == l[|a| + 1..] && y == r[|b| + 1..];
  }

  /** An object path determines the repository and the commit it was written for. */
  lemma SnapshotPathInjective(org: string, repo: string, sha: Sha, org': string, repo': string, sha': Sha)
    requires NoSlash(org) && NoSlash(org') && NoSlash(repo) && NoSlash(repo')
    requires SnapshotPath(org, repo, sha) == SnapshotPath(org', repo', sha')
    ensures org == org' && repo == repo' && sha == sha'
  {
    var tail, tail' := sha + "/snapshot.json", sha' + "/snapshot.json";
    assert SnapshotPath(org, repo, sha) == org + "/" + (repo + "/" + tail);
    assert SnapshotPath(org', repo', sha') == org' + "/" + (repo' + "/" + tail');
    CutAtSlash(org, repo + "/" + tail, org', repo' + "/" + tail');
    CutAtSlash(repo, tail, repo', tail');
    assert sha == tail[..|tail| - 14] && sha' == tail'[..|tail'| - 14];
  }
}
