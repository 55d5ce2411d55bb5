/** What every run of the protocol guarantees. A run starts from empty tables and interleaves any
    number of pushes, callbacks, claims, failure writes and watchdog sweeps statement by statement. */
module Guarantees {
  import opened Rows
  import opened Protocol
  import opened Invariant
  import Preservation
  import CommitProof

  // ----- from steps to runs -----

  lemma {:induction false} RunInv(ss: seq<State>, es: seq<Event>, n: nat)
    requires Run(ss, es) && n < |ss|
    ensures Inv(ss[n])
  {
    if n == 0 {
      Preservation.InitHolds(ss[0].cfg, ss[0].now);
    } else {
      RunInv(ss, es, n - 1);
      assert Step(ss[n - 1], es[n - 1], ss[n - 1 + 1]);
      Preservation.StepKeeps(ss[n - 1], es[n - 1], ss[n]);
    }
  }

  lemma RunStep(ss: seq<State>, es: seq<Event>, n: nat)
    requires Run(ss, es) && n < |es|
    ensures Step(ss[n], es[n], ss[n + 1]) && Inv(ss[n]) && Inv(ss[n + 1]) && Advances(ss[n], ss[n + 1])
  {
    RunInv(ss, es, n);
    Preservation.StepKeeps(ss[n], es[n], ss[n + 1]);
  }

  lemma RunAdvances(ss: seq<State>, es: seq<Event>, n: nat)
    requires Run(ss, es) && n < |es|
    ensures Advances(ss[n], ss[n + 1])
  {
    RunStep(ss, es, n);
  }

  lemma EvolvesTransitive(a: Job, b: Job, c: Job)
    requires Evolves(a, b) && Evolves(b, c)
    ensures Evolves(a, c)
  {
  }

  lemma LaterTransitive(a: State, b: State, c: State)
    requires Later(a, b) && Later(b, c)
    ensures Later(a, c)
  {
    forall j | j in a.db.jobs
      ensures j in c.db.jobs && Evolves(a.db.jobs[j], c.db.jobs[j])
    {
      EvolvesTransitive(a.db.jobs[j], b.db.jobs[j], c.db.jobs[j]);
    }
  }

  /** Nothing is ever deleted, moved back or rewritten between two points of a run. */
  lemma {:induction false} RunLater(ss: seq<State>, es: seq<Event>, i: nat, k: nat)
    requires Run(ss, es) && i <= k < |ss|
    ensures Later(ss[i], ss[k])
    decreases k
  {
    if i == k {
    } else {
      RunLater(ss, es, i, k - 1);
      RunAdvances(ss, es, k - 1);
      LaterTransitive(ss[i], ss[k - 1], ss[k]);
    }
  }

  // ----- pushes -----

  /** At most one queued job per branch, for every lock hash. */
  lemma AtMostOneQueued(ss: seq<State>, es: seq<Event>, n: nat, repo: RepoId, branch: Branch)
    requires Run(ss, es) && n < |ss|
    ensures |QueuedOn(ss[n].db.jobs, repo, branch)| <= 1
  {
    RunInv(ss, es, n);
    var q := QueuedOn(ss[n].db.jobs, repo, branch);
    if q != {} {
      var j :| j in q;
      assert q == {j} by {
        forall k | k in q ensures k == j {
          assert OneQueued(ss[n].db.jobs);
        }
      }
    }
  }

  /** A queued job carries the commit of the last committed push on its branch, and every job, queued or
      not, the commit of the last push that created or moved it. */
  lemma JobsCarryPushes(ss: seq<State>, es: seq<Event>, n: nat, j: JobId)
    requires Run(ss, es) && n < |ss| && j in ss[n].db.jobs
    ensures var row, pushes := ss[n].db.jobs[j], ss[n].world.pushes;
      && (row.status == Queued ==> LastSha(pushes, row.repo, row.branch) == Some(row.sha))
      && ShaGiven(pushes, j) == Some(row.sha)
  {
    RunInv(ss, es, n);
  }

  function CountMoved(pushes: seq<PushRecord>): nat {
    if pushes == [] then 0
    else CountMoved(pushes[..|pushes| - 1]) + (if pushes[|pushes| - 1].outcome.Updated? then 1 else 0)
  }

  function CountOvertaken(pushes: seq<PushRecord>): nat {
    if pushes == [] then 0
    else CountOvertaken(pushes[..|pushes| - 1]) + (if pushes[|pushes| - 1].outcome.Overtaken? then 1 else 0)
  }

  lemma {:induction false} CountAll(pushes: seq<PushRecord>)
    ensures |pushes| == |Created(pushes)| + CountMoved(pushes) + CountOvertaken(pushes)
  {
    if pushes == [] {
    } else {
      CountAll(pushes[..|pushes| - 1]);
    }
  }

  /** Committed pushes are conserved: each created a row, moved a row, or was overtaken. */
  lemma PushConservation(ss: seq<State>, es: seq<Event>, n: nat)
    requires Run(ss, es) && n < |ss|
    ensures var pushes := ss[n].world.pushes;
      |pushes| == |ss[n].db.jobs| + CountMoved(pushes) + CountOvertaken(pushes)
  {
    RunInv(ss, es, n);
    CountAll(ss[n].world.pushes);
    assert |multiset(ss[n].db.jobs.Keys)| == |ss[n].db.jobs.Keys| == |ss[n].db.jobs|;
  }

  /** The commit of a push does to the rows exactly what its outcome says. */
  lemma CommittedPush(ss: seq<State>, es: seq<Event>, n: nat)
    requires Run(ss, es) && n < |es| && es[n].Commit? && es[n].tx in ss[n].txs && ss[n].txs[es[n].tx].prog.PushCommit?
    ensures var prog := ss[n].txs[es[n].tx].prog;
      && CommitProof.PushEffect(ss[n].db.jobs, ss[n + 1].db.jobs, prog.push, prog.outcome)
      && ss[n + 1].world.pushes == ss[n].world.pushes + [PushRecord(prog.push, prog.outcome)]
      && ss[n + 1].db.snaps == ss[n].db.snaps
      && (prog.outcome.Overtaken? ==> ss[n + 1].db == ss[n].db)
  {
    TxInvHolds(ss, es, n, es[n].tx);
    assert Step(ss[n], es[n], ss[n + 1]);
    PushPublished(ss[n].cfg, ss[n].db, ss[n].txs[es[n].tx]);
  }

  lemma TxInvHolds(ss: seq<State>, es: seq<Event>, n: nat, t: TxId)
    requires Run(ss, es) && n < |ss| && t in ss[n].txs
    ensures OneQueued(ss[n].db.jobs) && PushPoint(ss[n].cfg, ss[n].db.jobs, ss[n].txs[t])
  {
    RunInv(ss, es, n);
    assert TxInv(ss[n].cfg, ss[n].db, ss[n].world, ss[n].txs[t]);
  }

  lemma PushPublished(cfg: Config, db: Db, tx: Tx)
    requires OneQueued(db.jobs) && PushPoint(cfg, db.jobs, tx) && tx.prog.PushCommit?
    ensures CommitProof.PushEffect(db.jobs, Publish(db, tx).jobs, tx.prog.push, tx.prog.outcome)
    ensures Publish(db, tx).snaps == db.snaps
    ensures tx.prog.outcome.Overtaken? ==> Publish(db, tx) == db
  {
    CommitProof.PushCommitEffect(cfg, db, tx);
    if tx.prog.outcome.Overtaken? {
      assert Publish(db, tx).jobs == db.jobs;
    }
  }

  /** A push that read a queued job is overtaken exactly when that job left the queue between the
      read (event `a`) and the guarded update (event `b`); otherwise it moves the job. */
  lemma OvertakenIff(ss: seq<State>, es: seq<Event>, a: nat, b: nat, t: TxId, push: Push, j: JobId)
    requires Run(ss, es) && a < b < |es|
    requires t in ss[a].txs && ss[a].txs[t].prog == PushRead(push) && es[a].Stmt? && es[a].tx == t
    requires forall m :: a < m <= b ==> t in ss[m].txs && ss[m].txs[t].prog == PushUpdate(push, j)
    requires es[b].Stmt? && es[b].tx == t
    ensures j in ss[a].db.jobs && ss[a].db.jobs[j].status == Queued
    ensures t in ss[b + 1].txs
    ensures var prog := ss[b + 1].txs[t].prog;
      var left := exists m :: a < m <= b && j in ss[m].db.jobs && ss[m].db.jobs[j].status != Queued;
      prog == PushCommit(push, if left then Overtaken(j) else Updated(j))
  {
    assert Step(ss[a], es[a], ss[a + 1]) && Step(ss[b], es[b], ss[b + 1]);
    assert ss[a + 1].txs[t].prog == PushUpdate(push, j);
    assert j in QueuedOn(ss[a].db.jobs, push.repo, push.branch);
    RunLater(ss, es, a, b);
    assert j in ss[b].db.jobs;
    if ss[b].db.jobs[j].status == Queued {
      forall m | a < m <= b && j in ss[m].db.jobs
        ensures ss[m].db.jobs[j].status == Queued
      {
        RunLater(ss, es, m, b);
      }
    }
  }

  // ----- commits seen by workers and snapshots -----

  /** The commit in a snapshot row, in its object path, in the job row and in every answer a start
      callback ever gave for that job, before or after, is the same commit. */
  lemma ShaAgreement(ss: seq<State>, es: seq<Event>, m: nat, n: nat, i: SnapId, r: Reply)
    requires Run(ss, es) && m < |ss| && n < |ss|
    requires i in ss[n].db.snaps && r in ss[m].world.replies && r.job == ss[n].db.snaps[i].job
    ensures var snap := ss[n].db.snaps[i];
      && snap.job in ss[n].db.jobs && ss[n].db.jobs[snap.job].sha == snap.sha == r.sha
      && snap.path == SnapshotPath(snap.repo, snap.repo, r.sha)
  {
    var top := if m < n then n else m;
    RunLater(ss, es, m, top);
    RunLater(ss, es, n, top);
    RunInv(ss, es, top);
    RunInv(ss, es, n);
    assert SnapshotMatches(ss[n].db.jobs, ss[n].db.snaps[i]);
    assert SnapshotMatches(ss[top].db.jobs, ss[top].db.snaps[i]);
    assert r in ss[top].world.replies;
  }

  ghost predicate SnapshotsAnswered(s: State) {
    forall i :: i in s.db.snaps ==> Reply(s.db.snaps[i].job, s.db.snaps[i].sha) in s.world.replies
  }

  lemma NewSnapshotAnswered(cfg: Config, db: Db, w: World, tx: Tx, i: SnapId)
    requires RepliesOk(db.jobs, w.replies) && TxInv(cfg, db, w, tx) && ReadyToCommit(tx.prog)
    requires i in Publish(db, tx).snaps && i !in db.snaps
    ensures Reply(Publish(db, tx).snaps[i].job, Publish(db, tx).snaps[i].sha) in w.replies
  {
    var r :| r in w.replies && r.job == tx.prog.job;
    assert r == Reply(tx.prog.job, tx.prog.row.sha);
  }

  lemma OldSnapshotKept(cfg: Config, db: Db, w: World, tx: Tx, i: SnapId)
    requires TxInv(cfg, db, w, tx) && ReadyToCommit(tx.prog) && i in db.snaps
    ensures i in Publish(db, tx).snaps && Publish(db, tx).snaps[i] == db.snaps[i]
  {
  }

  lemma SnapshotsAnsweredStep(s: State, e: Event, s': State)
    requires Inv(s) && Step(s, e, s') && Advances(s, s') && SnapshotsAnswered(s)
    ensures SnapshotsAnswered(s')
  {
    if e.Commit? {
      var tx := s.txs[e.tx];
      assert TxInv(s.cfg, s.db, s.world, tx);
      forall i | i in s'.db.snaps
        ensures Reply(s'.db.snaps[i].job, s'.db.snaps[i].sha) in s'.world.replies
      {
        if i in s.db.snaps {
          OldSnapshotKept(s.cfg, s.db, s.world, tx, i);
        } else {
          NewSnapshotAnswered(s.cfg, s.db, s.world, tx, i);
        }
      }
    } else {
      TablesOnlyAtCommit(s, e, s');
    }
  }

  lemma SnapshotsAnsweredNext(ss: seq<State>, es: seq<Event>, n: nat)
    requires Run(ss, es) && n < |es| && SnapshotsAnswered(ss[n])
    ensures SnapshotsAnswered(ss[n + 1])
  {
    RunStep(ss, es, n);
    SnapshotsAnsweredStep(ss[n], es[n], ss[n + 1]);
  }

  /** Behind every snapshot there is a start callback that was answered, with the snapshot's commit. */
  lemma {:induction false} SnapshotsAreAnswered(ss: seq<State>, es: seq<Event>, n: nat)
    requires Run(ss, es) && n < |ss|
    ensures SnapshotsAnswered(ss[n])
  {
    if n == 0 {
    } else {
      SnapshotsAreAnswered(ss, es, n - 1);
      SnapshotsAnsweredNext(ss, es, n - 1);
    }
  }

  /** Two start callbacks for one job never answer with different commits. */
  lemma StartsAgree(ss: seq<State>, es: seq<Event>, m: nat, n: nat, r: Reply, q: Reply)
    requires Run(ss, es) && m <= n < |ss| && r in ss[m].world.replies && q in ss[n].world.replies && r.job == q.job
    ensures r.sha == q.sha
  {
    RunLater(ss, es, m, n);
    RunInv(ss, es, n);
  }

  // ----- snapshots and success -----

  ghost predicate OneSnapshot(snaps: map<SnapId, Snapshot>, j: JobId) {
    exists i :: i in snaps && snaps[i].job == j && forall k :: k in snaps && snaps[k].job == j ==> k == i
  }

  /** A job is succeeded if and only if exactly one snapshot row has its id. */
  lemma SucceededIffOneSnapshot(ss: seq<State>, es: seq<Event>, n: nat, j: JobId)
    requires Run(ss, es) && n < |ss| && j in ss[n].db.jobs
    ensures ss[n].db.jobs[j].status == Succeeded <==> OneSnapshot(ss[n].db.snaps, j)
  {
    RunInv(ss, es, n);
    var d := ss[n].db;
    if d.jobs[j].status == Succeeded {
      var i :| i in d.snaps && d.snaps[i].job == j;
      forall k | k in d.snaps && d.snaps[k].job == j
        ensures k == i
      {
        assert SnapshotMatches(d.jobs, d.snaps[i]) && SnapshotMatches(d.jobs, d.snaps[k]);
        assert SameKey(d.snaps[i], d.snaps[k]);
      }
    } else {
      assert forall i :: i in d.snaps ==> SnapshotMatches(d.jobs, d.snaps[i]);
    }
  }

  /** No two succeeded jobs are for the same commit of the same branch. */
  lemma SucceededJobsDiffer(ss: seq<State>, es: seq<Event>, n: nat, j: JobId, k: JobId)
    requires Run(ss, es) && n < |ss| && j in ss[n].db.jobs && k in ss[n].db.jobs
    requires ss[n].db.jobs[j].status == Succeeded && ss[n].db.jobs[k].status == Succeeded
    requires OnBranch(ss[n].db.jobs[j], ss[n].db.jobs[k].repo, ss[n].db.jobs[k].branch)
    requires ss[n].db.jobs[j].sha == ss[n].db.jobs[k].sha
    ensures j == k
  {
    RunInv(ss, es, n);
    var d := ss[n].db;
    var i :| i in d.snaps && d.snaps[i].job == j;
    var l :| l in d.snaps && d.snaps[l].job == k;
    assert SnapshotMatches(d.jobs, d.snaps[i]) && SnapshotMatches(d.jobs, d.snaps[l]);
    assert SameKey(d.snaps[i], d.snaps[l]);
  }

  // ----- statuses -----

  /** How often the status of `j` changed in the first `n` events. */
  ghost function StatusChanges(ss: seq<State>, j: JobId, n: nat): nat
    requires n < |ss|
  {
    if n == 0 then 0
    else
      StatusChanges(ss, j, n - 1)
      + (if j in ss[n - 1].db.jobs && j in ss[n].db.jobs && ss[n - 1].db.jobs[j].status != ss[n].db.jobs[j].status
         then 1 else 0)
  }

  lemma EvolvesRaisesRank(a: Job, b: Job)
    requires Evolves(a, b)
    ensures a.status == b.status || a.status.Rank() < b.status.Rank()
  {
  }

  lemma {:induction false} ChangesBoundedByRank(ss: seq<State>, es: seq<Event>, j: JobId, n: nat)
    requires Run(ss, es) && n < |ss|
    ensures StatusChanges(ss, j, n) <= if j in ss[n].db.jobs then ss[n].db.jobs[j].status.Rank() else 0
  {
    if n == 0 {
    } else {
      ChangesBoundedByRank(ss, es, j, n - 1);
      RunAdvances(ss, es, n - 1);
      if j in ss[n - 1].db.jobs {
        EvolvesRaisesRank(ss[n - 1].db.jobs[j], ss[n].db.jobs[j]);
      }
    }
  }

  /** Terminal statuses are absorbing, and no job changes status more than twice in a whole run. */
  lemma AtMostTwoStatusChanges(ss: seq<State>, es: seq<Event>, j: JobId)
    requires Run(ss, es)
    ensures StatusChanges(ss, j, |es|) <= 2
    ensures forall i, k :: 0 <= i <= k < |ss| && j in ss[i].db.jobs && ss[i].db.jobs[j].status.IsTerminal()
              ==> j in ss[k].db.jobs && ss[k].db.jobs[j].status == ss[i].db.jobs[j].status
  {
    ChangesBoundedByRank(ss, es, j, |es|);
    forall i, k | 0 <= i <= k < |ss| && j in ss[i].db.jobs && ss[i].db.jobs[j].status.IsTerminal()
      ensures j in ss[k].db.jobs && ss[k].db.jobs[j].status == ss[i].db.jobs[j].status
    {
      RunLater(ss, es, i, k);
    }
  }

  /** `started_at` is written at most once, and the SHA never changes after the job left the queue. */
  lemma StartedOnce(ss: seq<State>, es: seq<Event>, i: nat, k: nat, j: JobId)
    requires Run(ss, es) && i <= k < |ss| && j in ss[i].db.jobs && ss[i].db.jobs[j].startedAt.Some?
    ensures j in ss[k].db.jobs && ss[k].db.jobs[j].startedAt == ss[i].db.jobs[j].startedAt
    ensures ss[k].db.jobs[j].sha == ss[i].db.jobs[j].sha
  {
    RunLater(ss, es, i, k);
    RunInv(ss, es, i);
    assert RowOk(ss[i].db.jobs[j]);
  }

  /** `finished_at` is set iff the status is terminal, running and succeeded rows have `started_at`,
      failed rows have a message, nothing is ever cancelled or superseded. */
  lemma RowsWellFormed(ss: seq<State>, es: seq<Event>, n: nat, j: JobId)
    requires Run(ss, es) && n < |ss| && j in ss[n].db.jobs
    ensures RowOk(ss[n].db.jobs[j])
  {
    RunInv(ss, es, n);
  }

  // ----- the first terminal writer wins -----

  /** What the failure write of a claiming poller makes of a row, whatever the row's status. */
  function FailureWritten(row: Job, now: Time): Job {
    row.(status := Failed, error := Some(REPO_NOT_FOUND), finishedAt := Some(now))
  }

  lemma TerminalRowChange(s: State, e: Event, s': State, j: JobId)
    requires Inv(s) && Step(s, e, s') && j in s.db.jobs && s.db.jobs[j].status.IsTerminal()
    requires forall t :: t in s.txs && s.txs[t].prog == FailCommit(j) ==> RunningOrTimedOut(s.db.jobs, j)
    ensures j in s'.db.jobs
    ensures s'.db.jobs[j] != s.db.jobs[j] <==> e.Commit? && e.tx in s.txs && s.txs[e.tx].prog == FailCommit(j)
    ensures s'.db.jobs[j] != s.db.jobs[j] ==>
      && s.cfg.mode == Poll && s.db.jobs[j].status == Failed && s.db.jobs[j].error == Some(TIMED_OUT)
      && s'.db.jobs[j] == FailureWritten(s.db.jobs[j], s.txs[e.tx].now)
  {
    if e.Commit? {
      TerminalRowCommit(s, e.tx, j);
    } else {
      TablesOnlyAtCommit(s, e, s');
    }
  }

  lemma FailingRuns(ss: seq<State>, es: seq<Event>, n: nat, j: JobId)
    requires Run(ss, es) && n < |ss|
    ensures forall t :: t in ss[n].txs && ss[n].txs[t].prog == FailCommit(j) ==> RunningOrTimedOut(ss[n].db.jobs, j)
  {
    HeldRunOrTimedOut(ss, es, n);
    forall t | t in ss[n].txs && ss[n].txs[t].prog == FailCommit(j)
      ensures RunningOrTimedOut(ss[n].db.jobs, j)
    {
      assert FailingJob(ss[n].txs[t].prog) == Some(j);
    }
  }

  /** A terminal row changes exactly when a claiming poller's failure write on it commits. That write always finds
      a job the watchdog has failed with its message, and changes message and `finished_at` only. */
  lemma TerminalRowStep(ss: seq<State>, es: seq<Event>, n: nat, j: JobId)
    requires Run(ss, es) && n < |es| && j in ss[n].db.jobs && ss[n].db.jobs[j].status.IsTerminal()
    ensures j in ss[n + 1].db.jobs
    ensures var row, row', e := ss[n].db.jobs[j], ss[n + 1].db.jobs[j], es[n];
      && (row' != row <==> e.Commit? && e.tx in ss[n].txs && ss[n].txs[e.tx].prog == FailCommit(j))
      && (row' != row ==>
            && ss[n].cfg.mode == Poll && row.status == Failed && row.error == Some(TIMED_OUT)
            && row' == FailureWritten(row, ss[n].txs[e.tx].now))
  {
    RunStep(ss, es, n);
    FailingRuns(ss, es, n, j);
    TerminalRowChange(ss[n], es[n], ss[n + 1], j);
  }

  lemma TablesOnlyAtCommit(s: State, e: Event, s': State)
    requires Step(s, e, s') && !e.Commit?
    ensures s'.db == s.db && s'.world.pushes == s.world.pushes && s'.world.replies == s.world.replies
  {
  }

  lemma TerminalRowCommit(s: State, t: TxId, j: JobId)
    requires Inv(s) && t in s.txs && ReadyToCommit(s.txs[t].prog)
    requires j in s.db.jobs && s.db.jobs[j].status.IsTerminal()
    ensures var tx, jobs' := s.txs[t], Publish(s.db, s.txs[t]).jobs;
      && j in jobs'
      && (tx.prog != FailCommit(j) ==> jobs'[j] == s.db.jobs[j])
      && (tx.prog == FailCommit(j) ==>
            && s.cfg.mode == Poll && s.db.jobs[j].status == Failed
            && jobs'[j] == FailureWritten(s.db.jobs[j], tx.now))
  {
    var tx := s.txs[t];
    var cfg, db, w := s.cfg, s.db, s.world;
    assert TxInv(cfg, db, w, tx);
    CommitProof.PublishKeeps(cfg, db, w, tx, true, 0);
    CommitProof.Published(db, tx);
    TerminalWrite(cfg, db, w, tx, j);
  }

  lemma TerminalWrite(cfg: Config, db: Db, w: World, tx: Tx, j: JobId)
    requires RowsOk(db.jobs) && OwnershipOk(cfg, db.jobs, w) && TxInv(cfg, db, w, tx) && ReadyToCommit(tx.prog)
    requires j in db.jobs && db.jobs[j].status.IsTerminal()
    ensures j in tx.writes <==> tx.prog == FailCommit(j)
    ensures j in tx.writes ==> cfg.mode == Poll && db.jobs[j].status == Failed
    ensures j in tx.writes ==> tx.writes[j] == FailureWritten(db.jobs[j], tx.now)
  {
    assert RowOk(db.jobs[j]);
  }

  lemma TerminalRowKept(ss: seq<State>, es: seq<Event>, n: nat, j: JobId)
    requires Run(ss, es) && n < |es| && ss[n].cfg.mode == Http
    requires j in ss[n].db.jobs && ss[n].db.jobs[j].status.IsTerminal()
    ensures j in ss[n + 1].db.jobs && ss[n + 1].db.jobs[j] == ss[n].db.jobs[j]
  {
    TerminalRowStep(ss, es, n, j);
  }

  lemma {:induction false} TerminalRowFrozen(ss: seq<State>, es: seq<Event>, i: nat, k: nat, j: JobId)
    requires Run(ss, es) && ss[0].cfg.mode == Http && i <= k < |ss|
    requires j in ss[i].db.jobs && ss[i].db.jobs[j].status.IsTerminal()
    ensures j in ss[k].db.jobs && ss[k].db.jobs[j] == ss[i].db.jobs[j]
    decreases k
  {
    if i == k {
    } else {
      TerminalRowFrozen(ss, es, i, k - 1, j);
      RunLater(ss, es, 0, k - 1);
      TerminalRowKept(ss, es, k - 1, j);
    }
  }

  lemma SameJobSameSnapshot(d: Db, x: SnapId, y: SnapId)
    requires SnapsOk(d) && x in d.snaps && y in d.snaps && d.snaps[x].job == d.snaps[y].job
    ensures x == y
  {
    assert SnapshotMatches(d.jobs, d.snaps[x]) && SnapshotMatches(d.jobs, d.snaps[y]);
    assert SameKey(d.snaps[x], d.snaps[y]);
  }

  /** In the http deployment the row and the snapshots of a job stay as its first terminal writer left
      them, however many workers retry and whenever the watchdog runs. */
  lemma FirstTerminalWriterWins(ss: seq<State>, es: seq<Event>, i: nat, k: nat, j: JobId)
    requires Run(ss, es) && ss[0].cfg.mode == Http && i <= k < |ss|
    requires j in ss[i].db.jobs && ss[i].db.jobs[j].status.IsTerminal()
    ensures j in ss[k].db.jobs && ss[k].db.jobs[j] == ss[i].db.jobs[j]
    ensures forall x :: x in ss[k].db.snaps && ss[k].db.snaps[x].job == j
              ==> x in ss[i].db.snaps && ss[i].db.snaps[x] == ss[k].db.snaps[x]
  {
    TerminalRowFrozen(ss, es, i, k, j);
    RunLater(ss, es, i, k);
    forall x | x in ss[k].db.snaps && ss[k].db.snaps[x].job == j
      ensures x in ss[i].db.snaps && ss[i].db.snaps[x] == ss[k].db.snaps[x]
    {
      RunInv(ss, es, k);
      RunInv(ss, es, i);
      SnapshotWasThere(ss[i].db, ss[k].db, x);
    }
  }

  lemma SnapshotWasThere(d: Db, d': Db, x: SnapId)
    requires SnapsOk(d) && SnapsOk(d') && x in d'.snaps && d'.snaps[x].job in d.jobs
    requires d.jobs[d'.snaps[x].job].status.IsTerminal() && d'.jobs[d'.snaps[x].job] == d.jobs[d'.snaps[x].job]
    requires forall i :: i in d.snaps ==> i in d'.snaps && d'.snaps[i] == d.snaps[i]
    ensures x in d.snaps
  {
    var j := d'.snaps[x].job;
    assert SnapshotMatches(d'.jobs, d'.snaps[x]);
    var y :| y in d.snaps && d.snaps[y].job == j;
    SameJobSameSnapshot(d', x, y);
  }

  /** A completion that finds its job terminal commits nothing. */
  lemma LateCompleteChangesNothing(ss: seq<State>, es: seq<Event>, n: nat)
    requires Run(ss, es) && n < |es| && es[n].Commit? && es[n].tx in ss[n].txs
    requires var p := ss[n].txs[es[n].tx].prog; p.DoneCommit? && p.row.status.IsTerminal()
    ensures ss[n + 1].db == ss[n].db && ss[n + 1].world == ss[n].world
  {
    RunInv(ss, es, n);
    var tx := ss[n].txs[es[n].tx];
    assert TxInv(ss[n].cfg, ss[n].db, ss[n].world, tx);
    assert Publish(ss[n].db, tx).jobs == ss[n].db.jobs;
  }

  // ----- deliveries and tasks -----

  /** A non-empty delivery id labels at most one job over the whole run. */
  lemma DeliveryLabelsOneJob(ss: seq<State>, es: seq<Event>, m: nat, n: nat, j: JobId, k: JobId)
    requires Run(ss, es) && m <= n < |ss| && j in ss[m].db.jobs && k in ss[n].db.jobs
    requires ss[m].db.jobs[j].delivery.Some? && ss[m].db.jobs[j].delivery == ss[n].db.jobs[k].delivery
    ensures j == k
  {
    RunLater(ss, es, m, n);
    RunInv(ss, es, n);
  }

  /** Every task names a committed job, and no job gets two tasks, however many pushes move it. */
  lemma TasksNameJobsOnce(ss: seq<State>, es: seq<Event>, n: nat)
    requires Run(ss, es) && n < |ss|
    ensures forall i :: 0 <= i < |ss[n].world.tasks| ==> ss[n].world.tasks[i] in ss[n].db.jobs
    ensures forall i, k :: 0 <= i < k < |ss[n].world.tasks| ==> ss[n].world.tasks[i] != ss[n].world.tasks[k]
  {
    RunInv(ss, es, n);
  }

  // ----- claims -----

  lemma HeldCommit(cfg: Config, db: Db, w: World, tx: Tx, delivered: bool, q: PollerId, p: PollerId, j: JobId)
    requires QueuePoint(cfg, db.jobs, w, tx) && j in db.jobs && db.jobs[j].status != Queued
    requires var w' := AfterCommit(w, tx.prog, delivered, q); p in w'.held && w'.held[p] == j
    ensures p in w.held && w.held[p] == j
  {
  }

  lemma HeldOther(s: State, e: Event, s': State, p: PollerId)
    requires Step(s, e, s') && !e.Commit? && p in s'.world.held
    ensures p in s.world.held && s.world.held[p] == s'.world.held[p]
  {
  }

  lemma HeldStep(s: State, e: Event, s': State, j: JobId, p: PollerId)
    requires Inv(s) && Step(s, e, s') && j in s.db.jobs && s.db.jobs[j].status != Queued
    requires p in s'.world.held && s'.world.held[p] == j
    ensures p in s.world.held && s.world.held[p] == j
  {
    if e.Commit? {
      assert TxInv(s.cfg, s.db, s.world, s.txs[e.tx]);
      HeldCommit(s.cfg, s.db, s.world, s.txs[e.tx], e.delivered, e.poller, p, j);
    } else {
      HeldOther(s, e, s', p);
    }
  }

  lemma HeldBefore(ss: seq<State>, es: seq<Event>, n: nat, j: JobId, p: PollerId)
    requires Run(ss, es) && n < |es| && j in ss[n].db.jobs && ss[n].db.jobs[j].status != Queued
    requires p in ss[n + 1].world.held && ss[n + 1].world.held[p] == j
    ensures p in ss[n].world.held && ss[n].world.held[p] == j
  {
    RunStep(ss, es, n);
    HeldStep(ss[n], es[n], ss[n + 1], j, p);
  }

  lemma {:induction false} HeldBySameOrNone(ss: seq<State>, es: seq<Event>, i: nat, k: nat, q: PollerId, j: JobId)
    requires Run(ss, es) && i <= k < |ss| && j in ss[i].db.jobs && ss[i].db.jobs[j].status != Queued
    requires q in ss[k].world.held && ss[k].world.held[q] == j
    ensures q in ss[i].world.held && ss[i].world.held[q] == j
    decreases k
  {
    if i == k {
    } else {
      RunLater(ss, es, i, k - 1);
      HeldBefore(ss, es, k - 1, j, q);
      HeldBySameOrNone(ss, es, i, k - 1, q, j);
    }
  }

  /** Over a whole run no two pollers ever hold the same claimed job, and a dispatched job is never held again. */
  lemma NoJobClaimedTwice(ss: seq<State>, es: seq<Event>, i: nat, k: nat, p: PollerId, q: PollerId)
    requires Run(ss, es) && i <= k < |ss| && p in ss[i].world.held && q in ss[k].world.held
    requires ss[i].world.held[p] == ss[k].world.held[q]
    ensures p == q && ss[k].world.held[q] !in ss[k].world.dispatched
  {
    RunInv(ss, es, i);
    RunInv(ss, es, k);
    HeldBySameOrNone(ss, es, i, k, q, ss[k].world.held[q]);
  }

  /** Between claim and dispatch a job is running, or failed by the watchdog, and of all open transactions only
      a watchdog sweep can hold its row or be about to: no claim, callback or failure write has got to it. */
  lemma HeldJobsAreUntouched(ss: seq<State>, es: seq<Event>, n: nat, p: PollerId, t: TxId)
    requires Run(ss, es) && n < |ss| && p in ss[n].world.held && t in ss[n].txs
    ensures var j, tx := ss[n].world.held[p], ss[n].txs[t];
      && j in ss[n].db.jobs && (ss[n].db.jobs[j].status == Running || ss[n].db.jobs[j].status == Failed)
      && (j in tx.locks || j in tx.writes ==> tx.prog.SweepRows?)
      && !ActsOn(tx.prog, j)
  {
    RunInv(ss, es, n);
    HeldUntouched(ss[n].cfg, ss[n].db, ss[n].world, ss[n].world.held[p], ss[n].txs[t], p);
  }

  /** Program points of claims, callbacks, failure writes and successful push updates on job `j`. (A push that
      read `j` while it was queued may still be on its way to an update that hits zero rows.) */
  predicate ActsOn(prog: Prog, j: JobId) {
    match prog
    case PushCommit(_, o) => o == Updated(j)
    case StartLock(k) => k == j
    case StartWrite(k, _) => k == j
    case StartCommit(k, _) => k == j
    case DoneLock(k, _) => k == j
    case DoneWrite(k, _, _) => k == j
    case DoneSnap(k, _, _) => k == j
    case DoneCommit(k, _, _) => k == j
    case ClaimCommit(k) => k == j
    case FailLock(k) => k == j
    case FailCommit(k) => k == j
    case _ => false
  }

  lemma HeldUntouched(cfg: Config, db: Db, w: World, j: JobId, tx: Tx, p: PollerId)
    requires RowsOk(db.jobs) && OwnershipOk(cfg, db.jobs, w) && TxInv(cfg, db, w, tx) && p in w.held && w.held[p] == j
    ensures j in db.jobs && (db.jobs[j].status == Running || db.jobs[j].status == Failed)
    ensures j in tx.locks || j in tx.writes ==> tx.prog.SweepRows?
    ensures !ActsOn(tx.prog, j)
  {
    assert RowOk(db.jobs[j]);
  }

  lemma HeldRowChange(s: State, e: Event, s': State, p: PollerId)
    requires Inv(s) && Step(s, e, s') && p in s.world.held
    ensures var j := s.world.held[p];
      && j in s.db.jobs && j in s'.db.jobs
      && (s'.db.jobs[j] != s.db.jobs[j] ==>
            && e.Commit? && e.tx in s.txs && s.txs[e.tx].prog.SweepRows?
            && s.db.jobs[j].status == Running && s'.db.jobs[j] == TimeoutRow(s.db.jobs[j], s.txs[e.tx].now))
  {
    if e.Commit? {
      assert TxInv(s.cfg, s.db, s.world, s.txs[e.tx]);
      HeldRowCommit(s.cfg, s.db, s.world, s.txs[e.tx], p);
    } else {
      TablesOnlyAtCommit(s, e, s');
    }
  }

  /** Any step that changes the row of a held job is the commit of a watchdog sweep, and times the job out. */
  lemma HeldRowStep(ss: seq<State>, es: seq<Event>, n: nat, p: PollerId)
    requires Run(ss, es) && n < |es| && p in ss[n].world.held
    ensures var j, e := ss[n].world.held[p], es[n];
      && j in ss[n].db.jobs && j in ss[n + 1].db.jobs
      && (ss[n + 1].db.jobs[j] != ss[n].db.jobs[j] ==>
            && e.Commit? && e.tx in ss[n].txs && ss[n].txs[e.tx].prog.SweepRows?
            && ss[n].db.jobs[j].status == Running
            && ss[n + 1].db.jobs[j] == TimeoutRow(ss[n].db.jobs[j], ss[n].txs[e.tx].now))
  {
    RunStep(ss, es, n);
    HeldRowChange(ss[n], es[n], ss[n + 1], p);
  }

  lemma HeldRowCommit(cfg: Config, db: Db, w: World, tx: Tx, p: PollerId)
    requires RowsOk(db.jobs) && OwnershipOk(cfg, db.jobs, w) && TxInv(cfg, db, w, tx) && ReadyToCommit(tx.prog)
    requires p in w.held
    ensures var j, jobs' := w.held[p], Publish(db, tx).jobs;
      && j in db.jobs && j in jobs'
      && (jobs'[j] != db.jobs[j] ==>
            tx.prog.SweepRows? && db.jobs[j].status == Running && jobs'[j] == TimeoutRow(db.jobs[j], tx.now))
  {
    HeldUntouched(cfg, db, w, w.held[p], tx, p);
    CommitProof.LegalInsert(cfg, db, w, tx);
  }

  // ----- what a claiming poller may find when it gives a job up -----

  /** Claimed and running, or failed by the watchdog since. */
  predicate RunningOrTimedOut(jobs: map<JobId, Job>, j: JobId) {
    j in jobs && (jobs[j].status == Running || (jobs[j].status == Failed && jobs[j].error == Some(TIMED_OUT)))
  }

  /** True of every job that a poller holds or whose failure write is open. */
  ghost predicate ClaimsRunOrTimedOut(s: State) {
    && (forall p :: p in s.world.held ==> RunningOrTimedOut(s.db.jobs, s.world.held[p]))
    && (forall t :: t in s.txs && FailingJob(s.txs[t].prog).Some? ==> RunningOrTimedOut(s.db.jobs, FailingJob(s.txs[t].prog).value))
  }

  lemma DisownedUntouched(cfg: Config, db: Db, w: World, j: JobId, tx: Tx)
    requires Disowned(cfg, db.jobs, w, j) && TxInv(cfg, db, w, tx) && FailingJob(tx.prog) != Some(j)
    ensures !ActsOn(tx.prog, j)
  {
  }

  lemma OnlySweepsWrite(cfg: Config, db: Db, w: World, tx: Tx, j: JobId)
    requires TxInv(cfg, db, w, tx) && ReadyToCommit(tx.prog) && CommitProof.InsertLegal(db.jobs, tx)
    requires RunningOrTimedOut(db.jobs, j) && !ActsOn(tx.prog, j)
    ensures RunningOrTimedOut(Publish(db, tx).jobs, j)
  {
  }

  lemma HeldAfterCommit(cfg: Config, db: Db, w: World, tx: Tx, delivered: bool, q: PollerId, p: PollerId)
    requires RowsOk(db.jobs) && OwnershipOk(cfg, db.jobs, w) && TxInv(cfg, db, w, tx) && ReadyToCommit(tx.prog)
    requires p in AfterCommit(w, tx.prog, delivered, q).held
    requires p in w.held ==> RunningOrTimedOut(db.jobs, w.held[p])
    ensures RunningOrTimedOut(Publish(db, tx).jobs, AfterCommit(w, tx.prog, delivered, q).held[p])
  {
    if p in w.held {
      CommitProof.LegalInsert(cfg, db, w, tx);
      HeldUntouched(cfg, db, w, w.held[p], tx, p);
      OnlySweepsWrite(cfg, db, w, tx, w.held[p]);
    }
  }

  lemma ClaimsAfterCommit(s: State, e: Event, s': State)
    requires Inv(s) && Step(s, e, s') && e.Commit? && ClaimsRunOrTimedOut(s)
    ensures ClaimsRunOrTimedOut(s')
  {
    var cfg, db, w, tx := s.cfg, s.db, s.world, s.txs[e.tx];
    assert TxInv(cfg, db, w, tx);
    forall p | p in s'.world.held
      ensures RunningOrTimedOut(s'.db.jobs, s'.world.held[p])
    {
      HeldAfterCommit(cfg, db, w, tx, e.delivered, e.poller, p);
    }
    forall u | u in s'.txs && FailingJob(s'.txs[u].prog).Some?
      ensures RunningOrTimedOut(s'.db.jobs, FailingJob(s'.txs[u].prog).value)
    {
      assert TxInv(cfg, db, w, s.txs[u]) && Compatible(s.txs[u], tx);
      CommitProof.LegalInsert(cfg, db, w, tx);
      DisownedUntouched(cfg, db, w, FailingJob(s.txs[u].prog).value, tx);
      OnlySweepsWrite(cfg, db, w, tx, FailingJob(s.txs[u].prog).value);
    }
  }

  lemma PushStmtFailsNothing(s: State, t: TxId, id: nat, s': State, u: TxId)
    requires t in s.txs && PushStmt(s, t, id) == Some(s') && u in s'.txs
    ensures u in s.txs && (FailingJob(s'.txs[u].prog).Some? ==> FailingJob(s'.txs[u].prog) == FailingJob(s.txs[u].prog))
  {
  }

  lemma CallbackStmtFailsNothing(s: State, t: TxId, id: nat, s': State, u: TxId)
    requires t in s.txs && CallbackStmt(s, t, id) == Some(s') && u in s'.txs
    ensures u in s.txs && (FailingJob(s'.txs[u].prog).Some? ==> FailingJob(s'.txs[u].prog) == FailingJob(s.txs[u].prog))
  {
  }

  lemma QueueStmtFailsSame(s: State, t: TxId, id: nat, s': State, u: TxId)
    requires t in s.txs && QueueStmt(s, t, id) == Some(s') && u in s'.txs
    ensures u in s.txs && (FailingJob(s'.txs[u].prog).Some? ==> FailingJob(s'.txs[u].prog) == FailingJob(s.txs[u].prog))
  {
  }

  /** A failure write begins only for a job that a poller holds. */
  lemma FailingBefore(s: State, e: Event, s': State, u: TxId)
    requires Step(s, e, s') && !e.Commit? && u in s'.txs && FailingJob(s'.txs[u].prog).Some?
    ensures var j := FailingJob(s'.txs[u].prog).value;
      (u in s.txs && FailingJob(s.txs[u].prog) == Some(j)) || exists p :: p in s.world.held && s.world.held[p] == j
  {
    if e.Stmt? {
      var p := s.txs[e.tx].prog;
      if p.PushLock? || p.PushRead? || p.PushUpdate? || p.PushInsert? {
        PushStmtFailsNothing(s, e.tx, e.id, s', u);
      } else if p.StartLock? || p.StartWrite? || p.DoneLock? || p.DoneWrite? || p.DoneSnap? {
        CallbackStmtFailsNothing(s, e.tx, e.id, s', u);
      } else {
        QueueStmtFailsSame(s, e.tx, e.id, s', u);
      }
    } else if e.BeginFail? && u == e.tx {
      assert s.world.held[e.poller] == FailingJob(s'.txs[u].prog).value;
    }
  }

  lemma ClaimsAfterOther(s: State, e: Event, s': State)
    requires Step(s, e, s') && !e.Commit? && ClaimsRunOrTimedOut(s)
    ensures ClaimsRunOrTimedOut(s')
  {
    TablesOnlyAtCommit(s, e, s');
    forall p | p in s'.world.held
      ensures RunningOrTimedOut(s'.db.jobs, s'.world.held[p])
    {
      HeldOther(s, e, s', p);
    }
    forall u | u in s'.txs && FailingJob(s'.txs[u].prog).Some?
      ensures RunningOrTimedOut(s'.db.jobs, FailingJob(s'.txs[u].prog).value)
    {
      FailingBefore(s, e, s', u);
    }
  }

  lemma ClaimsNext(ss: seq<State>, es: seq<Event>, n: nat)
    requires Run(ss, es) && n < |es| && ClaimsRunOrTimedOut(ss[n])
    ensures ClaimsRunOrTimedOut(ss[n + 1])
  {
    RunStep(ss, es, n);
    if es[n].Commit? {
      ClaimsAfterCommit(ss[n], es[n], ss[n + 1]);
    } else {
      ClaimsAfterOther(ss[n], es[n], ss[n + 1]);
    }
  }

  /** In every reachable state a job that a poller holds, or is giving up, is running or was timed out. */
  lemma {:induction false} HeldRunOrTimedOut(ss: seq<State>, es: seq<Event>, n: nat)
    requires Run(ss, es) && n < |ss|
    ensures ClaimsRunOrTimedOut(ss[n])
  {
    if n == 0 {
    } else {
      HeldRunOrTimedOut(ss, es, n - 1);
      ClaimsNext(ss, es, n - 1);
    }
  }

  // ----- straight from the queue to the end -----

  lemma QueuedCommit(cfg: Config, db: Db, w: World, tx: Tx, j: JobId)
    requires RepliesOk(db.jobs, w.replies) && TxInv(cfg, db, w, tx) && ReadyToCommit(tx.prog) && CommitProof.InsertLegal(db.jobs, tx)
    requires j in db.jobs && db.jobs[j].status == Queued && db.jobs[j].startedAt.None?
    ensures var jobs' := Publish(db, tx).jobs;
      && j in jobs'
      && (jobs'[j].status.IsTerminal() <==> tx.prog.DoneCommit? && tx.prog.job == j)
      && (jobs'[j].status.IsTerminal() ==>
            tx.prog.completion.Failure? && jobs'[j].status == Failed && jobs'[j].startedAt.None?)
  {
  }

  /** A queued job ends exactly when a completion of it commits; that completion is then a failure report, and
      the job ends failed without ever having started. Under any interleaving. */
  lemma QueuedJobEnds(ss: seq<State>, es: seq<Event>, n: nat, j: JobId)
    requires Run(ss, es) && n < |es| && j in ss[n].db.jobs && ss[n].db.jobs[j].status == Queued
    ensures j in ss[n + 1].db.jobs
    ensures var row', e := ss[n + 1].db.jobs[j], es[n];
      && (row'.status.IsTerminal() <==>
            e.Commit? && e.tx in ss[n].txs && ss[n].txs[e.tx].prog.DoneCommit? && ss[n].txs[e.tx].prog.job == j)
      && (row'.status.IsTerminal() ==>
            ss[n].txs[e.tx].prog.completion.Failure? && row'.status == Failed && row'.startedAt.None?)
  {
    RunStep(ss, es, n);
    var s, e := ss[n], es[n];
    assert RowOk(s.db.jobs[j]);
    if e.Commit? {
      var tx := s.txs[e.tx];
      assert TxInv(s.cfg, s.db, s.world, tx);
      CommitProof.LegalInsert(s.cfg, s.db, s.world, tx);
      QueuedCommit(s.cfg, s.db, s.world, tx, j);
    } else {
      TablesOnlyAtCommit(s, e, ss[n + 1]);
    }
  }

  // ----- queued orphans -----

  /** A queued job of the http deployment whose task was never created. */
  predicate Orphan(s: State, j: JobId) {
    && s.cfg.mode == Http && j in s.db.jobs && s.db.jobs[j].status == Queued
    && j !in s.world.toEnqueue && j !in s.world.tasks
  }

  /** Only a callback transaction takes a job out of the queue in the http deployment. */
  lemma LeavesQueue(cfg: Config, db: Db, w: World, tx: Tx, j: JobId)
    requires TxInv(cfg, db, w, tx) && ReadyToCommit(tx.prog) && cfg.mode == Http
    requires j in db.jobs && db.jobs[j].status == Queued && j in tx.writes && tx.writes[j].status != Queued
    ensures j in w.tasks
  {
  }

  lemma OrphanPublished(cfg: Config, db: Db, w: World, tx: Tx, j: JobId)
    requires RowsOk(db.jobs) && TasksOk(db.jobs, w) && CommitProof.Legal(cfg, db, w, tx)
    requires TxInv(cfg, db, w, tx) && ReadyToCommit(tx.prog) && cfg.mode == Http
    requires j in db.jobs && db.jobs[j].status == Queued && j !in w.tasks && j !in w.toEnqueue
    ensures j in Publish(db, tx).jobs && Publish(db, tx).jobs[j].status == Queued
    ensures forall p, delivered :: j !in AfterCommit(w, tx.prog, delivered, p).toEnqueue
  {
    CommitProof.Published(db, tx);
    CommitProof.LegalInsert(cfg, db, w, tx);
    if j in tx.writes && tx.writes[j].status != Queued {
      LeavesQueue(cfg, db, w, tx, j);
    }
  }

  lemma OrphanCommit(s: State, e: Event, s': State, j: JobId)
    requires Inv(s) && Step(s, e, s') && Orphan(s, j) && e.Commit?
    ensures Orphan(s', j)
  {
    var tx := s.txs[e.tx];
    CommitProof.LegalAll(s.cfg, s.db, s.world, tx);
    OrphanPublished(s.cfg, s.db, s.world, tx, j);
    CommitProof.WorldAdvances(s.world, tx.prog, e.delivered, e.poller);
  }

  lemma OrphanOther(s: State, e: Event, s': State, j: JobId)
    requires Step(s, e, s') && Orphan(s, j) && !e.Commit?
    ensures Orphan(s', j)
  {
    TablesOnlyAtCommit(s, e, s');
  }

  lemma OrphanStep(ss: seq<State>, es: seq<Event>, n: nat, j: JobId)
    requires Run(ss, es) && n < |es| && Orphan(ss[n], j)
    ensures Orphan(ss[n + 1], j)
  {
    RunStep(ss, es, n);
    if es[n].Commit? {
      OrphanCommit(ss[n], es[n], ss[n + 1], j);
    } else {
      OrphanOther(ss[n], es[n], ss[n + 1], j);
    }
  }

  /** A job whose enqueue failed stays queued for ever: no sweep, push or callback recovers it. */
  lemma {:induction false} OrphansStayQueued(ss: seq<State>, es: seq<Event>, i: nat, k: nat, j: JobId)
    requires Run(ss, es) && i <= k < |ss| && Orphan(ss[i], j)
    ensures Orphan(ss[k], j)
    decreases k
  {
    if i == k {
    } else {
      OrphansStayQueued(ss, es, i, k - 1, j);
      OrphanStep(ss, es, k - 1, j);
    }
  }
}
