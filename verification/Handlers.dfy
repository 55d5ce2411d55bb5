/** The handlers in the form of the source: each method runs its statements against the store in order
    and is proved against its atomic effect. */
module Handlers {
  import opened Rows
  import opened Protocol
  import opened Atomic
  import opened Database

  /** The first queued job of the listing is the oldest queued job of the branch. */
  lemma FirstIsOldest(jobs: map<JobId, Job>, repo: RepoId, branch: Branch, active: seq<JobId>, i: nat)
    requires OldestFirst(jobs, ActiveOn(jobs, repo, branch), active) && i < |active|
    requires active[i] in QueuedOn(jobs, repo, branch)
    requires forall k :: 0 <= k < i ==> active[k] !in QueuedOn(jobs, repo, branch)
    ensures Oldest(jobs, QueuedOn(jobs, repo, branch), active[i])
  {
    forall k | k in QueuedOn(jobs, repo, branch)
      ensures jobs[active[i]].createdAt <= jobs[k].createdAt
    {
      assert k in active;
      var x :| 0 <= x < |active| && active[x] == k;
    }
  }

  class JobService {
    const db: Store
    var tasks: seq<JobId> // created Cloud Tasks, in order

    constructor (db: Store)
      ensures this.db == db && tasks == []
    {
      this.db := db;
      tasks := [];
    }

    /** Create the Cloud Tasks task; it may fail. */
    method Enqueue(j: JobId, ok: bool)
      modifies this`tasks
      ensures tasks == old(tasks) + if ok then [j] else []
    {
      if ok {
        tasks := tasks + [j];
      }
    }

    /** The error is answered iff a fault strikes before the handler is through: the lookup is statement 0, then
        follow the lock, the read and the write. It leaves nothing behind unless the commit was applied all the
        same; then the effect is there but a created job is not enqueued. */
    method HandlePush(registered: map<int, RepoId>, githubId: int, branch: Branch, sha: Sha, delivery: string,
                      fault: TxFault, enqueueOk: bool)
      returns (r: PushResult)
      modifies this`tasks, db`jobs, db`snapshots
      ensures r == PushError <==>
        || fault == BeginFails || fault == QueryFails(0)
        || (githubId in registered
            && (|| fault == QueryFails(1) || fault == QueryFails(2) || fault == QueryFails(3)
                || (fault.CommitFails? && !Redundant(old(db.jobs), registered[githubId], branch, delivery))))
      ensures r == PushError && fault != CommitFails(true) ==> db.jobs == old(db.jobs)
      ensures r != PushError && githubId !in registered ==> r == Dropped && db.jobs == old(db.jobs)
      ensures githubId in registered && (r != PushError || fault == CommitFails(true)) ==>
        exists a :: (r != PushError ==> a == r)
                    && Pushes(old(db.jobs), Push(registered[githubId], branch, sha, delivery), db.clock, db.jobs, a)
      ensures r == Dropped ==> githubId !in registered
      ensures r.Moved? ==>
        && githubId in registered && r.job in QueuedOn(old(db.jobs), registered[githubId], branch)
        && (forall k :: k in QueuedOn(old(db.jobs), registered[githubId], branch) ==>
              old(db.jobs)[r.job].createdAt <= old(db.jobs)[k].createdAt)
        && db.jobs == old(db.jobs)[r.job := old(db.jobs)[r.job].(sha := sha)]
      ensures r.Made? || r == Duplicate ==>
        githubId in registered && QueuedOn(old(db.jobs), registered[githubId], branch) == {}
      ensures r.Made? ==>
        && r.job !in old(db.jobs)
        && (forall k :: k in old(db.jobs) && delivery != "" ==> old(db.jobs)[k].delivery != Some(delivery))
        && db.jobs == old(db.jobs)[r.job := Job(registered[githubId], branch, sha, if delivery == "" then None else Some(delivery),
                                                Queued, None, db.clock, None, None)]
      ensures r == Duplicate ==>
        && delivery != "" && (exists k :: k in old(db.jobs) && old(db.jobs)[k].delivery == Some(delivery))
        && db.jobs == old(db.jobs)
      ensures tasks == old(tasks) + (if r.Made? && enqueueOk then [r.job] else [])
      ensures db.snapshots == old(db.snapshots)
    {
      var before := db.Tables();
      if fault == BeginFails || fault == QueryFails(0) {
        return PushError;
      }
      if githubId !in registered {
        return Dropped;
      }
      var push := Push(registered[githubId], branch, sha, delivery);
      if fault == QueryFails(1) || fault == QueryFails(2) {
        return PushError;
      }
      var active := db.GetActiveJobsForBranch(push.repo, push.branch);
      ghost var queued := QueuedOn(db.jobs, push.repo, push.branch);
      for i := 0 to |active|
        invariant db.jobs == old(db.jobs) && tasks == old(tasks)
        invariant forall k :: 0 <= k < i ==> active[k] !in queued
      {
        var j := active[i];
        assert j in active;
        if db.jobs[j].status == Queued {
          assert Oldest(db.jobs, queued, j) by {
            FirstIsOldest(db.jobs, push.repo, push.branch, active, i);
          }
          if fault == QueryFails(3) {
            return PushError;
          }
          db.UpdateJobCommitSHA(j, push.sha);
          assert Pushes(before.jobs, push, db.clock, db.jobs, Moved(j));
          if fault.CommitFails? {
            if !fault.applied {
              db.Rollback(before);
            }
            return PushError;
          }
          return Moved(j);
        }
      }
      assert forall k :: k in active ==> k !in queued;
      assert forall k :: k in queued ==> k in active;
      assert queued == {};
      if fault == QueryFails(3) {
        return PushError;
      }
      var created := db.CreateJob(push);
      if created.None? {
        assert Pushes(before.jobs, push, db.clock, db.jobs, Duplicate);
        return Duplicate;
      }
      assert Pushes(before.jobs, push, db.clock, db.jobs, Made(created.value));
      if fault.CommitFails? {
        if !fault.applied {
          db.Rollback(before);
        }
        return PushError;
      }
      Enqueue(created.value, enqueueOk);
      return Made(created.value);
    }
  }

  /** A known delivery without a queued job: the handler ends before the commit. */
  predicate Redundant(jobs: map<JobId, Job>, repo: RepoId, branch: Branch, delivery: string) {
    && QueuedOn(jobs, repo, branch) == {}
    && delivery != "" && exists j :: j in jobs && jobs[j].delivery == Some(delivery)
  }

  class CallbackHandler {
    const db: Store

    constructor (db: Store)
      ensures this.db == db
    {
      this.db := db;
    }

    /** Statement 0 is the locked read, statement 1 the update; `respondOk` says whether the lookup and the clone
        token for the answer succeed, after the commit. */
    method Start(j: JobId, fault: TxFault, respondOk: bool) returns (r: StartResult)
      modifies db`jobs, db`snapshots
      ensures db.Tables() == if Undoes(fault, 2) then old(db.Tables())
                             else Db(StartJobs(old(db.jobs), j, db.clock), old(db.snapshots))
      ensures r == StartError <==> StartBreaks(old(db.jobs), j, fault, respondOk)
      ensures r != StartError ==> r == StartAnswer(old(db.jobs), j)
      ensures r == StartNotFound <==> fault != BeginFails && fault != QueryFails(0) && j !in old(db.jobs)
      ensures r.AlreadyTerminal? <==>
        fault != BeginFails && fault != QueryFails(0) && j in old(db.jobs) && old(db.jobs)[j].status.IsTerminal()
      ensures r.AlreadyTerminal? ==> r.status == old(db.jobs)[j].status
      ensures r.Started? <==>
        && j in old(db.jobs) && (old(db.jobs)[j].status == Queued || old(db.jobs)[j].status == Running)
        && fault != BeginFails && fault != QueryFails(0) && !fault.CommitFails? && respondOk
        && !(fault == QueryFails(1) && old(db.jobs)[j].status == Queued)
      ensures r.Started? ==> r.row == old(db.jobs)[j]
      ensures
        var moves := j in old(db.jobs) && old(db.jobs)[j].status == Queued
                     && fault != BeginFails && fault != QueryFails(0) && fault != QueryFails(1) && fault != CommitFails(false);
        db.jobs == if moves then old(db.jobs)[j := old(db.jobs)[j].(status := Running, error := None, startedAt := Some(db.clock))]
                   else old(db.jobs)
      ensures db.snapshots == old(db.snapshots)
    {
      var before := db.Tables();
      if fault == BeginFails || fault == QueryFails(0) {
        return StartError;
      }
      if j !in db.jobs {
        return StartNotFound;
      }
      var job := db.jobs[j];
      if job.status == Running {
        if fault.CommitFails? || !respondOk {
          return StartError;
        }
        return Started(job);
      }
      if job.status.IsTerminal() {
        return AlreadyTerminal(job.status);
      }
      if fault == QueryFails(1) {
        return StartError;
      }
      db.UpdateJobStatus(j, Running, None);
      if fault.CommitFails? {
        if !fault.applied {
          db.Rollback(before);
        }
        return StartError;
      }
      return if respondOk then Started(job) else StartError;
    }

    /** Statement 0 is the locked read, 1 the status update, 2 the snapshot insert. A failing commit of the no-op
        on a terminal job goes unnoticed, as in the source. */
    method Complete(j: JobId, c: Completion, fault: TxFault) returns (r: CompleteResult, ghost id: SnapId)
      modifies db`jobs, db`snapshots
      ensures db.Tables() == if Undoes(fault, if c.Success? then 3 else 2) then old(db.Tables())
                             else CompleteDb(old(db.Tables()), j, c, id, db.clock)
      ensures r == CompleteError <==> CompleteBreaks(old(db.Tables()), j, c, fault)
      ensures r != CompleteError ==> r == CompleteAnswer(old(db.Tables()), j, c)
      ensures id !in old(db.snapshots)
      ensures r == CompleteNotFound <==> fault != BeginFails && fault != QueryFails(0) && j !in old(db.jobs)
      ensures r.NoOp? <==>
        fault != BeginFails && fault != QueryFails(0) && j in old(db.jobs) && old(db.jobs)[j].status.IsTerminal()
      ensures r.NoOp? ==> r.status == old(db.jobs)[j].status
      ensures r.Completed? ==> j in db.jobs && db.jobs[j].status == r.status && (r.status == Succeeded <==> c.Success?)
      ensures r == RolledBack <==>
        && j in old(db.jobs) && !old(db.jobs)[j].status.IsTerminal() && c.Success? && KeyTaken(old(db.snapshots), old(db.jobs)[j])
        && fault != BeginFails && fault != QueryFails(0) && fault != QueryFails(1) && fault != QueryFails(2)
      ensures
        var commits := j in old(db.jobs) && !old(db.jobs)[j].status.IsTerminal()
                       && !(c.Success? && (KeyTaken(old(db.snapshots), old(db.jobs)[j]) || fault == QueryFails(2)))
                       && fault != BeginFails && fault != QueryFails(0) && fault != QueryFails(1) && fault != CommitFails(false);
        && (r.Completed? <==> commits && fault != CommitFails(true))
        && if !commits then db.Tables() == old(db.Tables()) else
        && j in db.jobs && WrittenAs(old(db.jobs)[j], db.jobs[j], c, db.clock) && db.jobs == old(db.jobs)[j := db.jobs[j]]
        && db.snapshots == if c.Failure? then old(db.snapshots)
             else var row := old(db.jobs)[j]; old(db.snapshots)[id := Snapshot(row.repo, j, row.branch, row.sha, c.path)]
    {
      var before := db.Tables();
      id := FreshKey(db.snapshots.Keys);
      if fault == BeginFails || fault == QueryFails(0) {
        return CompleteError, id;
      }
      if j !in db.jobs {
        return CompleteNotFound, id;
      }
      var job := db.jobs[j];
      if job.status.IsTerminal() {
        return NoOp(job.status), id;
      }
      if fault == QueryFails(1) {
        return CompleteError, id;
      }
      var status := if c.Success? then Succeeded else Failed;
      db.UpdateJobStatus(j, status, if c.Success? then None else NullIfEmpty(c.message));
      if c.Success? {
        var inserted := None;
        if fault != QueryFails(2) {
          inserted := db.InsertSnapshot(Snapshot(job.repo, j, job.branch, job.sha, c.path));
        }
        if inserted.None? {
          db.Rollback(before);
          return if fault == QueryFails(2) then CompleteError else RolledBack, id;
        }
        id := inserted.value;
      }
      if fault.CommitFails? {
        if !fault.applied {
          db.Rollback(before);
        }
        return CompleteError, id;
      }
      return Completed(status), id;
    }
  }

  /** A snapshot of the row's repository, branch and commit exists. */
  predicate KeyTaken(snaps: map<SnapId, Snapshot>, row: Job) {
    exists i :: i in snaps && snaps[i].repo == row.repo && snaps[i].branch == row.branch && snaps[i].sha == row.sha
  }

  /** The completed row: status and message as reported, finished at the transaction's time, the rest untouched. */
  predicate WrittenAs(row: Job, row': Job, c: Completion, now: Time) {
    && row' == row.(status := row'.status, error := row'.error, finishedAt := Some(now))
    && (c.Success? ==> row'.status == Succeeded && row'.error == None)
    && (c.Failure? ==> row'.status == Failed && row'.error == if c.message == "" then None else Some(c.message))
  }

  predicate StartBreaks(jobs: map<JobId, Job>, j: JobId, fault: TxFault, respondOk: bool) {
    || fault == BeginFails || fault == QueryFails(0)
    || (fault == QueryFails(1) && j in jobs && jobs[j].status == Queued)
    || (StartAnswer(jobs, j).Started? && (fault.CommitFails? || !respondOk))
  }

  predicate CompleteBreaks(db: Db, j: JobId, c: Completion, fault: TxFault) {
    || fault == BeginFails || fault == QueryFails(0)
    || (j in db.jobs && !db.jobs[j].status.IsTerminal()
        && (fault == QueryFails(1) || (fault == QueryFails(2) && c.Success?)
            || (fault.CommitFails? && CompleteAnswer(db, j, c) != RolledBack)))
  }

  // ----- the executor -----

  /** How the calls an execution makes turn out. To the worker a callback whose transaction is undone is as good
      as one whose request was lost, and one that commits but answers an error as one whose answer was lost. */
  datatype Fate = Fate(start: Net, respondOk: bool, runOk: bool, readOk: bool, uploadOk: bool, complete: Net)

  /** What an executor asks of others, in order, with the outcome of the steps between the two callbacks. */
  datatype Call =
    | StartCall(job: JobId)
    | RunCall(sha: Sha, ok: bool)
    | ReadCall(ok: bool)
    | UploadCall(path: string, ok: bool)
    | CompleteCall(job: JobId, completion: Completion)

  /** The commit the worker learns from its start callback, if any. */
  function Learned(jobs: map<JobId, Job>, j: JobId, fate: Fate): Option<Sha> {
    match StartAnswer(jobs, j)
    case Started(row) => if fate.start == Arrives && fate.respondOk then Some(row.sha) else None
    case _ => None
  }

  class Executor {
    const api: CallbackHandler
    var objects: set<string> // the bucket
    ghost var calls: seq<Call>

    constructor (api: CallbackHandler)
      ensures this.api == api && objects == {} && calls == []
    {
      this.api := api;
      objects, calls := {}, [];
    }

    method CallStart(j: JobId, fate: Fate) returns (info: Option<Sha>)
      modifies this`calls, api.db`jobs, api.db`snapshots
      ensures api.db.snapshots == old(api.db.snapshots)
      ensures calls == old(calls) + [StartCall(j)]
      ensures info == Learned(old(api.db.jobs), j, fate)
      ensures info.Some? <==>
        && j in old(api.db.jobs) && (old(api.db.jobs)[j].status == Queued || old(api.db.jobs)[j].status == Running)
        && fate.start == Arrives && fate.respondOk
      ensures info.Some? ==> info.value == old(api.db.jobs)[j].sha
      ensures api.db.jobs == if fate.start == RequestLost then old(api.db.jobs)
                             else StartJobs(old(api.db.jobs), j, api.db.clock)
    {
      calls := calls + [StartCall(j)];
      if fate.start == RequestLost {
        return None;
      }
      var answer := api.Start(j, NoFault, fate.respondOk);
      if !answer.Started? || fate.start == AnswerLost {
        return None;
      }
      return Some(answer.row.sha);
    }

    method CallComplete(j: JobId, c: Completion, net: Net) returns (ghost id: SnapId)
      modifies this`calls, api.db`jobs, api.db`snapshots
      ensures calls == old(calls) + [CompleteCall(j, c)]
      ensures api.db.Tables() == if net == RequestLost then old(api.db.Tables())
                                 else CompleteDb(old(api.db.Tables()), j, c, id, api.db.clock)
      ensures id !in old(api.db.snapshots)
    {
      calls := calls + [CompleteCall(j, c)];
      id := FreshKey(api.db.snapshots.Keys);
      if net != RequestLost {
        var r, i := api.Complete(j, c, NoFault);
        id := i;
      }
    }

    /** What follows an answered start: run, read, upload, each only if the one before worked; then there is a
        report to make. */
    method Produce(sha: Sha, org: string, repo: RepoId, fate: Fate) returns (c: Completion)
      modifies this`objects, this`calls
      ensures old(calls) <= calls && Produced(calls[|old(calls)|..], c, sha, SnapshotPath(org, repo, sha), fate)
      ensures objects == old(objects) + if c.Success? then {c.path} else {}
    {
      calls := calls + [RunCall(sha, fate.runOk)];
      if !fate.runOk {
        return Failure("run");
      }
      var path := SnapshotPath(org, repo, sha);
      calls := calls + [ReadCall(fate.readOk)];
      if !fate.readOk {
        return Failure("read report");
      }
      calls := calls + [UploadCall(path, fate.uploadOk)];
      if !fate.uploadOk {
        return Failure("gcs upload");
      }
      objects := objects + {path};
      return Success(path);
    }

    /** Start, run, upload, complete. Whatever happens, a configured executor reports exactly once. It reports
        success exactly when nothing went wrong, after one successful run, read and upload in that order, with the
        path of the job's commit; otherwise nothing is in the bucket that was not there before. */
    method Execute(j: JobId, org: string, repo: RepoId, configured: bool, fate: Fate) returns (ghost id: SnapId)
      modifies this`objects, this`calls, api.db`jobs, api.db`snapshots
      ensures !configured ==> calls == old(calls) && objects == old(objects) && api.db.Tables() == old(api.db.Tables())
      ensures configured ==> old(calls) <= calls && Reported(calls[|old(calls)|..], j, old(api.db.jobs), org, repo, fate)
      ensures configured ==>
        var c := calls[|calls| - 1].completion;
        && (c.Success? <==>
              && j in old(api.db.jobs) && (old(api.db.jobs)[j].status == Queued || old(api.db.jobs)[j].status == Running)
              && fate.start == Arrives && fate.respondOk && fate.runOk && fate.readOk && fate.uploadOk)
        && (c.Success? ==>
              var sha := old(api.db.jobs)[j].sha;
              && c.path == org + "/" + repo + "/" + sha + "/snapshot.json"
              && calls == old(calls) + [StartCall(j), RunCall(sha, true), ReadCall(true), UploadCall(c.path, true), CompleteCall(j, c)])
        && objects == old(objects) + (if c.Success? then {c.path} else {})
        && api.db.Tables() == Executed(old(api.db.Tables()), j, c, fate, id, api.db.clock)
      ensures configured ==> id !in old(api.db.snapshots)
    {
      id := 0;
      if !configured {
        return;
      }
      var info := CallStart(j, fate);
      if info.None? {
        id := CallComplete(j, Failure("start callback"), fate.complete);
        Between(old(calls), calls, []);
        return;
      }
      ghost var started := calls;
      var c := Produce(info.value, org, repo, fate);
      ghost var between := calls[|started|..];
      id := CallComplete(j, c, fate.complete);
      Between(old(calls), calls, between);
    }
  }

  lemma Between(before: seq<Call>, calls: seq<Call>, between: seq<Call>)
    requires |calls| == |before| + |between| + 2
    requires calls == before + [calls[|before|]] + between + [calls[|calls| - 1]]
    ensures before <= calls && calls[|before|..][0] == calls[|before|]
    ensures calls[|before|..][1..|between| + 1] == between
  {
  }

  /** The start callback answers the executor. */
  predicate Answered(jobs: map<JobId, Job>, j: JobId, fate: Fate) {
    && j in jobs && (jobs[j].status == Queued || jobs[j].status == Running)
    && fate.start == Arrives && fate.respondOk
  }

  /** Run, read and upload for one commit, up to the first that fails; success is what is left. */
  predicate Produced(between: seq<Call>, c: Completion, sha: Sha, path: string, fate: Fate) {
    && (c.Failure? ==> c.message != "")
    && if !fate.runOk then between == [RunCall(sha, false)] && c.Failure?
       else if !fate.readOk then between == [RunCall(sha, true), ReadCall(false)] && c.Failure?
       else if !fate.uploadOk then between == [RunCall(sha, true), ReadCall(true), UploadCall(path, false)] && c.Failure?
       else between == [RunCall(sha, true), ReadCall(true), UploadCall(path, true)] && c == Success(path)
  }

  /** The calls one execution adds: a start and a report, and between them, if the start is answered, run, read
      and upload for the commit and the path of the job. */
  predicate Reported(added: seq<Call>, j: JobId, jobs: map<JobId, Job>, org: string, repo: RepoId, fate: Fate) {
    && |added| >= 2 && added[0] == StartCall(j) && added[|added| - 1].CompleteCall? && added[|added| - 1].job == j
    && var between, c := added[1..|added| - 1], added[|added| - 1].completion;
    if Answered(jobs, j, fate) then Produced(between, c, jobs[j].sha, SnapshotPath(org, repo, jobs[j].sha), fate)
    else between == [] && c.Failure? && c.message != ""
  }

  /** The tables after one execution that reports `c`. */
  function Executed(db: Db, j: JobId, c: Completion, fate: Fate, id: SnapId, now: Time): Db {
    var d := if fate.start == RequestLost then db else Db(StartJobs(db.jobs, j, now), db.snaps);
    if fate.complete == RequestLost then d else CompleteDb(d, j, c, id, now)
  }

  /** Where one undisturbed execution leaves an active job: succeeded iff it reported success and its
      snapshot key was free, running (until the watchdog) iff the key was taken, failed otherwise. */
  lemma ExecutionOutcome(db: Db, j: JobId, c: Completion, fate: Fate, id: SnapId, now: Time)
    requires j in db.jobs && !db.jobs[j].status.IsTerminal() && id !in db.snaps
    requires c.Success? ==> Learned(db.jobs, j, fate).Some?
    requires fate.complete != RequestLost && (c.Failure? ==> c.message != "")
    ensures var d' := Executed(db, j, c, fate, id, now);
      var snap := Snapshot(db.jobs[j].repo, j, db.jobs[j].branch, db.jobs[j].sha, if c.Success? then c.path else "");
      && j in d'.jobs
      && (d'.jobs[j].status == Succeeded <==> c.Success? && !KeyUsed(db.snaps, snap))
      && (d'.jobs[j].status == Running <==> c.Success? && KeyUsed(db.snaps, snap))
      && (d'.jobs[j].status == Failed <==> c.Failure?)
      && (d'.jobs[j].status == Succeeded <==> id in d'.snaps && d'.snaps[id] == snap)
  {
  }

  /** An execution of an active job leaves it failed without ever having started exactly when the job was queued,
      the start request was lost and the failure report got through; it is then failed straight from the queue. */
  lemma FailedStartFailsQueuedJob(db: Db, j: JobId, c: Completion, fate: Fate, id: SnapId, now: Time)
    requires j in db.jobs && !db.jobs[j].status.IsTerminal() && RowOk(db.jobs[j])
    requires c.Success? ==> Learned(db.jobs, j, fate).Some?
    ensures var row' := Executed(db, j, c, fate, id, now).jobs[j];
      && (row'.status == Failed && row'.startedAt.None? <==>
            db.jobs[j].status == Queued && fate.start == RequestLost && fate.complete != RequestLost)
      && (row'.status == Failed && row'.startedAt.None? ==>
            c.Failure? && row' == db.jobs[j].(status := Failed, error := NullIfEmpty(c.message), finishedAt := Some(now)))
  {
    if fate.start == RequestLost {
      assert Learned(db.jobs, j, fate).None?;
    }
  }
}
