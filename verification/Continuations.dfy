/** What can still become of a job: from any reachable state, which continuations of the protocol exist. */
module Continuations {
  import opened Rows
  import opened Protocol
  import opened Invariant
  import opened Atomic
  import opened Sequential
  import opened Anomalies
  import opened Guarantees
  import CommitProof
  import Preservation
  import Database

  // ----- continuations of a state -----

  lemma {:induction false} AfterKeeps(s: State, fs: seq<Event>, s': State)
    requires Inv(s) && After(s, fs) == Some(s')
    ensures Inv(s') && Later(s, s')
    decreases |fs|
  {
    if fs == [] {
    } else {
      var n := Next(s, fs[0]).value;
      Preservation.StepKeeps(s, fs[0], n);
      AfterKeeps(n, fs[1..], s');
      LaterTransitive(s, n, s');
    }
  }

  function Quieted(s: State): State {
    s.(txs := map[])
  }

  /** Every open transaction can be aborted. */
  lemma {:induction false} AbortAll(s: State) returns (fs: seq<Event>)
    ensures After(s, fs) == Some(Quieted(s))
    decreases |s.txs|
  {
    if s.txs == map[] {
      fs := [];
    } else {
      var t :| t in s.txs;
      var n := Close(s, t);
      assert s.txs.Keys == n.txs.Keys + {t};
      assert |s.txs.Keys| == |n.txs.Keys| + 1;
      var rest := AbortAll(n);
      fs := [Abort(t)] + rest;
      assert fs[1..] == rest;
    }
  }

  // ----- out of the queue -----

  ghost predicate Leaves(s: State, fs: seq<Event>, j: JobId) {
    && After(s, fs).Some?
    && j in After(s, fs).value.db.jobs && After(s, fs).value.db.jobs[j].status != Queued
  }

  lemma {:induction false} OrphanContinues(s: State, fs: seq<Event>, j: JobId)
    requires Inv(s) && Orphan(s, j) && After(s, fs).Some?
    ensures Orphan(After(s, fs).value, j)
    decreases |fs|
  {
    if fs == [] {
    } else {
      var n := Next(s, fs[0]).value;
      Preservation.StepKeeps(s, fs[0], n);
      if fs[0].Commit? {
        OrphanCommit(s, fs[0], n, j);
      } else {
        OrphanOther(s, fs[0], n, j);
      }
      OrphanContinues(n, fs[1..], j);
    }
  }

  /** The state once a waiting job has been enqueued, delivered and started. */
  function Launched(s: State, j: JobId): State
    requires j in s.db.jobs
  {
    var w := Enqueued(s.world, j, true);
    s.(db := Db(StartJobs(s.db.jobs, j, s.now), s.db.snaps), world := w.(replies := w.replies + {Reply(j, s.db.jobs[j].sha)}))
  }

  lemma EnqueueAndStart(s: State, j: JobId) returns (es: seq<Event>)
    requires s.txs == map[] && s.cfg.mode == Http && j in s.world.toEnqueue
    requires j in s.db.jobs && s.db.jobs[j].status == Queued
    ensures After(s, es) == Some(Launched(s, j))
  {
    var n := s.(world := Enqueued(s.world, j, true));
    AfterOne(s, Enqueue(j, true));
    Quiet(n, 0);
    QueuedStartAlone(n, 0, j);
    var start := [Begin(0, StartLock(j)), Stmt(0, 0), Stmt(0, 0), Commit(0, true, 0)];
    Chained(s, [Enqueue(j, true)], n, start, Launched(s, j));
    es := [Enqueue(j, true)] + start;
  }

  lemma CanLeave(s: State, j: JobId) returns (fs: seq<Event>)
    requires s.cfg.mode == Http && (j in s.world.tasks || j in s.world.toEnqueue)
    requires j in s.db.jobs && s.db.jobs[j].status == Queued
    ensures Leaves(s, fs, j)
  {
    var q := Quieted(s);
    var aborts := AbortAll(s);
    var rest;
    if j in s.world.tasks {
      Quiet(q, 0);
      QueuedStartAlone(q, 0, j);
      rest := [Begin(0, StartLock(j)), Stmt(0, 0), Stmt(0, 0), Commit(0, true, 0)];
    } else {
      rest := EnqueueAndStart(q, j);
    }
    Chained(s, aborts, q, rest, After(q, rest).value);
    fs := aborts + rest;
  }

  /** In the http deployment a queued job can still leave the queue exactly when its task has been created or its
      creation is still to be tried; the watchdog makes no difference. */
  lemma LeavesQueueIff(ss: seq<State>, es: seq<Event>, n: nat, j: JobId)
    requires Run(ss, es) && n < |ss| && ss[n].cfg.mode == Http
    requires j in ss[n].db.jobs && ss[n].db.jobs[j].status == Queued
    ensures (exists fs :: Leaves(ss[n], fs, j)) <==> j in ss[n].world.tasks || j in ss[n].world.toEnqueue
  {
    RunInv(ss, es, n);
    if j in ss[n].world.tasks || j in ss[n].world.toEnqueue {
      var fs := CanLeave(ss[n], j);
    } else {
      forall fs | After(ss[n], fs).Some?
        ensures !Leaves(ss[n], fs, j)
      {
        OrphanContinues(ss[n], fs, j);
      }
    }
  }

  /** A run to an orphan: the job is created and committed, its enqueue fails, and nothing can recover it. */
  lemma OrphanReached(cfg: Config) returns (ss: seq<State>, es: seq<Event>)
    requires cfg.mode == Http
    ensures Run(ss, es) && Orphan(ss[|es|], 0)
    ensures forall fs :: !Leaves(ss[|es|], fs, 0)
  {
    var first := FirstPush(cfg, "a");
    var s1 := OneJob(cfg, "a");
    var s2 := s1.(world := Enqueued(s1.world, 0, false));
    Extend(Init(cfg, 0), first, s1, Enqueue(0, false), s2);
    es := first + [Enqueue(0, false)];
    ss := AfterIsRun(cfg, 0, es);
    LeavesQueueIff(ss, es, |es|, 0);
  }

  // ----- snapshot conflicts -----

  /** A snapshot of the job's repository, branch and commit exists. */
  predicate Taken(db: Db, j: JobId)
    requires j in db.jobs
  {
    exists i :: i in db.snaps && KeyOf(db.snaps[i], db.jobs[j])
  }

  predicate KeyOf(snap: Snapshot, row: Job) {
    snap.repo == row.repo && snap.branch == row.branch && snap.sha == row.sha
  }

  lemma BlockedLater(d: Db, d': Db, j: JobId, i: SnapId)
    requires SnapsOk(d) && SnapsOk(d') && j in d.jobs && d.jobs[j].status == Running
    requires i in d.snaps && KeyOf(d.snaps[i], d.jobs[j])
    requires j in d'.jobs && Evolves(d.jobs[j], d'.jobs[j]) && i in d'.snaps && d'.snaps[i] == d.snaps[i]
    ensures d'.jobs[j].status != Succeeded
  {
    assert SnapshotMatches(d.jobs, d.snaps[i]);
    if d'.jobs[j].status == Succeeded {
      var k :| k in d'.snaps && d'.snaps[k].job == j;
      assert SnapshotMatches(d'.jobs, d'.snaps[k]);
      assert SameKey(d'.snaps[i], d'.snaps[k]);
    }
  }

  /** A running job for whose commit another job has stored a snapshot is succeeded in no later state. */
  lemma BlockedJobNeverSucceeds(ss: seq<State>, es: seq<Event>, n: nat, k: nat, j: JobId)
    requires Run(ss, es) && n <= k < |ss|
    requires j in ss[n].db.jobs && ss[n].db.jobs[j].status == Running && Taken(ss[n].db, j)
    ensures j in ss[k].db.jobs && ss[k].db.jobs[j].status != Succeeded
  {
    RunLater(ss, es, n, k);
    RunInv(ss, es, n);
    RunInv(ss, es, k);
    var i :| i in ss[n].db.snaps && KeyOf(ss[n].db.snaps[i], ss[n].db.jobs[j]);
    BlockedLater(ss[n].db, ss[k].db, j, i);
  }

  function OwnPath(row: Job): Completion {
    Success(SnapshotPath(row.repo, row.repo, row.sha))
  }

  /** A success report for a running job whose start has been answered, in a quiet state. */
  lemma ReportSuccess(s: State, j: JobId, id: SnapId)
    requires s.txs == map[] && MayCall(s.cfg, s.world, j) && id !in s.db.snaps
    requires j in s.db.jobs && s.db.jobs[j].status == Running && Reply(j, s.db.jobs[j].sha) in s.world.replies
    ensures var c := OwnPath(s.db.jobs[j]);
      After(s, CompleteEvents(0, j, c, id, CompleteAnswer(s.db, j, c).RolledBack?))
      == Some(s.(db := CompleteDb(s.db, j, c, id, s.now)))
  {
    var c, r := OwnPath(s.db.jobs[j]), Reply(j, s.db.jobs[j].sha);
    Quiet(s, 0);
    assert Earned(s.db, s.world, j, c) by {
      assert r in s.world.replies && r.job == j && c.path == SnapshotPath(s.db.jobs[j].repo, s.db.jobs[j].repo, r.sha);
    }
    ActiveCompleteAlone(s, 0, j, c, id);
  }

  ghost predicate Succeeds(s: State, fs: seq<Event>, j: JobId) {
    && After(s, fs).Some?
    && j in After(s, fs).value.db.jobs && After(s, fs).value.db.jobs[j].status == Succeeded
  }

  /** An executor has the job, or will be handed it: always in the http deployment, where its task is delivered
      again and again; in the poll deployment when it has been dispatched or a poller holds it. */
  predicate InGoodHands(s: State, j: JobId) {
    s.cfg.mode == Http || j in s.world.dispatched || exists p :: p in s.world.held && s.world.held[p] == j
  }

  predicate AllStartedHaveTasks(s: State) {
    forall j :: j in s.db.jobs && s.db.jobs[j].status != Queued ==> j in s.world.tasks
  }

  lemma TasksStep(s: State, e: Event, s': State)
    requires Inv(s) && Step(s, e, s') && Advances(s, s') && s.cfg.mode == Http
    requires AllStartedHaveTasks(s)
    ensures AllStartedHaveTasks(s')
  {
    forall j | j in s'.db.jobs && s'.db.jobs[j].status != Queued
      ensures j in s.world.tasks
    {
      if j in s.db.jobs && s.db.jobs[j].status == Queued {
        LeavingJobHasTask(s, e, s', j);
      }
    }
    assert IsPrefix(s.world.tasks, s'.world.tasks);
  }

  lemma LeavingJobHasTask(s: State, e: Event, s': State, j: JobId)
    requires Inv(s) && Step(s, e, s') && s.cfg.mode == Http
    requires j in s.db.jobs && s.db.jobs[j].status == Queued && j in s'.db.jobs && s'.db.jobs[j].status != Queued
    ensures j in s.world.tasks
  {
    if !e.Commit? {
      TablesOnlyAtCommit(s, e, s');
    } else {
      assert TxInv(s.cfg, s.db, s.world, s.txs[e.tx]);
      LeavingCommit(s.cfg, s.db, s.world, s.txs[e.tx], j);
    }
  }

  lemma LeavingCommit(cfg: Config, db: Db, w: World, tx: Tx, j: JobId)
    requires TxInv(cfg, db, w, tx) && ReadyToCommit(tx.prog) && cfg.mode == Http
    requires j in db.jobs && db.jobs[j].status == Queued && j in Publish(db, tx).jobs && Publish(db, tx).jobs[j].status != Queued
    ensures j in w.tasks
  {
    CommitProof.LegalInsert(cfg, db, w, tx);
    LeavesQueue(cfg, db, w, tx, j);
  }

  lemma TasksNext(ss: seq<State>, es: seq<Event>, n: nat)
    requires Run(ss, es) && n < |es| && ss[n].cfg.mode == Http && AllStartedHaveTasks(ss[n])
    ensures AllStartedHaveTasks(ss[n + 1])
  {
    RunStep(ss, es, n);
    TasksStep(ss[n], es[n], ss[n + 1]);
  }

  /** In the http deployment every job that has left the queue has a task. */
  lemma {:induction false} StartedJobsHaveTasks(ss: seq<State>, es: seq<Event>, n: nat)
    requires Run(ss, es) && n < |ss| && ss[0].cfg.mode == Http
    ensures AllStartedHaveTasks(ss[n])
  {
    if n == 0 {
    } else {
      StartedJobsHaveTasks(ss, es, n - 1);
      RunLater(ss, es, 0, n - 1);
      TasksNext(ss, es, n - 1);
    }
  }

  lemma DispatchedBefore(s: State, e: Event, s': State, j: JobId)
    requires Step(s, e, s') && j in s'.world.dispatched
    ensures j in s.world.dispatched || exists p :: p in s.world.held && s.world.held[p] == j
  {
  }

  lemma HeldByNobody(s: State, e: Event, s': State, j: JobId, p: PollerId)
    requires Inv(s) && Step(s, e, s') && j in s.db.jobs && s.db.jobs[j].status != Queued && p in s'.world.held
    requires forall q :: q in s.world.held ==> s.world.held[q] != j
    ensures s'.world.held[p] != j
  {
    if s'.world.held[p] == j {
      HeldStep(s, e, s', j, p);
    }
  }

  lemma Abandoned(s: State, e: Event, s': State, j: JobId)
    requires Inv(s) && Step(s, e, s') && s'.cfg == s.cfg
    requires j in s.db.jobs && s.db.jobs[j].status != Queued && !InGoodHands(s, j)
    ensures !InGoodHands(s', j)
  {
    forall p | p in s'.world.held
      ensures s'.world.held[p] != j
    {
      HeldByNobody(s, e, s', j, p);
    }
    if j in s'.world.dispatched {
      DispatchedBefore(s, e, s', j);
    }
  }

  lemma {:induction false} AbandonedForGood(s: State, fs: seq<Event>, s': State, j: JobId)
    requires Inv(s) && After(s, fs) == Some(s') && j in s.db.jobs && s.db.jobs[j].status != Queued && !InGoodHands(s, j)
    ensures !InGoodHands(s', j) && Inv(s')
    decreases |fs|
  {
    if fs == [] {
    } else {
      var n := Next(s, fs[0]).value;
      Preservation.StepKeeps(s, fs[0], n);
      Abandoned(s, fs[0], n, j);
      assert Evolves(s.db.jobs[j], n.db.jobs[j]);
      AbandonedForGood(n, fs[1..], s', j);
    }
  }

  lemma NotTakenIsFree(d: Db, j: JobId, c: Completion)
    requires j in d.jobs && !Taken(d, j) && c.Success?
    ensures !KeyUsed(d.snaps, SnapRow(d.jobs[j], j, c))
  {
    forall i | i in d.snaps
      ensures !SameKey(d.snaps[i], SnapRow(d.jobs[j], j, c))
    {
      assert !KeyOf(d.snaps[i], d.jobs[j]);
    }
  }

  /** Start it again, then report success. */
  lemma StartAndReport(s: State, j: JobId) returns (fs: seq<Event>)
    requires s.txs == map[] && MayCall(s.cfg, s.world, j) && j in s.db.jobs && s.db.jobs[j].status == Running
    requires !Taken(s.db, j)
    ensures Succeeds(s, fs, j)
  {
    var n := s.(world := s.world.(replies := s.world.replies + {Reply(j, s.db.jobs[j].sha)}));
    Quiet(s, 0);
    RunningStartAlone(s, 0, j);
    var id := Database.FreshKey(s.db.snaps.Keys);
    ReportSuccess(n, j, id);
    NotTakenIsFree(s.db, j, OwnPath(s.db.jobs[j]));
    var start, report := [Begin(0, StartLock(j)), Stmt(0, 0), Commit(0, true, 0)], CompleteEvents(0, j, OwnPath(s.db.jobs[j]), id, false);
    Chained(s, start, n, report, n.(db := CompleteDb(n.db, j, OwnPath(s.db.jobs[j]), id, n.now)));
    fs := start + report;
  }

  /** Abort what is open, hand the job over if a poller still holds it, and run it. */
  lemma CanSucceed(s: State, j: JobId) returns (fs: seq<Event>)
    requires s.cfg.mode == Http ==> j in s.world.tasks
    requires InGoodHands(s, j) && j in s.db.jobs && s.db.jobs[j].status == Running && !Taken(s.db, j)
    ensures Succeeds(s, fs, j)
  {
    var q := Quieted(s);
    var aborts := AbortAll(s);
    if MayCall(s.cfg, s.world, j) {
      var rest := StartAndReport(q, j);
      Chained(s, aborts, q, rest, After(q, rest).value);
      fs := aborts + rest;
    } else {
      var p :| p in s.world.held && s.world.held[p] == j;
      var h := q.(world := Handed(q.world, p));
      Extend(s, aborts, q, Dispatch(p), h);
      var rest := StartAndReport(h, j);
      Chained(s, aborts + [Dispatch(p)], h, rest, After(h, rest).value);
      fs := aborts + [Dispatch(p)] + rest;
    }
  }

  lemma TakenLater(d: Db, d': Db, j: JobId)
    requires SnapsOk(d) && SnapsOk(d') && j in d.jobs && d.jobs[j].status == Running && Taken(d, j)
    requires j in d'.jobs && Evolves(d.jobs[j], d'.jobs[j])
    requires forall i :: i in d.snaps ==> i in d'.snaps && d'.snaps[i] == d.snaps[i]
    ensures d'.jobs[j].status != Succeeded
  {
    var i :| i in d.snaps && KeyOf(d.snaps[i], d.jobs[j]);
    BlockedLater(d, d', j, i);
  }

  lemma CannotSucceed(s: State, fs: seq<Event>, j: JobId)
    requires Inv(s) && j in s.db.jobs && s.db.jobs[j].status == Running && (Taken(s.db, j) || !InGoodHands(s, j))
    ensures !Succeeds(s, fs, j)
  {
    if After(s, fs).Some? {
      var s' := After(s, fs).value;
      if Taken(s.db, j) {
        AfterKeeps(s, fs, s');
        TakenLater(s.db, s'.db, j);
      } else {
        AbandonedForGood(s, fs, s', j);
        NeverSucceededUndispatched(s'.cfg, s'.db, s'.world, j);
      }
    }
  }

  lemma NeverSucceededUndispatched(cfg: Config, db: Db, w: World, j: JobId)
    requires OwnershipOk(cfg, db.jobs, w) && cfg.mode == Poll && j !in w.dispatched
    ensures j in db.jobs ==> db.jobs[j].status != Succeeded
  {
  }

  /** A running job can still succeed exactly when no snapshot of its repository, branch and commit exists and, in
      the poll deployment, it has been dispatched or a poller holds it. */
  lemma SucceedsIff(ss: seq<State>, es: seq<Event>, n: nat, j: JobId)
    requires Run(ss, es) && n < |ss| && j in ss[n].db.jobs && ss[n].db.jobs[j].status == Running
    ensures (exists fs :: Succeeds(ss[n], fs, j)) <==> !Taken(ss[n].db, j) && InGoodHands(ss[n], j)
  {
    RunInv(ss, es, n);
    if !Taken(ss[n].db, j) && InGoodHands(ss[n], j) {
      if ss[n].cfg.mode == Http {
        RunLater(ss, es, 0, n);
        StartedJobsHaveTasks(ss, es, n);
      }
      var fs := CanSucceed(ss[n], j);
    } else {
      forall fs: seq<Event>
        ensures !Succeeds(ss[n], fs, j)
      {
        CannotSucceed(ss[n], fs, j);
      }
    }
  }

  // ----- a run into a conflict -----

  /** One job for commit "a" has succeeded. */
  function OneSuccess(cfg: Config): State {
    var s := Launched(OneJob(cfg, "a"), 0);
    s.(db := Db(s.db.jobs[0 := CompletedRow(s.db.jobs[0], OwnPath(s.db.jobs[0]), 0)],
                map[0 := SnapRow(s.db.jobs[0], 0, OwnPath(s.db.jobs[0]))]))
  }

  lemma FirstSuccess(cfg: Config) returns (es: seq<Event>)
    requires cfg.mode == Http
    ensures After(Init(cfg, 0), es) == Some(OneSuccess(cfg))
  {
    var first := FirstPush(cfg, "a");
    var s1 := OneJob(cfg, "a");
    var launch := EnqueueAndStart(s1, 0);
    var s2 := Launched(s1, 0);
    Chained(Init(cfg, 0), first, s1, launch, s2);
    assert s2.world.tasks == [0];
    ReportSuccess(s2, 0, 0);
    var c := OwnPath(s2.db.jobs[0]);
    assert !KeyUsed(s2.db.snaps, SnapRow(s2.db.jobs[0], 0, c));
    var report := CompleteEvents(0, 0, c, 0, false);
    assert s2.db.snaps[0 := SnapRow(s2.db.jobs[0], 0, c)] == map[0 := SnapRow(s2.db.jobs[0], 0, c)];
    Chained(Init(cfg, 0), first + launch, s2, report, OneSuccess(cfg));
    es := first + launch + report;
  }

  /** A second push of the same commit makes a second job. */
  function SecondJob(cfg: Config): State {
    var s, p := OneSuccess(cfg), PushToMain("a", "d2");
    s.(db := Db(s.db.jobs[1 := NewRow(p, 0)], s.db.snaps),
       world := s.world.(pushes := s.world.pushes + [PushRecord(p, Inserted(1))], toEnqueue := s.world.toEnqueue + {1}))
  }

  lemma SecondPush(cfg: Config) returns (es: seq<Event>)
    ensures After(OneSuccess(cfg), es) == Some(SecondJob(cfg))
  {
    var s := OneSuccess(cfg);
    Quiet(s, 0);
    assert s.db.jobs.Keys == {0} && s.db.jobs[0].status == Succeeded && s.db.jobs[0].delivery == Some("d1");
    assert QueuedOn(s.db.jobs, "r", "main") == {};
    assert !DeliveryUsed(s.db.jobs, Some("d2"));
    PushMakesAlone(s, 0, PushToMain("a", "d2"), 0, 1);
    es := PushEvents(0, PushToMain("a", "d2"), 0, 1);
  }

  /** The second job runs to its success report, which is rolled back: the job is still running, the commit has
      the snapshot of the first job, and no continuation of the run makes the second job succeed. */
  lemma SnapshotConflict(cfg: Config) returns (ss: seq<State>, es: seq<Event>)
    requires cfg.mode == Http
    ensures Run(ss, es) && |es| >= 4
    ensures var s := ss[|es|];
      && 1 in s.db.jobs && s.db.jobs[1].status == Running && Taken(s.db, 1)
      && es[|es| - 4] == Begin(0, DoneLock(1, OwnPath(s.db.jobs[1]))) && s.txs == map[]
      && forall fs :: !Succeeds(s, fs, 1)
  {
    var one := FirstSuccess(cfg);
    var two := SecondPush(cfg);
    Chained(Init(cfg, 0), one, OneSuccess(cfg), two, SecondJob(cfg));
    var launch := EnqueueAndStart(SecondJob(cfg), 1);
    var s5 := Launched(SecondJob(cfg), 1);
    Chained(Init(cfg, 0), one + two, SecondJob(cfg), launch, s5);
    ConflictState(cfg);
    ReportSuccess(s5, 1, 1);
    var report := CompleteEvents(0, 1, OwnPath(s5.db.jobs[1]), 1, true);
    Chained(Init(cfg, 0), one + two + launch, s5, report, s5);
    es := one + two + launch + report;
    ss := AfterIsRun(cfg, 0, es);
    SucceedsIff(ss, es, |es|, 1);
  }

  lemma ConflictState(cfg: Config)
    requires cfg.mode == Http
    ensures var s := Launched(SecondJob(cfg), 1);
      && s.txs == map[] && 1 in s.db.jobs && s.db.jobs[1].status == Running && s.db.jobs[1].sha == "a"
      && 1 !in s.db.snaps && 1 in s.world.tasks && Reply(1, "a") in s.world.replies
      && Taken(s.db, 1) && KeyUsed(s.db.snaps, SnapRow(s.db.jobs[1], 1, OwnPath(s.db.jobs[1])))
  {
    var s := Launched(SecondJob(cfg), 1);
    assert KeyOf(s.db.snaps[0], s.db.jobs[1]);
    assert SameKey(s.db.snaps[0], SnapRow(s.db.jobs[1], 1, OwnPath(s.db.jobs[1])));
  }
}
