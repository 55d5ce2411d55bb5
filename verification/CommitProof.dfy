/** A commit keeps the invariant: the published rows are legal successors, and no other open
    transaction can have relied on what they replaced. */
module CommitProof {
  import opened Rows
  import opened Protocol
  import opened Invariant

  // ----- what a transaction that is ready to commit is about to publish -----

  /** Every pending row is a legal successor of the committed one; a SHA moves only by an in-place push. */
  predicate WritesLegal(jobs: map<JobId, Job>, tx: Tx) {
    forall j :: j in tx.writes ==>
      j in tx.locks && j in jobs && Evolves(jobs[j], tx.writes[j]) && RowOk(tx.writes[j])
      && (tx.writes[j].sha != jobs[j].sha ==> tx.prog.PushCommit? && tx.prog.outcome == Updated(j))
  }

  predicate InsertLegal(jobs: map<JobId, Job>, tx: Tx) {
    tx.insert.Some? ==>
      var (j, row) := tx.insert.value;
      && tx.prog.PushCommit? && tx.prog.outcome == Inserted(j)
      && j !in jobs && row == NewRow(tx.prog.push, tx.now)
      && NoneQueued(jobs, tx.prog.push) && !DeliveryUsed(jobs, row.delivery)
      && tx.writes == map[] && tx.locks == {} && tx.snap.None?
  }

  /** A job succeeds exactly in the transaction that inserts its snapshot. */
  predicate SnapLegal(cfg: Config, db: Db, w: World, tx: Tx) {
    && (tx.snap.Some? ==>
          var (i, snap) := tx.snap.value;
          && tx.insert.None? && i !in db.snaps && !KeyUsed(db.snaps, snap) && snap.job in tx.writes
          && var row := tx.writes[snap.job];
          && row.status == Succeeded && snap.repo == row.repo && snap.branch == row.branch && snap.sha == row.sha
          && snap.path == SnapshotPath(row.repo, row.repo, row.sha))
    && (forall j :: j in tx.writes && j in db.jobs && tx.writes[j].status == Succeeded && db.jobs[j].status != Succeeded
          ==> tx.snap.Some? && tx.snap.value.1.job == j && MayCall(cfg, w, j))
  }

  ghost predicate Publishing(cfg: Config, db: Db, w: World, tx: Tx) {
    DbInv(db) && WorldInv(cfg, db, w) && TxInv(cfg, db, w, tx) && ReadyToCommit(tx.prog)
  }

  lemma LegalWrites(cfg: Config, db: Db, w: World, tx: Tx)
    requires Publishing(cfg, db, w, tx)
    ensures WritesLegal(db.jobs, tx)
  {
    forall j | j in tx.writes
      ensures j in tx.locks && j in db.jobs && Evolves(db.jobs[j], tx.writes[j]) && RowOk(tx.writes[j])
              && (tx.writes[j].sha != db.jobs[j].sha ==> tx.prog.PushCommit? && tx.prog.outcome == Updated(j))
    {
      LegalWrite(cfg, db, w, tx, j);
    }
  }

  lemma LegalWrite(cfg: Config, db: Db, w: World, tx: Tx, j: JobId)
    requires RowsOk(db.jobs) && RepliesOk(db.jobs, w.replies) && OwnershipOk(cfg, db.jobs, w)
    requires TxInv(cfg, db, w, tx) && ReadyToCommit(tx.prog) && j in tx.writes
    ensures j in tx.locks && j in db.jobs && Evolves(db.jobs[j], tx.writes[j]) && RowOk(tx.writes[j])
    ensures tx.writes[j].sha != db.jobs[j].sha ==> tx.prog.PushCommit? && tx.prog.outcome == Updated(j)
  {
    match tx.prog
    case PushCommit(_, o) => assert PushPoint(cfg, db.jobs, tx);
    case StartCommit(_, _) => assert CallbackPoint(cfg, db, w, tx);
    case DoneCommit(_, _, c) => assert CallbackPoint(cfg, db, w, tx);
    case ClaimCommit(_) => assert QueuePoint(cfg, db.jobs, w, tx);
    case FailCommit(_) => assert QueuePoint(cfg, db.jobs, w, tx);
    case SweepRows(_) => assert QueuePoint(cfg, db.jobs, w, tx);
    assert j in db.jobs && RowOk(db.jobs[j]);
  }

  lemma LegalInsert(cfg: Config, db: Db, w: World, tx: Tx)
    requires TxInv(cfg, db, w, tx) && ReadyToCommit(tx.prog)
    ensures InsertLegal(db.jobs, tx)
    ensures tx.prog.PushCommit? && tx.prog.outcome.Inserted? ==> tx.insert.Some?
  {
  }

  lemma LegalSnap(cfg: Config, db: Db, w: World, tx: Tx)
    requires RowsOk(db.jobs) && RepliesOk(db.jobs, w.replies)
    requires TxInv(cfg, db, w, tx) && ReadyToCommit(tx.prog)
    ensures SnapLegal(cfg, db, w, tx)
  {
    match tx.prog
    case PushCommit(_, o) => assert PushPoint(cfg, db.jobs, tx);
    case StartCommit(_, _) => assert CallbackPoint(cfg, db, w, tx);
    case DoneCommit(_, _, c) => assert CallbackPoint(cfg, db, w, tx);
    case ClaimCommit(_) => assert QueuePoint(cfg, db.jobs, w, tx);
    case FailCommit(_) => assert QueuePoint(cfg, db.jobs, w, tx);
    case SweepRows(_) => assert QueuePoint(cfg, db.jobs, w, tx);
  }

  /** The summary every later argument uses. */
  predicate Legal(cfg: Config, db: Db, w: World, tx: Tx) {
    WritesLegal(db.jobs, tx) && InsertLegal(db.jobs, tx) && SnapLegal(cfg, db, w, tx)
  }

  lemma LegalAll(cfg: Config, db: Db, w: World, tx: Tx)
    requires Publishing(cfg, db, w, tx)
    ensures Legal(cfg, db, w, tx)
  {
    LegalWrites(cfg, db, w, tx);
    LegalInsert(cfg, db, w, tx);
    LegalSnap(cfg, db, w, tx);
  }

  // ----- the published rows -----

  predicate RowsAdvance(jobs: map<JobId, Job>, jobs': map<JobId, Job>, touched: set<JobId>) {
    forall j :: j in jobs ==> j in jobs' && Evolves(jobs[j], jobs'[j]) && (j !in touched ==> jobs'[j] == jobs[j])
  }

  lemma Published(db: Db, tx: Tx)
    requires RowsOk(db.jobs) && WritesLegal(db.jobs, tx) && InsertLegal(db.jobs, tx)
    ensures var jobs' := Publish(db, tx).jobs;
      && RowsAdvance(db.jobs, jobs', tx.locks) && RowsOk(jobs')
      && (tx.insert.None? ==> jobs'.Keys == db.jobs.Keys)
      && (tx.insert.Some? ==> jobs' == db.jobs[tx.insert.value.0 := tx.insert.value.1])
      && (forall j :: j in tx.writes ==> jobs'[j] == tx.writes[j])
      && (forall j :: j in db.jobs && j !in tx.writes ==> jobs'[j] == db.jobs[j])
  {
    if tx.insert.Some? {
      assert db.jobs + tx.writes == db.jobs;
    }
  }

  lemma OneQueuedKept(db: Db, tx: Tx)
    requires RowsOk(db.jobs) && OneQueued(db.jobs) && WritesLegal(db.jobs, tx) && InsertLegal(db.jobs, tx)
    ensures OneQueued(Publish(db, tx).jobs)
  {
    var jobs, jobs' := db.jobs, Publish(db, tx).jobs;
    Published(db, tx);
    forall j, k | j in jobs' && k in jobs' && jobs'[j].status == Queued && jobs'[k].status == Queued
                  && OnBranch(jobs'[j], jobs'[k].repo, jobs'[k].branch)
      ensures j == k
    {
      if j in jobs && k in jobs {
        assert jobs[j].status == Queued && jobs[k].status == Queued;
      }
    }
  }

  lemma DeliveriesKept(db: Db, tx: Tx)
    requires DbInv(db) && WritesLegal(db.jobs, tx) && InsertLegal(db.jobs, tx)
    ensures DeliveriesDistinct(Publish(db, tx).jobs)
  {
    Published(db, tx);
  }

  lemma MatchKept(jobs: map<JobId, Job>, jobs': map<JobId, Job>, touched: set<JobId>, snap: Snapshot)
    requires RowsAdvance(jobs, jobs', touched) && SnapshotMatches(jobs, snap)
    ensures SnapshotMatches(jobs', snap)
  {
    assert Evolves(jobs[snap.job], jobs'[snap.job]);
  }

  lemma SnapRowsKept(cfg: Config, db: Db, w: World, tx: Tx)
    requires RowsOk(db.jobs) && SnapsOk(db) && Legal(cfg, db, w, tx)
    ensures var d' := Publish(db, tx); forall i :: i in d'.snaps ==> SnapshotMatches(d'.jobs, d'.snaps[i])
  {
    var d' := Publish(db, tx);
    Published(db, tx);
    forall i | i in d'.snaps
      ensures SnapshotMatches(d'.jobs, d'.snaps[i])
    {
      if i in db.snaps {
        assert d'.snaps[i] == db.snaps[i];
        MatchKept(db.jobs, d'.jobs, tx.locks, db.snaps[i]);
      }
    }
  }

  lemma SnapKeysKept(cfg: Config, db: Db, w: World, tx: Tx)
    requires SnapsOk(db) && SnapLegal(cfg, db, w, tx)
    ensures var snaps := Publish(db, tx).snaps;
      && (forall i, k :: i in snaps && k in snaps && i != k ==> !SameKey(snaps[i], snaps[k]))
      && (forall i :: i in db.snaps ==> i in snaps && snaps[i] == db.snaps[i])
  {
  }

  lemma SuccessHasSnapshot(cfg: Config, db: Db, w: World, tx: Tx, jobs': map<JobId, Job>, j: JobId)
    requires SnapsOk(db) && SnapLegal(cfg, db, w, tx)
    requires j in jobs' && jobs'[j].status == Succeeded
    requires j in db.jobs && (jobs'[j] == db.jobs[j] || (j in tx.writes && jobs'[j] == tx.writes[j]))
    ensures HasSnapshot(Publish(db, tx).snaps, j)
  {
    var snaps := Publish(db, tx).snaps;
    if db.jobs[j].status == Succeeded {
      SnapKeysKept(cfg, db, w, tx);
      var i :| i in db.snaps && db.snaps[i].job == j;
      assert i in snaps && snaps[i].job == j;
    } else {
      assert snaps[tx.snap.value.0].job == j;
    }
  }

  lemma SnapsKept(cfg: Config, db: Db, w: World, tx: Tx)
    requires RowsOk(db.jobs) && SnapsOk(db) && Legal(cfg, db, w, tx)
    ensures SnapsOk(Publish(db, tx))
  {
    var d' := Publish(db, tx);
    SnapRowsKept(cfg, db, w, tx);
    SnapKeysKept(cfg, db, w, tx);
    forall j | j in d'.jobs && d'.jobs[j].status == Succeeded
      ensures HasSnapshot(d'.snaps, j)
    {
      Published(db, tx);
      SuccessHasSnapshot(cfg, db, w, tx, d'.jobs, j);
    }
  }

  // ----- the world -----

  /** What a committed push does to the rows: it creates its job, or moves the SHA of its job, or does
      nothing; every other row is left alone, and no other job is queued on its branch. */
  predicate PushEffect(jobs: map<JobId, Job>, jobs': map<JobId, Job>, push: Push, o: Outcome) {
    && jobs'.Keys == jobs.Keys + (if o.Inserted? then {o.job} else {})
    && (o.Inserted? ==> o.job !in jobs)
    && (!o.Overtaken? ==> o.job in jobs' && jobs'[o.job].status == Queued && jobs'[o.job].sha == push.sha
                          && OnBranch(jobs'[o.job], push.repo, push.branch))
    && (forall j :: j in jobs && (j != o.job || o.Overtaken?) ==> jobs'[j] == jobs[j])
    && (forall j :: j in jobs' && jobs'[j].status == Queued && OnBranch(jobs'[j], push.repo, push.branch)
          ==> j == o.job && !o.Overtaken?)
  }

  lemma PushCommitEffect(cfg: Config, db: Db, tx: Tx)
    requires OneQueued(db.jobs) && tx.prog.PushCommit? && PushPoint(cfg, db.jobs, tx)
    ensures PushEffect(db.jobs, Publish(db, tx).jobs, tx.prog.push, tx.prog.outcome)
  {
    var jobs' := Publish(db, tx).jobs;
    if tx.prog.outcome.Inserted? {
      assert jobs' == db.jobs[tx.prog.outcome.job := tx.insert.value.1] by {
        assert db.jobs + tx.writes == db.jobs;
      }
    }
  }

  lemma JobHistoryExtends(jobs: map<JobId, Job>, jobs': map<JobId, Job>, log: seq<PushRecord>, push: Push, o: Outcome, j: JobId)
    requires HistoryOk(jobs, log) && PushEffect(jobs, jobs', push, o) && j in jobs'
    ensures var log' := log + [PushRecord(push, o)];
      && ShaGiven(log', j) == Some(jobs'[j].sha)
      && (jobs'[j].status == Queued ==> LastSha(log', jobs'[j].repo, jobs'[j].branch) == Some(jobs'[j].sha))
  {
    var log' := log + [PushRecord(push, o)];
    assert log'[..|log'| - 1] == log;
    if j != o.job || o.Overtaken? {
      assert j in jobs && jobs'[j] == jobs[j];
    }
  }

  lemma HistoryExtends(jobs: map<JobId, Job>, jobs': map<JobId, Job>, log: seq<PushRecord>, push: Push, o: Outcome)
    requires HistoryOk(jobs, log) && PushEffect(jobs, jobs', push, o)
    ensures HistoryOk(jobs', log + [PushRecord(push, o)])
  {
    var log' := log + [PushRecord(push, o)];
    forall j | j in jobs'
      ensures ShaGiven(log', j) == Some(jobs'[j].sha)
      ensures jobs'[j].status == Queued ==> LastSha(log', jobs'[j].repo, jobs'[j].branch) == Some(jobs'[j].sha)
    {
      JobHistoryExtends(jobs, jobs', log, push, o, j);
    }
    assert Created(log') == multiset(jobs'.Keys) by {
      assert log'[..|log'| - 1] == log;
    }
  }

  lemma HistoryFrame(jobs: map<JobId, Job>, jobs': map<JobId, Job>, log: seq<PushRecord>)
    requires HistoryOk(jobs, log) && jobs'.Keys == jobs.Keys
    requires forall j :: j in jobs ==> Evolves(jobs[j], jobs'[j]) && jobs'[j].sha == jobs[j].sha
    ensures HistoryOk(jobs', log)
  {
    forall j | j in jobs'
      ensures ShaGiven(log, j) == Some(jobs'[j].sha)
      ensures jobs'[j].status == Queued ==> LastSha(log, jobs'[j].repo, jobs'[j].branch) == Some(jobs'[j].sha)
    {
      assert Evolves(jobs[j], jobs'[j]);
    }
  }

  lemma PushesAfter(w: World, p: Prog, delivered: bool, poller: PollerId)
    ensures AfterCommit(w, p, delivered, poller).pushes
            == if p.PushCommit? then w.pushes + [PushRecord(p.push, p.outcome)] else w.pushes
  {
  }

  lemma HistoryKept(cfg: Config, db: Db, w: World, tx: Tx)
    requires RowsOk(db.jobs) && HistoryOk(db.jobs, w.pushes) && WritesLegal(db.jobs, tx) && InsertLegal(db.jobs, tx)
    requires tx.prog.PushCommit? ==> PushEffect(db.jobs, Publish(db, tx).jobs, tx.prog.push, tx.prog.outcome)
    ensures HistoryOk(Publish(db, tx).jobs,
                      if tx.prog.PushCommit? then w.pushes + [PushRecord(tx.prog.push, tx.prog.outcome)] else w.pushes)
  {
    if tx.prog.PushCommit? {
      HistoryExtends(db.jobs, Publish(db, tx).jobs, w.pushes, tx.prog.push, tx.prog.outcome);
    } else {
      HistoryStays(db, w, tx);
    }
  }

  lemma HistoryStays(db: Db, w: World, tx: Tx)
    requires RowsOk(db.jobs) && HistoryOk(db.jobs, w.pushes) && !tx.prog.PushCommit?
    requires WritesLegal(db.jobs, tx) && InsertLegal(db.jobs, tx)
    ensures HistoryOk(Publish(db, tx).jobs, w.pushes)
  {
    Published(db, tx);
    HistoryFrame(db.jobs, Publish(db, tx).jobs, w.pushes);
  }

  lemma OwnershipFrame(cfg: Config, jobs: map<JobId, Job>, jobs': map<JobId, Job>, touched: set<JobId>, w: World)
    requires OwnershipOk(cfg, jobs, w) && RowsAdvance(jobs, jobs', touched)
    requires forall j :: j in jobs' && j !in jobs ==> jobs'[j].status != Succeeded
    requires cfg.mode == Poll ==>
      forall j :: j in jobs && jobs'[j].status == Succeeded && jobs[j].status != Succeeded ==> j in w.dispatched
    ensures OwnershipOk(cfg, jobs', w)
  {
    forall j | j in jobs
      ensures jobs[j].status != Queued ==> jobs'[j].status != Queued
    {
      assert Evolves(jobs[j], jobs'[j]);
    }
  }

  /** The claimed job was queued until now, so no poller holds it and no executor has it. */
  lemma ClaimOwned(cfg: Config, db: Db, w: World, tx: Tx, p: PollerId)
    requires QueuePoint(cfg, db.jobs, w, tx) && tx.prog.ClaimCommit? && p !in w.held
    requires OwnershipOk(cfg, db.jobs, w) && OwnershipOk(cfg, Publish(db, tx).jobs, w)
    requires tx.prog.job in Publish(db, tx).jobs && Publish(db, tx).jobs[tx.prog.job].status == Running
    ensures OwnershipOk(cfg, Publish(db, tx).jobs, w.(held := w.held[p := tx.prog.job]))
  {
    assert db.jobs[tx.prog.job].status == Queued;
  }

  lemma OwnershipPublished(cfg: Config, db: Db, w: World, tx: Tx)
    requires RowsOk(db.jobs) && OwnershipOk(cfg, db.jobs, w) && Legal(cfg, db, w, tx)
    ensures OwnershipOk(cfg, Publish(db, tx).jobs, w)
  {
    Published(db, tx);
    OwnershipFrame(cfg, db.jobs, Publish(db, tx).jobs, tx.locks, w);
  }

  lemma OwnershipSame(cfg: Config, jobs: map<JobId, Job>, w: World, w': World)
    requires OwnershipOk(cfg, jobs, w) && w'.held == w.held && w'.dispatched == w.dispatched
    ensures OwnershipOk(cfg, jobs, w')
  {
  }

  lemma ClaimPublished(cfg: Config, db: Db, w: World, tx: Tx)
    requires QueuePoint(cfg, db.jobs, w, tx) && tx.prog.ClaimCommit?
    ensures tx.prog.job in Publish(db, tx).jobs && Publish(db, tx).jobs[tx.prog.job].status == Running
  {
  }

  lemma OwnershipKept(cfg: Config, db: Db, w: World, tx: Tx, delivered: bool, p: PollerId)
    requires RowsOk(db.jobs) && OwnershipOk(cfg, db.jobs, w) && QueuePoint(cfg, db.jobs, w, tx) && Legal(cfg, db, w, tx)
    ensures OwnershipOk(cfg, Publish(db, tx).jobs, AfterCommit(w, tx.prog, delivered, p))
  {
    OwnershipPublished(cfg, db, w, tx);
    if tx.prog.ClaimCommit? && delivered && p !in w.held {
      ClaimPublished(cfg, db, w, tx);
      ClaimOwned(cfg, db, w, tx, p);
    } else {
      OwnershipSame(cfg, Publish(db, tx).jobs, w, AfterCommit(w, tx.prog, delivered, p));
    }
  }

  lemma RepliesFrame(jobs: map<JobId, Job>, jobs': map<JobId, Job>, touched: set<JobId>, replies: set<Reply>)
    requires RepliesOk(jobs, replies) && RowsAdvance(jobs, jobs', touched)
    ensures RepliesOk(jobs', replies)
  {
    forall r | r in replies
      ensures r.job in jobs' && jobs'[r.job].status != Queued && jobs'[r.job].sha == r.sha
    {
      assert Evolves(jobs[r.job], jobs'[r.job]);
    }
  }

  lemma RepliesKept(cfg: Config, db: Db, w: World, tx: Tx, delivered: bool, p: PollerId)
    requires RowsOk(db.jobs) && RepliesOk(db.jobs, w.replies) && CallbackPoint(cfg, db, w, tx)
    requires WritesLegal(db.jobs, tx) && InsertLegal(db.jobs, tx)
    ensures RepliesOk(Publish(db, tx).jobs, AfterCommit(w, tx.prog, delivered, p).replies)
  {
    var jobs' := Publish(db, tx).jobs;
    Published(db, tx);
    RepliesFrame(db.jobs, jobs', tx.locks, w.replies);
    if tx.prog.StartCommit? {
      assert jobs'[tx.prog.job].sha == tx.prog.row.sha && jobs'[tx.prog.job].status == Running;
    }
  }

  lemma TasksKept(cfg: Config, db: Db, w: World, tx: Tx, delivered: bool, p: PollerId)
    requires RowsOk(db.jobs) && TasksOk(db.jobs, w) && TxInv(cfg, db, w, tx) && ReadyToCommit(tx.prog)
    requires WritesLegal(db.jobs, tx)
    ensures TasksOk(Publish(db, tx).jobs, AfterCommit(w, tx.prog, delivered, p))
  {
    LegalInsert(cfg, db, w, tx);
    Published(db, tx);
    NewTaskOk(db.jobs, Publish(db, tx).jobs, w, AfterCommit(w, tx.prog, delivered, p), tx);
  }

  lemma NewTaskOk(jobs: map<JobId, Job>, jobs': map<JobId, Job>, w: World, w': World, tx: Tx)
    requires TasksOk(jobs, w) && w'.tasks == w.tasks && jobs.Keys <= jobs'.Keys
    requires w'.toEnqueue == w.toEnqueue || (tx.insert.Some? && tx.insert.value.0 !in jobs && tx.insert.value.0 in jobs'
                                             && w'.toEnqueue == w.toEnqueue + {tx.insert.value.0})
    ensures TasksOk(jobs', w')
  {
  }

  // ----- the other open transactions -----

  lemma OtherPush(cfg: Config, db: Db, w: World, a: Tx, b: Tx)
    requires RowsOk(db.jobs) && WritesLegal(db.jobs, a) && InsertLegal(db.jobs, a) && Compatible(a, b)
    requires PushPoint(cfg, db.jobs, a) && PushPoint(cfg, db.jobs, b)
    ensures PushPoint(cfg, Publish(db, a).jobs, b)
  {
    var jobs, jobs' := db.jobs, Publish(db, a).jobs;
    Published(db, a);
    if b.prog.PushRead? || b.prog.PushUpdate? || b.prog.PushInsert? || b.prog.PushCommit? {
      var p := b.prog.push;
      // whoever inserts holds the lock of its own branch, so it is not this branch
      assert a.insert.Some? ==> !OnBranch(a.insert.value.1, p.repo, p.branch);
      NoneQueuedKept(jobs, jobs', p, a);
      if b.prog.PushCommit? && b.prog.outcome.Inserted? {
        assert !DeliveryUsed(jobs', b.insert.value.1.delivery);
      }
    }
  }

  lemma NoneQueuedKept(jobs: map<JobId, Job>, jobs': map<JobId, Job>, p: Push, a: Tx)
    requires RowsAdvance(jobs, jobs', a.locks)
    requires a.insert.None? ==> jobs'.Keys == jobs.Keys
    requires a.insert.Some? ==> jobs' == jobs[a.insert.value.0 := a.insert.value.1] && !OnBranch(a.insert.value.1, p.repo, p.branch)
    ensures NoneQueued(jobs, p) ==> NoneQueued(jobs', p)
    ensures forall j :: OnlyQueued(jobs, p, j) ==> OnlyQueued(jobs', p, j)
  {
  }

  lemma EarnedKept(cfg: Config, db: Db, w: World, tx: Tx, delivered: bool, p: PollerId, j: JobId, c: Completion)
    requires RowsOk(db.jobs) && WritesLegal(db.jobs, tx) && InsertLegal(db.jobs, tx) && Earned(db, w, j, c)
    ensures Earned(Publish(db, tx), AfterCommit(w, tx.prog, delivered, p), j, c)
  {
    Published(db, tx);
    assert w.replies <= AfterCommit(w, tx.prog, delivered, p).replies;
  }

  lemma OtherStart(cfg: Config, db: Db, w: World, a: Tx, b: Tx, delivered: bool, p: PollerId)
    requires RowsOk(db.jobs) && WritesLegal(db.jobs, a) && InsertLegal(db.jobs, a) && Compatible(a, b)
    requires CallbackPoint(cfg, db, w, b) && (b.prog.StartLock? || b.prog.StartWrite? || b.prog.StartCommit?)
    ensures CallbackPoint(cfg, Publish(db, a), AfterCommit(w, a.prog, delivered, p), b)
  {
    Published(db, a);
    if !b.prog.StartLock? {
      assert b.prog.job !in a.locks;
    }
  }

  lemma OtherDone(cfg: Config, db: Db, w: World, a: Tx, b: Tx, delivered: bool, p: PollerId)
    requires RowsOk(db.jobs) && WritesLegal(db.jobs, a) && InsertLegal(db.jobs, a) && Compatible(a, b)
    requires CallbackPoint(cfg, db, w, b)
    requires b.prog.DoneLock? || b.prog.DoneWrite? || b.prog.DoneSnap? || b.prog.DoneCommit?
    ensures CallbackPoint(cfg, Publish(db, a), AfterCommit(w, a.prog, delivered, p), b)
  {
    EarnedKept(cfg, db, w, a, delivered, p, b.prog.job, b.prog.completion);
    if !b.prog.DoneLock? {
      OtherDoneRow(cfg, db, w, a, b);
    }
  }

  /** The row a completion has locked, and the key it pends, are the same after another commit. */
  lemma OtherDoneRow(cfg: Config, db: Db, w: World, a: Tx, b: Tx)
    requires RowsOk(db.jobs) && WritesLegal(db.jobs, a) && InsertLegal(db.jobs, a) && Compatible(a, b)
    requires CallbackPoint(cfg, db, w, b) && (b.prog.DoneWrite? || b.prog.DoneSnap? || b.prog.DoneCommit?)
    ensures var d' := Publish(db, a);
      && b.prog.job in d'.jobs && d'.jobs[b.prog.job] == db.jobs[b.prog.job]
      && (b.snap.Some? && b.snap.value.0 !in db.snaps && !KeyUsed(db.snaps, b.snap.value.1)
          ==> b.snap.value.0 !in d'.snaps && !KeyUsed(d'.snaps, b.snap.value.1))
  {
    Published(db, a);
    assert b.prog.job !in a.locks;
  }

  /** A claim in flight has its job still queued, so it is not a job whose failure write is open. */
  lemma DisownedKept(cfg: Config, db: Db, w: World, a: Tx, delivered: bool, p: PollerId, j: JobId)
    requires RowsAdvance(db.jobs, Publish(db, a).jobs, a.locks) && QueuePoint(cfg, db.jobs, w, a)
    requires Disowned(cfg, db.jobs, w, j)
    ensures Disowned(cfg, Publish(db, a).jobs, AfterCommit(w, a.prog, delivered, p), j)
  {
    assert Evolves(db.jobs[j], Publish(db, a).jobs[j]);
    assert j !in AfterCommit(w, a.prog, delivered, p).held.Values;
  }

  lemma OtherQueue(cfg: Config, db: Db, w: World, a: Tx, b: Tx, delivered: bool, p: PollerId)
    requires RowsOk(db.jobs) && WritesLegal(db.jobs, a) && InsertLegal(db.jobs, a) && Compatible(a, b)
    requires QueuePoint(cfg, db.jobs, w, a) && QueuePoint(cfg, db.jobs, w, b)
    ensures QueuePoint(cfg, Publish(db, a).jobs, AfterCommit(w, a.prog, delivered, p), b)
  {
    var jobs' := Publish(db, a).jobs;
    Published(db, a);
    assert forall j :: j in b.locks && j in db.jobs ==> j in jobs' && jobs'[j] == db.jobs[j];
    if b.prog.FailLock? || b.prog.FailCommit? {
      DisownedKept(cfg, db, w, a, delivered, p, b.prog.job);
    }
  }

  // ----- put together -----

  lemma OtherKept(cfg: Config, db: Db, w: World, a: Tx, b: Tx, delivered: bool, p: PollerId)
    requires RowsOk(db.jobs) && Legal(cfg, db, w, a) && Compatible(a, b)
    requires TxInv(cfg, db, w, a) && TxInv(cfg, db, w, b)
    ensures TxInv(cfg, Publish(db, a), AfterCommit(w, a.prog, delivered, p), b)
  {
    OtherPush(cfg, db, w, a, b);
    OtherQueue(cfg, db, w, a, b, delivered, p);
    if b.prog.StartLock? || b.prog.StartWrite? || b.prog.StartCommit? {
      OtherStart(cfg, db, w, a, b, delivered, p);
    } else if b.prog.DoneLock? || b.prog.DoneWrite? || b.prog.DoneSnap? || b.prog.DoneCommit? {
      OtherDone(cfg, db, w, a, b, delivered, p);
    }
  }

  lemma PublishKeeps(cfg: Config, db: Db, w: World, tx: Tx, delivered: bool, p: PollerId)
    requires Publishing(cfg, db, w, tx)
    ensures Legal(cfg, db, w, tx)
    ensures DbInv(Publish(db, tx)) && WorldInv(cfg, Publish(db, tx), AfterCommit(w, tx.prog, delivered, p))
  {
    LegalAll(cfg, db, w, tx);
    Published(db, tx);
    OneQueuedKept(db, tx);
    DeliveriesKept(db, tx);
    SnapsKept(cfg, db, w, tx);
    if tx.prog.PushCommit? {
      PushCommitEffect(cfg, db, tx);
    }
    HistoryKept(cfg, db, w, tx);
    PushesAfter(w, tx.prog, delivered, p);
    RepliesKept(cfg, db, w, tx, delivered, p);
    TasksKept(cfg, db, w, tx, delivered, p);
    OwnershipKept(cfg, db, w, tx, delivered, p);
  }

  lemma OthersKept(s: State, t: TxId, delivered: bool, p: PollerId)
    requires Inv(s) && t in s.txs && Legal(s.cfg, s.db, s.world, s.txs[t])
    ensures forall u :: u in s.txs && u != t ==>
      TxInv(s.cfg, Publish(s.db, s.txs[t]), AfterCommit(s.world, s.txs[t].prog, delivered, p), s.txs[u])
  {
    forall u | u in s.txs && u != t
      ensures TxInv(s.cfg, Publish(s.db, s.txs[t]), AfterCommit(s.world, s.txs[t].prog, delivered, p), s.txs[u])
    {
      OtherKept(s.cfg, s.db, s.world, s.txs[t], s.txs[u], delivered, p);
    }
  }

  lemma Assemble(s: State, t: TxId, d': Db, w': World)
    requires forall a, b :: a in s.txs && b in s.txs && a != b ==> Compatible(s.txs[a], s.txs[b])
    requires DbInv(d') && WorldInv(s.cfg, d', w')
    requires forall u :: u in s.txs && u != t ==> TxInv(s.cfg, d', w', s.txs[u])
    ensures Inv(State(s.cfg, s.now, d', w', s.txs - {t}))
  {
  }

  lemma CommitKeeps(s: State, t: TxId, delivered: bool, p: PollerId)
    requires Inv(s) && t in s.txs && ReadyToCommit(s.txs[t].prog)
    ensures Inv(Committed(s, t, delivered, p))
  {
    var tx := s.txs[t];
    LegalAll(s.cfg, s.db, s.world, tx);
    OthersKept(s, t, delivered, p);
    PublishKeeps(s.cfg, s.db, s.world, tx, delivered, p);
    Assemble(s, t, Publish(s.db, tx), AfterCommit(s.world, tx.prog, delivered, p));
  }

  lemma PublishAdvances(cfg: Config, db: Db, w: World, tx: Tx)
    requires RowsOk(db.jobs) && Legal(cfg, db, w, tx)
    ensures var d' := Publish(db, tx);
      && (forall j :: j in db.jobs ==> j in d'.jobs && Evolves(db.jobs[j], d'.jobs[j]))
      && (forall j :: j in d'.jobs && j !in db.jobs ==> d'.jobs[j].status == Queued)
      && (forall i :: i in db.snaps ==> i in d'.snaps && d'.snaps[i] == db.snaps[i])
  {
    Published(db, tx);
  }

  lemma WorldAdvances(w: World, prog: Prog, delivered: bool, p: PollerId)
    ensures var w' := AfterCommit(w, prog, delivered, p);
      w.replies <= w'.replies && w.dispatched == w'.dispatched && IsPrefix(w.pushes, w'.pushes) && w.tasks == w'.tasks
  {
  }

  lemma CommitAdvances(s: State, t: TxId, delivered: bool, p: PollerId)
    requires Inv(s) && t in s.txs && ReadyToCommit(s.txs[t].prog)
    ensures Advances(s, Committed(s, t, delivered, p))
  {
    var tx := s.txs[t];
    WorldAdvances(s.world, tx.prog, delivered, p);
    PublishKeeps(s.cfg, s.db, s.world, tx, delivered, p);
    PublishAdvances(s.cfg, s.db, s.world, tx);
  }
}
