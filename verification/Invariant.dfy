/** The inductive invariant of the protocol: one part per component, and one clause per program point. */
module Invariant {
  import opened Rows
  import opened Protocol

  // ----- committed rows -----

  predicate RowsOk(jobs: map<JobId, Job>) {
    forall j :: j in jobs ==> RowOk(jobs[j])
  }

  predicate OneQueued(jobs: map<JobId, Job>) {
    forall j, k ::
      (j in jobs && k in jobs && jobs[j].status == Queued && jobs[k].status == Queued
       && OnBranch(jobs[j], jobs[k].repo, jobs[k].branch))
      ==> j == k
  }

  predicate DeliveriesDistinct(jobs: map<JobId, Job>) {
    forall j, k :: j in jobs && k in jobs && j != k && jobs[j].delivery.Some? ==> jobs[j].delivery != jobs[k].delivery
  }

  predicate HasSnapshot(snaps: map<SnapId, Snapshot>, j: JobId) {
    exists i :: i in snaps && snaps[i].job == j
  }

  /** A snapshot row describes a succeeded job and is stored under that job's commit. */
  predicate SnapshotMatches(jobs: map<JobId, Job>, snap: Snapshot) {
    && snap.job in jobs
    && var row := jobs[snap.job];
    && row.status == Succeeded
    && snap.repo == row.repo && snap.branch == row.branch && snap.sha == row.sha
    && snap.path == SnapshotPath(row.repo, row.repo, row.sha)
  }

  predicate SnapsOk(db: Db) {
    && (forall i :: i in db.snaps ==> SnapshotMatches(db.jobs, db.snaps[i]))
    && (forall i, k :: i in db.snaps && k in db.snaps && i != k ==> !SameKey(db.snaps[i], db.snaps[k]))
    && (forall j :: j in db.jobs && db.jobs[j].status == Succeeded ==> HasSnapshot(db.snaps, j))
  }

  predicate DbInv(db: Db) {
    RowsOk(db.jobs) && OneQueued(db.jobs) && DeliveriesDistinct(db.jobs) && SnapsOk(db)
  }

  // ----- histories -----

  /** The commit of the last committed push to a branch. */
  function LastSha(pushes: seq<PushRecord>, repo: RepoId, branch: Branch): Option<Sha> {
    if pushes == [] then None
    else
      var r := pushes[|pushes| - 1];
      if r.push.repo == repo && r.push.branch == branch then Some(r.push.sha)
      else LastSha(pushes[..|pushes| - 1], repo, branch)
  }

  /** The commit of the last push that created or moved job `j`. */
  function ShaGiven(pushes: seq<PushRecord>, j: JobId): Option<Sha> {
    if pushes == [] then None
    else
      var r := pushes[|pushes| - 1];
      if r.outcome.job == j && !r.outcome.Overtaken? then Some(r.push.sha)
      else ShaGiven(pushes[..|pushes| - 1], j)
  }

  /** The jobs created by a history of pushes, with multiplicity. */
  function Created(pushes: seq<PushRecord>): multiset<JobId> {
    if pushes == [] then multiset{}
    else
      var r := pushes[|pushes| - 1];
      Created(pushes[..|pushes| - 1]) + (if r.outcome.Inserted? then multiset{r.outcome.job} else multiset{})
  }

  predicate HistoryOk(jobs: map<JobId, Job>, pushes: seq<PushRecord>) {
    && Created(pushes) == multiset(jobs.Keys)
    && (forall j :: j in jobs ==> ShaGiven(pushes, j) == Some(jobs[j].sha))
    && (forall j :: j in jobs && jobs[j].status == Queued
          ==> LastSha(pushes, jobs[j].repo, jobs[j].branch) == Some(jobs[j].sha))
  }

  // ----- the world outside the tables -----

  predicate RepliesOk(jobs: map<JobId, Job>, replies: set<Reply>) {
    forall r :: r in replies ==> r.job in jobs && jobs[r.job].status != Queued && jobs[r.job].sha == r.sha
  }

  predicate TasksOk(jobs: map<JobId, Job>, w: World) {
    && w.toEnqueue <= jobs.Keys
    && (forall i :: 0 <= i < |w.tasks| ==> w.tasks[i] in jobs && w.tasks[i] !in w.toEnqueue)
    && (forall i, k :: 0 <= i < k < |w.tasks| ==> w.tasks[i] != w.tasks[k])
  }

  /** Between claim and dispatch a job belongs to one poller: it has left the queue, no executor has it. */
  predicate OwnershipOk(cfg: Config, jobs: map<JobId, Job>, w: World) {
    && (forall p :: p in w.held ==> cfg.mode == Poll && w.held[p] in jobs && jobs[w.held[p]].status != Queued
                                    && w.held[p] !in w.dispatched)
    && (forall p, q :: p in w.held && q in w.held && p != q ==> w.held[p] != w.held[q])
    && (forall j :: j in w.dispatched ==> j in jobs && jobs[j].status != Queued)
    && (cfg.mode == Poll ==> forall j :: j in jobs && jobs[j].status == Succeeded ==> j in w.dispatched)
  }

  predicate WorldInv(cfg: Config, db: Db, w: World) {
    HistoryOk(db.jobs, w.pushes) && RepliesOk(db.jobs, w.replies) && TasksOk(db.jobs, w) && OwnershipOk(cfg, db.jobs, w)
  }

  // ----- program points -----

  predicate Clean(tx: Tx) {
    tx.locks == {} && tx.writes == map[] && tx.insert.None? && tx.snap.None?
  }

  predicate Holds(tx: Tx, j: JobId, writes: map<JobId, Job>) {
    tx.locks == {j} && tx.writes == writes && tx.insert.None?
  }

  predicate NoneQueued(jobs: map<JobId, Job>, p: Push) {
    forall k :: k in jobs && OnBranch(jobs[k], p.repo, p.branch) ==> jobs[k].status != Queued
  }

  predicate OnlyQueued(jobs: map<JobId, Job>, p: Push, j: JobId) {
    && j in jobs && OnBranch(jobs[j], p.repo, p.branch)
    && forall k :: k in jobs && OnBranch(jobs[k], p.repo, p.branch) && jobs[k].status == Queued ==> k == j
  }

  /** A job whose failure write is under way: no poller and no executor has it. */
  predicate Disowned(cfg: Config, jobs: map<JobId, Job>, w: World, j: JobId) {
    cfg.mode == Poll && j in jobs && jobs[j].status != Queued && j !in w.dispatched && j !in w.held.Values
  }

  predicate PushPoint(cfg: Config, jobs: map<JobId, Job>, tx: Tx) {
    match tx.prog
    case PushLock(p) => Clean(tx) && tx.advisory.None?
    case PushRead(p) => Clean(tx) && tx.advisory == Some(LockKey(cfg, p))
    case PushUpdate(p, j) => Clean(tx) && tx.advisory == Some(LockKey(cfg, p)) && OnlyQueued(jobs, p, j)
    case PushInsert(p) => Clean(tx) && tx.advisory == Some(LockKey(cfg, p)) && NoneQueued(jobs, p)
    case PushCommit(p, o) =>
      && tx.advisory == Some(LockKey(cfg, p))
      && (match o
          case Inserted(j) =>
            && tx.locks == {} && tx.writes == map[] && tx.snap.None?
            && tx.insert == Some((j, NewRow(p, tx.now)))
            && j !in jobs && NoneQueued(jobs, p) && !DeliveryUsed(jobs, NewRow(p, tx.now).delivery)
          case Updated(j) =>
            && j in jobs && OnBranch(jobs[j], p.repo, p.branch) && jobs[j].status == Queued
            && Holds(tx, j, map[j := jobs[j].(sha := p.sha)]) && tx.snap.None?
          case Overtaken(j) => Clean(tx) && j in jobs && NoneQueued(jobs, p))
    case _ => true
  }

  ghost predicate CallbackPoint(cfg: Config, db: Db, w: World, tx: Tx) {
    match tx.prog
    case StartLock(j) => Clean(tx) && MayCall(cfg, w, j)
    case StartWrite(j, row) =>
      && Holds(tx, j, map[]) && tx.snap.None? && MayCall(cfg, w, j)
      && j in db.jobs && row == db.jobs[j] && row.status == Queued
    case StartCommit(j, row) =>
      && tx.snap.None? && MayCall(cfg, w, j)
      && j in db.jobs && row == db.jobs[j]
      && ((row.status == Running && Holds(tx, j, map[]))
          || (row.status == Queued && Holds(tx, j, map[j := SetStatus(row, Running, None, tx.now)])))
    case DoneLock(j, c) => Clean(tx) && MayCall(cfg, w, j) && Earned(db, w, j, c)
    case DoneWrite(j, row, c) =>
      && Holds(tx, j, map[]) && tx.snap.None? && MayCall(cfg, w, j) && Earned(db, w, j, c)
      && j in db.jobs && row == db.jobs[j] && !row.status.IsTerminal()
    case DoneSnap(j, row, c) =>
      && Holds(tx, j, map[j := CompletedRow(row, c, tx.now)]) && tx.snap.None? && MayCall(cfg, w, j) && Earned(db, w, j, c)
      && j in db.jobs && row == db.jobs[j] && !row.status.IsTerminal() && c.Success?
    case DoneCommit(j, row, c) =>
      && MayCall(cfg, w, j) && Earned(db, w, j, c)
      && j in db.jobs && row == db.jobs[j]
      && if row.status.IsTerminal() then Holds(tx, j, map[]) && tx.snap.None?
         else
           && Holds(tx, j, map[j := CompletedRow(row, c, tx.now)])
           && (c.Failure? ==> tx.snap.None?)
           && (c.Success? ==>
                && tx.snap.Some? && tx.snap.value.0 !in db.snaps
                && tx.snap.value.1 == SnapRow(row, j, c) && !KeyUsed(db.snaps, SnapRow(row, j, c)))
    case _ => true
  }

  predicate QueuePoint(cfg: Config, jobs: map<JobId, Job>, w: World, tx: Tx) {
    match tx.prog
    case ClaimSelect => Clean(tx) && cfg.mode == Poll
    case ClaimCommit(j) =>
      && cfg.mode == Poll && tx.snap.None?
      && j in jobs && jobs[j].status == Queued && Holds(tx, j, map[j := ClaimRow(jobs[j], tx.now)])
    case FailLock(j) => Clean(tx) && Disowned(cfg, jobs, w, j)
    case FailCommit(j) =>
      && Disowned(cfg, jobs, w, j) && tx.snap.None?
      && Holds(tx, j, map[j := SetStatus(jobs[j], Failed, Some(REPO_NOT_FOUND), tx.now)])
    case SweepScan => Clean(tx)
    case SweepRows(_) =>
      && tx.insert.None? && tx.snap.None? && tx.locks == tx.writes.Keys
      && forall k :: k in tx.writes ==> k in jobs && Overdue(jobs[k], tx.now) && tx.writes[k] == TimeoutRow(jobs[k], tx.now)
    case _ => true
  }

  ghost predicate TxInv(cfg: Config, db: Db, w: World, tx: Tx) {
    && PushPoint(cfg, db.jobs, tx)
    && CallbackPoint(cfg, db, w, tx)
    && QueuePoint(cfg, db.jobs, w, tx)
  }

  function FailingJob(p: Prog): Option<JobId> {
    match p
    case FailLock(j) => Some(j)
    case FailCommit(j) => Some(j)
    case _ => None
  }

  /** Two open transactions never hold the same lock or pend the same unique value. */
  predicate Compatible(a: Tx, b: Tx) {
    && a.locks !! b.locks
    && (a.advisory.Some? ==> a.advisory != b.advisory)
    && (a.insert.Some? && b.insert.Some? ==>
          && a.insert.value.0 != b.insert.value.0
          && (a.insert.value.1.delivery.Some? ==> a.insert.value.1.delivery != b.insert.value.1.delivery))
    && (a.snap.Some? && b.snap.Some? ==>
          a.snap.value.0 != b.snap.value.0 && !SameKey(a.snap.value.1, b.snap.value.1))
    && (FailingJob(a.prog).Some? ==> FailingJob(a.prog) != FailingJob(b.prog))
  }

  ghost predicate Inv(s: State) {
    && DbInv(s.db)
    && WorldInv(s.cfg, s.db, s.world)
    && (forall t :: t in s.txs ==> TxInv(s.cfg, s.db, s.world, s.txs[t]))
    && (forall t, u :: t in s.txs && u in s.txs && t != u ==> Compatible(s.txs[t], s.txs[u]))
  }

  // ----- what one event may change -----

  predicate IsPrefix<T(==)>(a: seq<T>, b: seq<T>) {
    a <= b
  }

  /** `s'` may come any number of events after `s`. */
  ghost predicate Later(s: State, s': State) {
    && s'.cfg == s.cfg && s.now <= s'.now
    && (forall j :: j in s.db.jobs ==> j in s'.db.jobs && Evolves(s.db.jobs[j], s'.db.jobs[j]))
    && (forall i :: i in s.db.snaps ==> i in s'.db.snaps && s'.db.snaps[i] == s.db.snaps[i])
    && s.world.replies <= s'.world.replies
    && s.world.dispatched <= s'.world.dispatched
    && IsPrefix(s.world.pushes, s'.world.pushes)
    && IsPrefix(s.world.tasks, s'.world.tasks)
  }

  ghost predicate Advances(s: State, s': State) {
    Later(s, s') && forall j :: j in s'.db.jobs && j !in s.db.jobs ==> s'.db.jobs[j].status == Queued
  }
}
