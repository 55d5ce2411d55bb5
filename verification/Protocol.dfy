/** The job protocol at statement granularity.

    Every handler runs an open PostgreSQL transaction under READ COMMITTED (section 13.2.1 of the
    PostgreSQL documentation): a statement sees the latest committed rows, row locks and the advisory
    lock are held until commit or rollback, writes become visible at commit, and a statement that had
    to wait for a row lock looks at the row again before it writes. One event is one statement,
    one commit, one rollback, or one step of a worker outside the database; any number of
    transactions interleave freely. */
module Protocol {
  import opened Rows

  type TxId = nat
  type PollerId = nat

  /** How workers get their jobs; a deployment runs one kind (WORKER_MODE). */
  datatype Mode = Http | Poll

  /** `hash` is the hash behind the advisory lock; nothing is assumed about it. */
  datatype Config = Config(mode: Mode, hash: string -> int)

  datatype Db = Db(jobs: map<JobId, Job>, snaps: map<SnapId, Snapshot>)

  /** What a committed push did: created a job, moved the SHA of a queued job, or hit zero rows
      because the queued job it had read left the queue first. */
  datatype Outcome = Inserted(job: JobId) | Updated(job: JobId) | Overtaken(job: JobId)

  datatype PushRecord = PushRecord(push: Push, outcome: Outcome)

  /** The SHA a successful start callback answered with. */
  datatype Reply = Reply(job: JobId, sha: Sha)

  /** State outside the tables. `toEnqueue` are committed inserts whose task is not created yet, `tasks`
      the created tasks in order, `held` the job each poller has claimed and not yet dispatched or failed,
      `dispatched` the jobs handed to an executor. `pushes` and `replies` are histories. */
  datatype World = World(
    toEnqueue: set<JobId>,
    tasks: seq<JobId>,
    held: map<PollerId, JobId>,
    dispatched: set<JobId>,
    pushes: seq<PushRecord>,
    replies: set<Reply>
  )

  /** Where a transaction stands: the next statement to run, with the locals it still needs. */
  datatype Prog =
    | PushLock(push: Push)
    | PushRead(push: Push)
    | PushUpdate(push: Push, target: JobId)
    | PushInsert(push: Push)
    | PushCommit(push: Push, outcome: Outcome)
    | StartLock(job: JobId)
    | StartWrite(job: JobId, row: Job)
    | StartCommit(job: JobId, row: Job)
    | DoneLock(job: JobId, completion: Completion)
    | DoneWrite(job: JobId, row: Job, completion: Completion)
    | DoneSnap(job: JobId, row: Job, completion: Completion)
    | DoneCommit(job: JobId, row: Job, completion: Completion)
    | ClaimSelect
    | ClaimCommit(job: JobId)
    | FailLock(job: JobId)
    | FailCommit(job: JobId)
    | SweepScan
    | SweepRows(todo: set<JobId>)

  /** An open transaction; `now` is its start, which is what now() returns inside it. */
  datatype Tx = Tx(
    now: Time,
    prog: Prog,
    advisory: Option<int>,
    locks: set<JobId>,
    writes: map<JobId, Job>,
    insert: Option<(JobId, Job)>,
    snap: Option<(SnapId, Snapshot)>
  )

  datatype State = State(cfg: Config, now: Time, db: Db, world: World, txs: map<TxId, Tx>)

  datatype Event =
    | Tick(duration: Time)
    | Begin(tx: TxId, prog: Prog)
    | BeginFail(tx: TxId, poller: PollerId)
    | Stmt(tx: TxId, id: nat)
    | Commit(tx: TxId, delivered: bool, poller: PollerId)
    | Abort(tx: TxId)
    | Enqueue(job: JobId, created: bool)
    | Dispatch(poller: PollerId)
    | Drop(poller: PollerId)

  function Init(cfg: Config, now: Time): State {
    State(cfg, now, Db(map[], map[]), World({}, [], map[], {}, [], {}), map[])
  }

  function LockKey(cfg: Config, p: Push): int {
    cfg.hash(p.repo + ":" + p.branch)
  }

  // ----- who may begin what -----

  /** Callbacks for a job come only from the executors that were handed it: any number of deliveries of
      its task in the http deployment, the one dispatched goroutine in the poll deployment. */
  predicate MayCall(cfg: Config, world: World, j: JobId) {
    match cfg.mode
    case Http => j in world.tasks
    case Poll => j in world.dispatched
  }

  /** A success report follows a successful start of the same job and carries the path built from that answer. */
  ghost predicate Earned(db: Db, world: World, j: JobId, c: Completion) {
    && (c.Success? ==> exists r :: r in world.replies && r.job == j && j in db.jobs
                         && c.path == SnapshotPath(db.jobs[j].repo, db.jobs[j].repo, r.sha))
    && (c.Failure? ==> c.message != "")
  }

  ghost predicate CanBegin(s: State, prog: Prog) {
    match prog
    case PushLock(_) => true
    case StartLock(j) => MayCall(s.cfg, s.world, j)
    case DoneLock(j, c) => MayCall(s.cfg, s.world, j) && Earned(s.db, s.world, j, c)
    case ClaimSelect => s.cfg.mode == Poll
    case SweepScan => true
    case _ => false
  }

  function NewTx(now: Time, prog: Prog): Tx {
    Tx(now, prog, None, {}, map[], None, None)
  }

  // ----- locks as other transactions see them -----

  ghost predicate LockedByOther(s: State, t: TxId, j: JobId) {
    exists u :: u in s.txs && u != t && j in s.txs[u].locks
  }

  ghost predicate AdvisoryTaken(s: State, t: TxId, key: int) {
    exists u :: u in s.txs && u != t && s.txs[u].advisory == Some(key)
  }

  ghost predicate JobIdPending(s: State, j: JobId) {
    exists u :: u in s.txs && s.txs[u].insert.Some? && s.txs[u].insert.value.0 == j
  }

  ghost predicate SnapIdPending(s: State, i: SnapId) {
    exists u :: u in s.txs && s.txs[u].snap.Some? && s.txs[u].snap.value.0 == i
  }

  ghost predicate DeliveryPending(s: State, t: TxId, d: Option<string>) {
    exists u :: u in s.txs && u != t && s.txs[u].insert.Some? && s.txs[u].insert.value.1.delivery == d
  }

  ghost predicate KeyPending(s: State, t: TxId, row: Snapshot) {
    exists u :: u in s.txs && u != t && s.txs[u].snap.Some? && SameKey(s.txs[u].snap.value.1, row)
  }

  // ----- queries over committed rows -----

  function QueuedOn(jobs: map<JobId, Job>, repo: RepoId, branch: Branch): set<JobId> {
    set j | j in jobs && OnBranch(jobs[j], repo, branch) && jobs[j].status == Queued
  }

  function AllQueued(jobs: map<JobId, Job>): set<JobId> {
    set j | j in jobs && jobs[j].status == Queued
  }

  /** `ORDER BY created_at ASC`: some oldest member of the set; ties may fall either way. */
  predicate Oldest(jobs: map<JobId, Job>, ids: set<JobId>, j: JobId)
    requires ids <= jobs.Keys
  {
    j in ids && forall k :: k in ids ==> jobs[j].createdAt <= jobs[k].createdAt
  }

  predicate DeliveryUsed(jobs: map<JobId, Job>, d: Option<string>) {
    d.Some? && exists j :: j in jobs && jobs[j].delivery == d
  }

  predicate KeyUsed(snaps: map<SnapId, Snapshot>, row: Snapshot) {
    exists i :: i in snaps && SameKey(snaps[i], row)
  }

  // ----- one statement of one transaction; None means it has to wait -----

  function Put(s: State, t: TxId, tx: Tx): State {
    s.(txs := s.txs[t := tx])
  }

  function Close(s: State, t: TxId): State {
    s.(txs := s.txs - {t})
  }

  function Touch(tx: Tx, j: JobId, row: Job, next: Prog): Tx {
    tx.(locks := tx.locks + {j}, writes := tx.writes[j := row], prog := next)
  }

  function SnapRow(row: Job, j: JobId, c: Completion): Snapshot
    requires c.Success?
  {
    Snapshot(row.repo, j, row.branch, row.sha, c.path)
  }

  ghost function PushStmt(s: State, t: TxId, id: nat): Option<State>
    requires t in s.txs
  {
    var tx := s.txs[t];
    match tx.prog
    case PushLock(p) =>
      var key := LockKey(s.cfg, p);
      if AdvisoryTaken(s, t, key) then None
      else Some(Put(s, t, tx.(advisory := Some(key), prog := PushRead(p))))
    case PushRead(p) =>
      var queued := QueuedOn(s.db.jobs, p.repo, p.branch);
      if queued == {} then Some(Put(s, t, tx.(prog := PushInsert(p))))
      else if Oldest(s.db.jobs, queued, id) then Some(Put(s, t, tx.(prog := PushUpdate(p, id))))
      else None
    case PushUpdate(p, j) =>
      if j !in s.db.jobs || s.db.jobs[j].status != Queued then
        Some(Put(s, t, tx.(prog := PushCommit(p, Overtaken(j)))))
      else if LockedByOther(s, t, j) then None
      else Some(Put(s, t, Touch(tx, j, s.db.jobs[j].(sha := p.sha), PushCommit(p, Updated(j)))))
    case PushInsert(p) =>
      var row := NewRow(p, tx.now);
      if id in s.db.jobs || JobIdPending(s, id) then None
      else if row.delivery.Some? && DeliveryPending(s, t, row.delivery) then None
      else if DeliveryUsed(s.db.jobs, row.delivery) then Some(Close(s, t))
      else Some(Put(s, t, tx.(insert := Some((id, row)), prog := PushCommit(p, Inserted(id)))))
    case _ => None
  }

  ghost function CallbackStmt(s: State, t: TxId, id: nat): Option<State>
    requires t in s.txs
  {
    var tx := s.txs[t];
    match tx.prog
    case StartLock(j) =>
      if j !in s.db.jobs then Some(Close(s, t))
      else if LockedByOther(s, t, j) then None
      else
        var row := s.db.jobs[j];
        if row.status == Running then Some(Put(s, t, tx.(locks := {j}, prog := StartCommit(j, row))))
        else if row.status.IsTerminal() then Some(Close(s, t))
        else Some(Put(s, t, tx.(locks := {j}, prog := StartWrite(j, row))))
    case StartWrite(j, row) =>
      Some(Put(s, t, Touch(tx, j, SetStatus(row, Running, None, tx.now), StartCommit(j, row))))
    case DoneLock(j, c) =>
      if j !in s.db.jobs then Some(Close(s, t))
      else if LockedByOther(s, t, j) then None
      else
        var row := s.db.jobs[j];
        var next := if row.status.IsTerminal() then DoneCommit(j, row, c) else DoneWrite(j, row, c);
        Some(Put(s, t, tx.(locks := {j}, prog := next)))
    case DoneWrite(j, row, c) =>
      var next := if c.Success? then DoneSnap(j, row, c) else DoneCommit(j, row, c);
      Some(Put(s, t, Touch(tx, j, CompletedRow(row, c, tx.now), next)))
    case DoneSnap(j, row, c) =>
      if c.Failure? then None
      else
        var snap := SnapRow(row, j, c);
        if id in s.db.snaps || SnapIdPending(s, id) then None
        else if KeyPending(s, t, snap) then None
        else if KeyUsed(s.db.snaps, snap) then Some(Close(s, t))
        else Some(Put(s, t, tx.(snap := Some((id, snap)), prog := DoneCommit(j, row, c))))
    case _ => None
  }

  ghost function QueueStmt(s: State, t: TxId, id: nat): Option<State>
    requires t in s.txs
  {
    var tx := s.txs[t];
    match tx.prog
    case ClaimSelect =>
      var free := set j | j in s.db.jobs && s.db.jobs[j].status == Queued && !LockedByOther(s, t, j);
      if free == {} then Some(Close(s, t))
      else if Oldest(s.db.jobs, free, id) then
        Some(Put(s, t, Touch(tx, id, ClaimRow(s.db.jobs[id], tx.now), ClaimCommit(id))))
      else None
    case FailLock(j) =>
      if j !in s.db.jobs then Some(Put(s, t, tx.(prog := FailCommit(j))))
      else if LockedByOther(s, t, j) then None
      else Some(Put(s, t, Touch(tx, j, SetStatus(s.db.jobs[j], Failed, Some(REPO_NOT_FOUND), tx.now), FailCommit(j))))
    case SweepScan =>
      var todo := set j | j in s.db.jobs && Overdue(s.db.jobs[j], tx.now);
      Some(Put(s, t, tx.(prog := SweepRows(todo))))
    case SweepRows(todo) =>
      if id !in todo then None
      else if LockedByOther(s, t, id) then None
      else if id !in s.db.jobs || !Overdue(s.db.jobs[id], tx.now) then
        Some(Put(s, t, tx.(prog := SweepRows(todo - {id}))))
      else Some(Put(s, t, Touch(tx, id, TimeoutRow(s.db.jobs[id], tx.now), SweepRows(todo - {id}))))
    case _ => None
  }

  ghost function StmtNext(s: State, t: TxId, id: nat): Option<State>
    requires t in s.txs
  {
    var p := s.txs[t].prog;
    if p.PushLock? || p.PushRead? || p.PushUpdate? || p.PushInsert? then PushStmt(s, t, id)
    else if p.StartLock? || p.StartWrite? || p.DoneLock? || p.DoneWrite? || p.DoneSnap? then CallbackStmt(s, t, id)
    else QueueStmt(s, t, id)
  }

  // ----- commit -----

  predicate ReadyToCommit(p: Prog) {
    p.PushCommit? || p.StartCommit? || p.DoneCommit? || p.ClaimCommit? || p.FailCommit?
    || (p.SweepRows? && p.todo == {})
  }

  function Publish(db: Db, tx: Tx): Db {
    var jobs := db.jobs + tx.writes;
    var jobs := if tx.insert.Some? then jobs[tx.insert.value.0 := tx.insert.value.1] else jobs;
    Db(jobs, if tx.snap.Some? then db.snaps[tx.snap.value.0 := tx.snap.value.1] else db.snaps)
  }

  /** What the caller does right after the commit. `delivered` says whether the answer of a start
      callback, or the claimed row, reached the worker; `poller` is who claimed. */
  function AfterCommit(w: World, p: Prog, delivered: bool, poller: PollerId): World {
    match p
    case PushCommit(push, o) =>
      var w := w.(pushes := w.pushes + [PushRecord(push, o)]);
      if o.Inserted? then w.(toEnqueue := w.toEnqueue + {o.job}) else w
    case StartCommit(j, row) =>
      if delivered then w.(replies := w.replies + {Reply(j, row.sha)}) else w
    case ClaimCommit(j) =>
      if delivered && poller !in w.held then w.(held := w.held[poller := j]) else w
    case _ => w
  }

  function Committed(s: State, t: TxId, delivered: bool, p: PollerId): State
    requires t in s.txs
  {
    var tx := s.txs[t];
    State(s.cfg, s.now, Publish(s.db, tx), AfterCommit(s.world, tx.prog, delivered, p), s.txs - {t})
  }

  function Released(w: World, p: PollerId): World {
    w.(held := w.held - {p})
  }

  function Handed(w: World, p: PollerId): World
    requires p in w.held
  {
    w.(dispatched := w.dispatched + {w.held[p]}, held := w.held - {p})
  }

  function Enqueued(w: World, j: JobId, created: bool): World {
    var w := w.(toEnqueue := w.toEnqueue - {j});
    if created then w.(tasks := w.tasks + [j]) else w
  }

  // ----- the machine -----

  ghost function Next(s: State, e: Event): Option<State> {
    match e
    case Tick(d) =>
      if d < 0 then None else Some(s.(now := s.now + d))
    case Begin(t, prog) =>
      if t in s.txs || !CanBegin(s, prog) then None
      else Some(Put(s, t, NewTx(s.now, prog)))
    case BeginFail(t, p) =>
      // the claiming poller found no repository for its job
      if t in s.txs || p !in s.world.held then None
      else Some(Put(s.(world := Released(s.world, p)), t, NewTx(s.now, FailLock(s.world.held[p]))))
    case Stmt(t, id) =>
      if t !in s.txs then None else StmtNext(s, t, id)
    case Commit(t, delivered, p) =>
      if t !in s.txs || !ReadyToCommit(s.txs[t].prog) then None
      else Some(Committed(s, t, delivered, p))
    case Abort(t) =>
      // any error, lost connection or cancelled request before the commit
      if t !in s.txs then None else Some(Close(s, t))
    case Enqueue(j, created) =>
      if j !in s.world.toEnqueue || (s.cfg.mode == Poll && created) then None
      else Some(s.(world := Enqueued(s.world, j, created)))
    case Dispatch(p) =>
      if p !in s.world.held then None
      else Some(s.(world := Handed(s.world, p)))
    case Drop(p) =>
      // the failure write itself could not be sent
      if p !in s.world.held then None
      else Some(s.(world := Released(s.world, p)))
  }

  ghost predicate Step(s: State, e: Event, s': State) {
    Next(s, e) == Some(s')
  }

  /** A run: `ss[i+1]` is what event `es[i]` makes of `ss[i]`. */
  ghost predicate Run(ss: seq<State>, es: seq<Event>) {
    && |ss| == |es| + 1
    && ss[0] == Init(ss[0].cfg, ss[0].now)
    && forall i :: 0 <= i < |es| ==> Step(ss[i], es[i], ss[i + 1])
  }
}
