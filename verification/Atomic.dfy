/** What each handler does to the tables when nothing interleaves with it. */
module Atomic {
  import opened Rows
  import opened Protocol
  import opened Invariant

  /** What the network does to one call. */
  datatype Net = Arrives | RequestLost | AnswerLost

  /** How a transaction can break off: its `n`th statement may fail, and a failed commit may have been applied. */
  datatype TxFault = NoFault | BeginFails | QueryFails(n: nat) | CommitFails(applied: bool)

  /** The fault undoes a transaction of that many statements. */
  predicate Undoes(fault: TxFault, statements: nat) {
    fault == BeginFails || (fault.QueryFails? && fault.n < statements) || fault == CommitFails(false)
  }

  datatype PushResult = Dropped | Moved(job: JobId) | Made(job: JobId) | Duplicate | PushError

  /** `HandlePush` for a registered repository: move the queued job of the branch, else create one,
      else the delivery was seen before and nothing happens. */
  predicate Pushes(jobs: map<JobId, Job>, p: Push, now: Time, jobs': map<JobId, Job>, r: PushResult) {
    var queued := QueuedOn(jobs, p.repo, p.branch);
    match r
    case Dropped => false
    case PushError => false
    case Moved(j) => Oldest(jobs, queued, j) && jobs' == jobs[j := jobs[j].(sha := p.sha)]
    case Made(j) =>
      queued == {} && j !in jobs && !DeliveryUsed(jobs, NullIfEmpty(p.delivery)) && jobs' == jobs[j := NewRow(p, now)]
    case Duplicate => queued == {} && DeliveryUsed(jobs, NullIfEmpty(p.delivery)) && jobs' == jobs
  }

  datatype StartResult = StartNotFound | AlreadyTerminal(status: Status) | Started(row: Job) | StartError

  function StartJobs(jobs: map<JobId, Job>, j: JobId, now: Time): map<JobId, Job> {
    if j in jobs && jobs[j].status == Queued then jobs[j := SetStatus(jobs[j], Running, None, now)] else jobs
  }

  /** The answer carries the row as it was read under the lock. */
  function StartAnswer(jobs: map<JobId, Job>, j: JobId): StartResult {
    if j !in jobs then StartNotFound
    else if jobs[j].status.IsTerminal() then AlreadyTerminal(jobs[j].status)
    else Started(jobs[j])
  }

  datatype CompleteResult = CompleteNotFound | NoOp(status: Status) | Completed(status: Status) | RolledBack | CompleteError

  function CompleteAnswer(db: Db, j: JobId, c: Completion): CompleteResult {
    if j !in db.jobs then CompleteNotFound
    else if db.jobs[j].status.IsTerminal() then NoOp(db.jobs[j].status)
    else if c.Failure? then Completed(Failed)
    else if KeyUsed(db.snaps, SnapRow(db.jobs[j], j, c)) then RolledBack
    else Completed(Succeeded)
  }

  function CompleteDb(db: Db, j: JobId, c: Completion, id: SnapId, now: Time): Db {
    var r := CompleteAnswer(db, j, c);
    if !r.Completed? || j !in db.jobs then db
    else
      Db(db.jobs[j := CompletedRow(db.jobs[j], c, now)],
         if c.Success? then db.snaps[id := SnapRow(db.jobs[j], j, c)] else db.snaps)
  }

  /** `ClaimJob` takes some oldest queued job, if there is one. */
  predicate Claims(jobs: map<JobId, Job>, now: Time, jobs': map<JobId, Job>, r: Option<JobId>) {
    var queued := AllQueued(jobs);
    match r
    case None => queued == {} && jobs' == jobs
    case Some(j) => Oldest(jobs, queued, j) && jobs' == jobs[j := ClaimRow(jobs[j], now)]
  }

  function Swept(jobs: map<JobId, Job>, now: Time): map<JobId, Job> {
    map j | j in jobs :: if Overdue(jobs[j], now) then TimeoutRow(jobs[j], now) else jobs[j]
  }

  // ----- facts about single handlers -----

  /** A redelivery (its delivery id is already in the table) changes something exactly when its branch has
      a queued job with another commit: that job's SHA is overwritten. The table's uniqueness does not help. */
  lemma RedeliveryOverwritesIff(jobs: map<JobId, Job>, p: Push, now: Time, jobs': map<JobId, Job>, r: PushResult)
    requires OneQueued(jobs) && Pushes(jobs, p, now, jobs', r) && DeliveryUsed(jobs, NullIfEmpty(p.delivery))
    ensures jobs' != jobs <==> exists j :: j in QueuedOn(jobs, p.repo, p.branch) && jobs[j].sha != p.sha
    ensures jobs' != jobs ==> r.Moved? && jobs'[r.job].sha == p.sha
    ensures jobs'.Keys == jobs.Keys
  {
  }

  /** A success report for an active job commits iff no snapshot of the same repository, branch and
      commit exists; otherwise it rolls back and the job keeps its status. */
  lemma SuccessCommitsIff(db: Db, j: JobId, path: string, id: SnapId, now: Time)
    requires j in db.jobs && !db.jobs[j].status.IsTerminal() && id !in db.snaps
    ensures var d' := CompleteDb(db, j, Success(path), id, now);
      var taken := exists i :: i in db.snaps && db.snaps[i].repo == db.jobs[j].repo
                                 && db.snaps[i].branch == db.jobs[j].branch && db.snaps[i].sha == db.jobs[j].sha;
      && (taken <==> d' == db)
      && (!taken <==> d'.jobs[j].status == Succeeded && id in d'.snaps && d'.snaps[id].job == j)
  {
  }
}
