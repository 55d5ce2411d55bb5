/** Every event of the protocol keeps the invariant and only moves the state forward. */
module Preservation {
  import opened Rows
  import opened Protocol
  import opened Invariant
  import CommitProof

  // ----- events that change one transaction -----

  lemma PutKeeps(s: State, t: TxId, tx: Tx)
    requires Inv(s) && TxInv(s.cfg, s.db, s.world, tx)
    requires forall u :: u in s.txs && u != t ==> Compatible(tx, s.txs[u]) && Compatible(s.txs[u], tx)
    ensures Inv(Put(s, t, tx)) && Advances(s, Put(s, t, tx))
  {
  }

  lemma CloseKeeps(s: State, t: TxId)
    requires Inv(s)
    ensures Inv(Close(s, t)) && Advances(s, Close(s, t))
  {
  }

  /** A transaction that takes no new lock and pends nothing new stays compatible with the others. */
  lemma SameFootprint(s: State, t: TxId, tx: Tx)
    requires Inv(s) && t in s.txs
    requires tx.locks <= s.txs[t].locks
    requires tx.advisory.Some? ==> tx.advisory == s.txs[t].advisory
    requires tx.insert.Some? ==> tx.insert == s.txs[t].insert
    requires tx.snap.Some? ==> tx.snap == s.txs[t].snap
    requires FailingJob(tx.prog).Some? ==> FailingJob(tx.prog) == FailingJob(s.txs[t].prog)
    ensures forall u :: u in s.txs && u != t ==> Compatible(tx, s.txs[u]) && Compatible(s.txs[u], tx)
  {
    forall u | u in s.txs && u != t
      ensures Compatible(tx, s.txs[u]) && Compatible(s.txs[u], tx)
    {
      assert Compatible(s.txs[t], s.txs[u]) && Compatible(s.txs[u], s.txs[t]);
    }
  }

  /** The same when it takes one row lock nobody else holds. */
  lemma OneMoreLock(s: State, t: TxId, tx: Tx, j: JobId)
    requires Inv(s) && t in s.txs && !LockedByOther(s, t, j)
    requires tx.locks == s.txs[t].locks + {j}
    requires tx.advisory == s.txs[t].advisory && tx.insert == s.txs[t].insert && tx.snap == s.txs[t].snap
    requires FailingJob(tx.prog).Some? ==> FailingJob(tx.prog) == FailingJob(s.txs[t].prog)
    ensures forall u :: u in s.txs && u != t ==> Compatible(tx, s.txs[u]) && Compatible(s.txs[u], tx)
  {
    forall u | u in s.txs && u != t
      ensures Compatible(tx, s.txs[u]) && Compatible(s.txs[u], tx)
    {
      assert Compatible(s.txs[t], s.txs[u]) && Compatible(s.txs[u], s.txs[t]);
      assert j !in s.txs[u].locks;
    }
  }

  lemma BeginKeeps(s: State, t: TxId, prog: Prog)
    requires Inv(s) && t !in s.txs && CanBegin(s, prog)
    ensures Inv(Put(s, t, NewTx(s.now, prog))) && Advances(s, Put(s, t, NewTx(s.now, prog)))
  {
    PutKeeps(s, t, NewTx(s.now, prog));
  }

  lemma PushLockKeeps(s: State, t: TxId, id: nat)
    requires Inv(s) && t in s.txs && s.txs[t].prog.PushLock? && PushStmt(s, t, id).Some?
    ensures Inv(PushStmt(s, t, id).value) && Advances(s, PushStmt(s, t, id).value)
  {
    var tx, key := s.txs[t], LockKey(s.cfg, s.txs[t].prog.push);
    var tx' := tx.(advisory := Some(key), prog := PushRead(tx.prog.push));
    assert TxInv(s.cfg, s.db, s.world, tx');
    forall u | u in s.txs && u != t
      ensures Compatible(tx', s.txs[u]) && Compatible(s.txs[u], tx')
    {
      assert Compatible(tx, s.txs[u]) && Compatible(s.txs[u], tx);
    }
    PutKeeps(s, t, tx');
  }

  /** The read finds the one queued job of the branch, or sees that there is none. */
  lemma ReadFinds(jobs: map<JobId, Job>, p: Push, id: nat)
    requires OneQueued(jobs)
    ensures QueuedOn(jobs, p.repo, p.branch) == {} ==> NoneQueued(jobs, p)
    ensures id in QueuedOn(jobs, p.repo, p.branch) ==> OnlyQueued(jobs, p, id)
  {
    if QueuedOn(jobs, p.repo, p.branch) == {} {
      assert forall k :: k in jobs && OnBranch(jobs[k], p.repo, p.branch) ==> k !in QueuedOn(jobs, p.repo, p.branch);
    }
  }

  lemma PushReadKeeps(s: State, t: TxId, id: nat)
    requires Inv(s) && t in s.txs && s.txs[t].prog.PushRead? && PushStmt(s, t, id).Some?
    ensures Inv(PushStmt(s, t, id).value) && Advances(s, PushStmt(s, t, id).value)
  {
    var tx, tx' := s.txs[t], PushStmt(s, t, id).value.txs[t];
    assert TxInv(s.cfg, s.db, s.world, tx') by {
      assert TxInv(s.cfg, s.db, s.world, tx);
      ReadFinds(s.db.jobs, tx.prog.push, id);
    }
    SameFootprint(s, t, tx');
    PutKeeps(s, t, tx');
  }

  lemma PushUpdateKeeps(s: State, t: TxId, id: nat)
    requires Inv(s) && t in s.txs && s.txs[t].prog.PushUpdate? && PushStmt(s, t, id).Some?
    ensures Inv(PushStmt(s, t, id).value) && Advances(s, PushStmt(s, t, id).value)
  {
    var tx, tx' := s.txs[t], PushStmt(s, t, id).value.txs[t];
    assert TxInv(s.cfg, s.db, s.world, tx') && tx.locks == {} by {
      assert TxInv(s.cfg, s.db, s.world, tx);
    }
    if s.db.jobs[tx.prog.target].status != Queued {
      SameFootprint(s, t, tx');
    } else {
      OneMoreLock(s, t, tx', tx.prog.target);
    }
    PutKeeps(s, t, tx');
  }

  lemma PushInsertKeeps(s: State, t: TxId, id: nat)
    requires Inv(s) && t in s.txs && s.txs[t].prog.PushInsert? && PushStmt(s, t, id).Some?
    ensures Inv(PushStmt(s, t, id).value) && Advances(s, PushStmt(s, t, id).value)
  {
    var tx := s.txs[t];
    var row := NewRow(tx.prog.push, tx.now);
    if DeliveryUsed(s.db.jobs, row.delivery) {
      CloseKeeps(s, t);
    } else {
      var tx' := PushStmt(s, t, id).value.txs[t];
      assert TxInv(s.cfg, s.db, s.world, tx') by {
        assert TxInv(s.cfg, s.db, s.world, tx);
      }
      InsertCompatible(s, t, id, row);
      PutKeeps(s, t, tx');
    }
  }

  lemma PushStmtKeeps(s: State, t: TxId, id: nat)
    requires Inv(s) && t in s.txs && PushStmt(s, t, id).Some?
    ensures Inv(PushStmt(s, t, id).value) && Advances(s, PushStmt(s, t, id).value)
  {
    match s.txs[t].prog
    case PushLock(_) => PushLockKeeps(s, t, id);
    case PushRead(_) => PushReadKeeps(s, t, id);
    case PushUpdate(_, _) => PushUpdateKeeps(s, t, id);
    case PushInsert(_) => PushInsertKeeps(s, t, id);
    case _ =>
  }

  lemma InsertCompatible(s: State, t: TxId, id: nat, row: Job)
    requires Inv(s) && t in s.txs && s.txs[t].prog.PushInsert?
    requires !JobIdPending(s, id) && (row.delivery.Some? ==> !DeliveryPending(s, t, row.delivery))
    ensures var tx := s.txs[t].(insert := Some((id, row)), prog := PushCommit(s.txs[t].prog.push, Inserted(id)));
      forall u :: u in s.txs && u != t ==> Compatible(tx, s.txs[u]) && Compatible(s.txs[u], tx)
  {
    var tx := s.txs[t].(insert := Some((id, row)), prog := PushCommit(s.txs[t].prog.push, Inserted(id)));
    forall u | u in s.txs && u != t
      ensures Compatible(tx, s.txs[u]) && Compatible(s.txs[u], tx)
    {
      assert Compatible(s.txs[t], s.txs[u]) && Compatible(s.txs[u], s.txs[t]);
    }
  }

  lemma StartLockKeeps(s: State, t: TxId, id: nat)
    requires Inv(s) && t in s.txs && s.txs[t].prog.StartLock? && CallbackStmt(s, t, id).Some?
    ensures Inv(CallbackStmt(s, t, id).value) && Advances(s, CallbackStmt(s, t, id).value)
  {
    var tx := s.txs[t];
    var s' := CallbackStmt(s, t, id).value;
    if s' == Close(s, t) {
      CloseKeeps(s, t);
    } else {
      var tx' := s'.txs[t];
      assert s' == Put(s, t, tx') && tx'.locks == {tx.prog.job};
      assert TxInv(s.cfg, s.db, s.world, tx') && tx.locks == {} && tx'.writes == map[] by {
        assert TxInv(s.cfg, s.db, s.world, tx);
      }
      OneMoreLock(s, t, tx', tx.prog.job);
      PutKeeps(s, t, tx');
    }
  }

  lemma DoneLockKeeps(s: State, t: TxId, id: nat)
    requires Inv(s) && t in s.txs && s.txs[t].prog.DoneLock? && CallbackStmt(s, t, id).Some?
    ensures Inv(CallbackStmt(s, t, id).value) && Advances(s, CallbackStmt(s, t, id).value)
  {
    var tx := s.txs[t];
    var s' := CallbackStmt(s, t, id).value;
    if s' == Close(s, t) {
      CloseKeeps(s, t);
    } else {
      var tx' := s'.txs[t];
      assert s' == Put(s, t, tx') && tx'.locks == {tx.prog.job};
      assert TxInv(s.cfg, s.db, s.world, tx') && tx.locks == {} by {
        assert TxInv(s.cfg, s.db, s.world, tx);
      }
      OneMoreLock(s, t, tx', tx.prog.job);
      PutKeeps(s, t, tx');
    }
  }

  lemma WriteRowKeeps(s: State, t: TxId, id: nat)
    requires Inv(s) && t in s.txs && (s.txs[t].prog.StartWrite? || s.txs[t].prog.DoneWrite?)
    requires CallbackStmt(s, t, id).Some?
    ensures Inv(CallbackStmt(s, t, id).value) && Advances(s, CallbackStmt(s, t, id).value)
  {
    var tx := s.txs[t];
    var tx' := CallbackStmt(s, t, id).value.txs[t];
    assert TxInv(s.cfg, s.db, s.world, tx') by {
      assert TxInv(s.cfg, s.db, s.world, tx);
    }
    SameFootprint(s, t, tx');
    PutKeeps(s, t, tx');
  }

  lemma WriteSnapKeeps(s: State, t: TxId, id: nat)
    requires Inv(s) && t in s.txs && s.txs[t].prog.DoneSnap?
    requires CallbackStmt(s, t, id).Some?
    ensures Inv(CallbackStmt(s, t, id).value) && Advances(s, CallbackStmt(s, t, id).value)
  {
    var tx := s.txs[t];
    var s' := CallbackStmt(s, t, id).value;
    if t !in s'.txs {
      CloseKeeps(s, t);
    } else {
      var tx' := s'.txs[t];
      assert TxInv(s.cfg, s.db, s.world, tx') by {
        assert TxInv(s.cfg, s.db, s.world, tx);
      }
      SnapCompatible(s, t, id, SnapRow(tx.prog.row, tx.prog.job, tx.prog.completion));
      PutKeeps(s, t, tx');
    }
  }

  lemma SnapCompatible(s: State, t: TxId, id: nat, snap: Snapshot)
    requires Inv(s) && t in s.txs && s.txs[t].prog.DoneSnap?
    requires !SnapIdPending(s, id) && !KeyPending(s, t, snap)
    ensures var p := s.txs[t].prog;
      var tx := s.txs[t].(snap := Some((id, snap)), prog := DoneCommit(p.job, p.row, p.completion));
      forall u :: u in s.txs && u != t ==> Compatible(tx, s.txs[u]) && Compatible(s.txs[u], tx)
  {
    var p := s.txs[t].prog;
    var tx := s.txs[t].(snap := Some((id, snap)), prog := DoneCommit(p.job, p.row, p.completion));
    forall u | u in s.txs && u != t
      ensures Compatible(tx, s.txs[u]) && Compatible(s.txs[u], tx)
    {
      assert Compatible(s.txs[t], s.txs[u]) && Compatible(s.txs[u], s.txs[t]);
      if s.txs[u].snap.Some? {
        assert !SameKey(s.txs[u].snap.value.1, snap);
      }
    }
  }

  lemma ClaimKeeps(s: State, t: TxId, id: nat)
    requires Inv(s) && t in s.txs && s.txs[t].prog.ClaimSelect? && QueueStmt(s, t, id).Some?
    ensures Inv(QueueStmt(s, t, id).value) && Advances(s, QueueStmt(s, t, id).value)
  {
    var tx := s.txs[t];
    var s' := QueueStmt(s, t, id).value;
    var free := set j | j in s.db.jobs && s.db.jobs[j].status == Queued && !LockedByOther(s, t, j);
    if free == {} {
      CloseKeeps(s, t);
    } else {
      assert id in free;
      var tx' := s'.txs[t];
      assert TxInv(s.cfg, s.db, s.world, tx') by {
        assert TxInv(s.cfg, s.db, s.world, tx);
      }
      OneMoreLock(s, t, tx', id);
      PutKeeps(s, t, tx');
    }
  }

  lemma FailKeeps(s: State, t: TxId, id: nat)
    requires Inv(s) && t in s.txs && s.txs[t].prog.FailLock? && QueueStmt(s, t, id).Some?
    ensures Inv(QueueStmt(s, t, id).value) && Advances(s, QueueStmt(s, t, id).value)
  {
    var tx := s.txs[t];
    var tx' := QueueStmt(s, t, id).value.txs[t];
    assert TxInv(s.cfg, s.db, s.world, tx') by {
      assert TxInv(s.cfg, s.db, s.world, tx);
    }
    OneMoreLock(s, t, tx', tx.prog.job) by {
      assert TxInv(s.cfg, s.db, s.world, tx);
    }
    PutKeeps(s, t, tx');
  }

  lemma SweepScanKeeps(s: State, t: TxId, id: nat)
    requires Inv(s) && t in s.txs && s.txs[t].prog.SweepScan? && QueueStmt(s, t, id).Some?
    ensures Inv(QueueStmt(s, t, id).value) && Advances(s, QueueStmt(s, t, id).value)
  {
    var tx' := QueueStmt(s, t, id).value.txs[t];
    assert TxInv(s.cfg, s.db, s.world, tx') by {
      assert TxInv(s.cfg, s.db, s.world, s.txs[t]);
    }
    SameFootprint(s, t, tx');
    PutKeeps(s, t, tx');
  }

  lemma SweepPoint(cfg: Config, db: Db, w: World, tx: Tx, id: nat)
    requires TxInv(cfg, db, w, tx) && tx.prog.SweepRows?
    ensures TxInv(cfg, db, w, tx.(prog := SweepRows(tx.prog.todo - {id})))
    ensures id in db.jobs && Overdue(db.jobs[id], tx.now) ==>
      TxInv(cfg, db, w, Touch(tx, id, TimeoutRow(db.jobs[id], tx.now), SweepRows(tx.prog.todo - {id})))
  {
  }

  lemma SweepRowKeeps(s: State, t: TxId, id: nat)
    requires Inv(s) && t in s.txs && s.txs[t].prog.SweepRows? && QueueStmt(s, t, id).Some?
    ensures Inv(QueueStmt(s, t, id).value) && Advances(s, QueueStmt(s, t, id).value)
  {
    var tx := s.txs[t];
    var tx' := QueueStmt(s, t, id).value.txs[t];
    SweepPoint(s.cfg, s.db, s.world, tx, id);
    if id !in s.db.jobs || !Overdue(s.db.jobs[id], tx.now) {
      SameFootprint(s, t, tx');
    } else {
      OneMoreLock(s, t, tx', id);
    }
    PutKeeps(s, t, tx');
  }

  // ----- events outside the database -----

  /** What a change of the world must respect for an open transaction to stay where it is. */
  predicate WorldMoves(w: World, w': World, tx: Tx) {
    && w.replies <= w'.replies && w.dispatched <= w'.dispatched
    && (forall j :: j in w.tasks ==> j in w'.tasks)
    && w'.held.Values <= w.held.Values
    && (FailingJob(tx.prog).Some? ==> FailingJob(tx.prog).value !in w'.dispatched)
  }

  lemma EarnedFrame(db: Db, w: World, w': World, j: JobId, c: Completion)
    requires Earned(db, w, j, c) && w.replies <= w'.replies
    ensures Earned(db, w', j, c)
  {
  }

  lemma TxFrame(cfg: Config, db: Db, w: World, w': World, tx: Tx)
    requires TxInv(cfg, db, w, tx) && WorldMoves(w, w', tx)
    ensures TxInv(cfg, db, w', tx)
  {
    if tx.prog.DoneLock? || tx.prog.DoneWrite? || tx.prog.DoneSnap? || tx.prog.DoneCommit? {
      EarnedFrame(db, w, w', tx.prog.job, tx.prog.completion);
    }
  }

  lemma WorldKeeps(s: State, w': World)
    requires Inv(s) && WorldInv(s.cfg, s.db, w')
    requires forall t :: t in s.txs ==> WorldMoves(s.world, w', s.txs[t])
    requires w'.pushes == s.world.pushes && IsPrefix(s.world.tasks, w'.tasks)
    requires s.world.replies <= w'.replies && s.world.dispatched <= w'.dispatched
    ensures Inv(s.(world := w')) && Advances(s, s.(world := w'))
  {
    forall t | t in s.txs
      ensures TxInv(s.cfg, s.db, w', s.txs[t])
    {
      TxFrame(s.cfg, s.db, s.world, w', s.txs[t]);
    }
  }

  /** No open failure write concerns a job some poller holds or an executor has. */
  lemma NobodyFails(s: State, t: TxId)
    requires Inv(s) && t in s.txs && FailingJob(s.txs[t].prog).Some?
    ensures FailingJob(s.txs[t].prog).value !in s.world.held.Values
    ensures FailingJob(s.txs[t].prog).value !in s.world.dispatched
  {
    assert QueuePoint(s.cfg, s.db.jobs, s.world, s.txs[t]);
  }

  lemma MovesWithoutDispatch(s: State, w': World)
    requires Inv(s)
    requires w'.dispatched == s.world.dispatched && s.world.replies <= w'.replies
    requires (forall j :: j in s.world.tasks ==> j in w'.tasks) && w'.held.Values <= s.world.held.Values
    ensures forall t :: t in s.txs ==> WorldMoves(s.world, w', s.txs[t])
  {
    forall t | t in s.txs
      ensures WorldMoves(s.world, w', s.txs[t])
    {
      if FailingJob(s.txs[t].prog).Some? {
        NobodyFails(s, t);
      }
    }
  }

  lemma ReleaseKeeps(s: State, p: PollerId)
    requires Inv(s) && p in s.world.held
    ensures Inv(s.(world := Released(s.world, p))) && Advances(s, s.(world := Released(s.world, p)))
  {
    MovesWithoutDispatch(s, Released(s.world, p));
    WorldKeeps(s, Released(s.world, p));
  }

  lemma FreshCompatible(s: State, tx: Tx)
    requires Clean(tx) && tx.advisory.None?
    requires FailingJob(tx.prog).Some? ==> forall u :: u in s.txs ==> FailingJob(s.txs[u].prog) != FailingJob(tx.prog)
    ensures forall u :: u in s.txs ==> Compatible(tx, s.txs[u]) && Compatible(s.txs[u], tx)
  {
  }

  lemma FailStarts(s: State, p: PollerId)
    requires Inv(s) && p in s.world.held
    ensures var tx := NewTx(s.now, FailLock(s.world.held[p]));
      && TxInv(s.cfg, s.db, Released(s.world, p), tx)
      && (forall u :: u in s.txs ==> Compatible(tx, s.txs[u]) && Compatible(s.txs[u], tx))
  {
    var j := s.world.held[p];
    forall u | u in s.txs
      ensures FailingJob(s.txs[u].prog) != Some(j)
    {
      if FailingJob(s.txs[u].prog).Some? {
        NobodyFails(s, u);
        assert j in s.world.held.Values;
      }
    }
    FreshCompatible(s, NewTx(s.now, FailLock(j)));
  }

  /** The failure write takes the job away from its poller for good. */
  lemma BeginFailKeeps(s: State, t: TxId, p: PollerId)
    requires Inv(s) && t !in s.txs && p in s.world.held
    ensures var s' := Put(s.(world := Released(s.world, p)), t, NewTx(s.now, FailLock(s.world.held[p])));
      Inv(s') && Advances(s, s')
  {
    FailStarts(s, p);
    ReleaseKeeps(s, p);
    PutKeeps(s.(world := Released(s.world, p)), t, NewTx(s.now, FailLock(s.world.held[p])));
  }

  lemma HandedOwnership(cfg: Config, jobs: map<JobId, Job>, w: World, p: PollerId)
    requires OwnershipOk(cfg, jobs, w) && p in w.held
    ensures OwnershipOk(cfg, jobs, Handed(w, p))
  {
  }

  lemma DispatchKeeps(s: State, p: PollerId)
    requires Inv(s) && p in s.world.held
    ensures Inv(s.(world := Handed(s.world, p))) && Advances(s, s.(world := Handed(s.world, p)))
  {
    var w' := Handed(s.world, p);
    forall t | t in s.txs
      ensures WorldMoves(s.world, w', s.txs[t])
    {
      if FailingJob(s.txs[t].prog).Some? {
        NobodyFails(s, t);
        assert s.world.held[p] in s.world.held.Values;
      }
    }
    HandedOwnership(s.cfg, s.db.jobs, s.world, p);
    WorldKeeps(s, w');
  }

  lemma EnqueueKeeps(s: State, j: JobId, created: bool)
    requires Inv(s) && j in s.world.toEnqueue
    ensures Inv(s.(world := Enqueued(s.world, j, created))) && Advances(s, s.(world := Enqueued(s.world, j, created)))
  {
    MovesWithoutDispatch(s, Enqueued(s.world, j, created));
    WorldKeeps(s, Enqueued(s.world, j, created));
  }

  lemma TickKeeps(s: State, d: Time)
    requires Inv(s) && d >= 0
    ensures Inv(s.(now := s.now + d)) && Advances(s, s.(now := s.now + d))
  {
  }

  // ----- every event -----

  lemma StmtKeeps(s: State, t: TxId, id: nat)
    requires Inv(s) && t in s.txs && StmtNext(s, t, id).Some?
    ensures Inv(StmtNext(s, t, id).value) && Advances(s, StmtNext(s, t, id).value)
  {
    match s.txs[t].prog
    case PushLock(_) => PushStmtKeeps(s, t, id);
    case PushRead(_) => PushStmtKeeps(s, t, id);
    case PushUpdate(_, _) => PushStmtKeeps(s, t, id);
    case PushInsert(_) => PushStmtKeeps(s, t, id);
    case StartLock(_) => StartLockKeeps(s, t, id);
    case StartWrite(_, _) => WriteRowKeeps(s, t, id);
    case DoneLock(_, _) => DoneLockKeeps(s, t, id);
    case DoneWrite(_, _, _) => WriteRowKeeps(s, t, id);
    case DoneSnap(_, _, _) => WriteSnapKeeps(s, t, id);
    case ClaimSelect => ClaimKeeps(s, t, id);
    case FailLock(_) => FailKeeps(s, t, id);
    case SweepScan => SweepScanKeeps(s, t, id);
    case SweepRows(_) => SweepRowKeeps(s, t, id);
    case _ =>
  }

  lemma TxEventKeeps(s: State, e: Event)
    requires Inv(s) && Next(s, e).Some? && (e.Begin? || e.BeginFail? || e.Stmt? || e.Abort?)
    ensures Inv(Next(s, e).value) && Advances(s, Next(s, e).value)
  {
    match e
    case Begin(t, prog) => BeginKeeps(s, t, prog);
    case BeginFail(t, p) => BeginFailKeeps(s, t, p);
    case Stmt(t, id) => StmtKeeps(s, t, id);
    case Abort(t) => CloseKeeps(s, t);
  }

  lemma CommitEventKeeps(s: State, e: Event)
    requires Inv(s) && Next(s, e).Some? && e.Commit?
    ensures Inv(Next(s, e).value) && Advances(s, Next(s, e).value)
  {
    assert Next(s, e).value == Committed(s, e.tx, e.delivered, e.poller);
    CommitProof.CommitKeeps(s, e.tx, e.delivered, e.poller);
    CommitProof.CommitAdvances(s, e.tx, e.delivered, e.poller);
  }

  lemma WorldEventKeeps(s: State, e: Event)
    requires Inv(s) && Next(s, e).Some? && (e.Tick? || e.Enqueue? || e.Dispatch? || e.Drop?)
    ensures Inv(Next(s, e).value) && Advances(s, Next(s, e).value)
  {
    match e
    case Tick(d) => TickKeeps(s, d);
    case Enqueue(j, created) => EnqueueKeeps(s, j, created);
    case Dispatch(p) => DispatchKeeps(s, p);
    case Drop(p) => ReleaseKeeps(s, p);
  }

  lemma NextKeeps(s: State, e: Event)
    requires Inv(s) && Next(s, e).Some?
    ensures Inv(Next(s, e).value) && Advances(s, Next(s, e).value)
  {
    if e.Commit? {
      CommitEventKeeps(s, e);
    } else if e.Begin? || e.BeginFail? || e.Stmt? || e.Abort? {
      TxEventKeeps(s, e);
    } else {
      WorldEventKeeps(s, e);
    }
  }

  /** The invariant is inductive, whatever the lock hash and whichever the deployment. */
  lemma {:induction false} StepKeeps(s: State, e: Event, s': State)
    requires Inv(s) && Step(s, e, s')
    ensures Inv(s') && Advances(s, s')
  {
    NextKeeps(s, e);
  }

  lemma InitHolds(cfg: Config, now: Time)
    ensures Inv(Init(cfg, now))
  {
  }
}
