/** Running a handler's statements back to back gives its atomic effect, whatever else is open, as long
    as nobody holds the locks it needs. */
module Sequential {
  import opened Rows
  import opened Protocol
  import opened Atomic

  /** The state after a list of events, None if one of them cannot run. */
  ghost function After(s: State, es: seq<Event>): Option<State>
    decreases |es|
  {
    if es == [] then Some(s)
    else
      var r := Next(s, es[0]);
      if r.None? then None else After(r.value, es[1..])
  }

  lemma {:induction false} AfterConcat(s: State, es: seq<Event>, fs: seq<Event>)
    requires After(s, es).Some?
    ensures After(s, es + fs) == After(After(s, es).value, fs)
    decreases |es|
  {
    if es == [] {
      assert es + fs == fs;
    } else {
      assert (es + fs)[1..] == es[1..] + fs;
      AfterConcat(Next(s, es[0]).value, es[1..], fs);
    }
  }

  lemma AfterOne(s: State, e: Event)
    ensures After(s, [e]) == Next(s, e)
  {
    assert [e][1..] == [];
  }

  lemma AfterSnoc(s: State, es: seq<Event>, e: Event)
    requires After(s, es).Some?
    ensures After(s, es + [e]) == Next(After(s, es).value, e)
  {
    AfterConcat(s, es, [e]);
    AfterOne(After(s, es).value, e);
  }

  lemma Extend(s: State, es: seq<Event>, m: State, e: Event, n: State)
    requires After(s, es) == Some(m) && Next(m, e) == Some(n)
    ensures After(s, es + [e]) == Some(n)
  {
    AfterSnoc(s, es, e);
  }

  /** Every list of events that can run from the empty tables is a run. */
  lemma {:induction false} AfterIsRun(cfg: Config, now: Time, es: seq<Event>) returns (ss: seq<State>)
    requires After(Init(cfg, now), es).Some?
    ensures Run(ss, es) && ss[0] == Init(cfg, now) && ss[|es|] == After(Init(cfg, now), es).value
  {
    ss := States(Init(cfg, now), es);
  }

  lemma {:induction false} States(s: State, es: seq<Event>) returns (ss: seq<State>)
    requires After(s, es).Some?
    ensures |ss| == |es| + 1 && ss[0] == s && ss[|es|] == After(s, es).value
    ensures forall i :: 0 <= i < |es| ==> Step(ss[i], es[i], ss[i + 1])
    decreases |es|
  {
    if es == [] {
      ss := [s];
    } else {
      var n := Next(s, es[0]).value;
      var rest := States(n, es[1..]);
      ss := [s] + rest;
      forall i | 0 <= i < |es|
        ensures Step(ss[i], es[i], ss[i + 1])
      {
        if i > 0 {
          assert Step(rest[i - 1], es[1..][i - 1], rest[i - 1 + 1]);
        }
      }
    }
  }

  // ----- push -----

  /** `target` is the queued job the read picks; `id` the fresh key of an insert. */
  function PushEvents(t: TxId, p: Push, target: nat, id: nat): seq<Event> {
    [Begin(t, PushLock(p)), Stmt(t, 0), Stmt(t, target), Stmt(t, id), Commit(t, false, 0)]
  }

  ghost predicate PushFree(s: State, t: TxId, p: Push) {
    && t !in s.txs && !AdvisoryTaken(s, t, LockKey(s.cfg, p))
    && (forall j :: !LockedByOther(s, t, j))
    && !DeliveryPending(s, t, NullIfEmpty(p.delivery))
  }

  lemma PutPut(s: State, t: TxId, a: Tx, b: Tx)
    ensures Put(Put(s, t, a), t, b) == Put(s, t, b)
  {
    assert s.txs[t := a][t := b] == s.txs[t := b];
  }

  lemma PutClose(s: State, t: TxId, a: Tx)
    requires t !in s.txs
    ensures Close(Put(s, t, a), t) == s && Put(s, t, a).txs - {t} == s.txs
  {
    assert s.txs[t := a] - {t} == s.txs;
  }

  lemma CommitPut(s: State, t: TxId, tx: Tx, delivered: bool)
    requires t !in s.txs && ReadyToCommit(tx.prog)
    ensures Next(Put(s, t, tx), Commit(t, delivered, 0))
            == Some(s.(db := Publish(s.db, tx), world := AfterCommit(s.world, tx.prog, delivered, 0)))
  {
    PutClose(s, t, tx);
  }

  /** A transaction that has come to its end, committed. */
  lemma Ends(s: State, t: TxId, es: seq<Event>, tx: Tx, delivered: bool, p: PollerId, d: Db, w: World)
    requires t !in s.txs && After(s, es) == Some(Put(s, t, tx)) && ReadyToCommit(tx.prog)
    requires d == Publish(s.db, tx) && w == AfterCommit(s.world, tx.prog, delivered, p)
    ensures After(s, es + [Commit(t, delivered, p)]) == Some(s.(db := d, world := w))
  {
    PutClose(s, t, tx);
    AfterSnoc(s, es, Commit(t, delivered, p));
  }

  /** A transaction begun, and its first statement. */
  lemma Begins(s: State, t: TxId, prog: Prog, id: nat, s': State)
    requires t !in s.txs && CanBegin(s, prog) && StmtNext(Put(s, t, NewTx(s.now, prog)), t, id) == Some(s')
    ensures After(s, [Begin(t, prog), Stmt(t, id)]) == Some(s')
  {
    AfterOne(s, Begin(t, prog));
    AfterSnoc(s, [Begin(t, prog)], Stmt(t, id));
    assert [Begin(t, prog), Stmt(t, id)] == [Begin(t, prog)] + [Stmt(t, id)];
  }

  /** What others hold does not depend on `t`'s own entry. */
  lemma OthersSame(s: State, t: TxId, a: Tx)
    requires t !in s.txs
    ensures forall k :: AdvisoryTaken(Put(s, t, a), t, k) ==> AdvisoryTaken(s, t, k)
    ensures forall j :: LockedByOther(Put(s, t, a), t, j) ==> LockedByOther(s, t, j)
    ensures forall d :: DeliveryPending(Put(s, t, a), t, d) ==> DeliveryPending(s, t, d)
    ensures a.insert.None? ==> forall j :: JobIdPending(Put(s, t, a), j) ==> JobIdPending(s, j)
  {
    var s' := Put(s, t, a);
    forall j | LockedByOther(s', t, j) ensures LockedByOther(s, t, j) {
      var u :| u in s'.txs && u != t && j in s'.txs[u].locks;
      assert u in s.txs && j in s.txs[u].locks;
    }
    forall k | AdvisoryTaken(s', t, k) ensures AdvisoryTaken(s, t, k) {
      var u :| u in s'.txs && u != t && s'.txs[u].advisory == Some(k);
      assert u in s.txs && s.txs[u].advisory == Some(k);
    }
    forall d | DeliveryPending(s', t, d) ensures DeliveryPending(s, t, d) {
      var u :| u in s'.txs && u != t && s'.txs[u].insert.Some? && s'.txs[u].insert.value.1.delivery == d;
      assert u in s.txs && s.txs[u].insert.Some? && s.txs[u].insert.value.1.delivery == d;
    }
    if a.insert.None? {
      forall j | JobIdPending(s', j) ensures JobIdPending(s, j) {
        var u :| u in s'.txs && s'.txs[u].insert.Some? && s'.txs[u].insert.value.0 == j;
        assert u in s.txs && s.txs[u].insert.Some? && s.txs[u].insert.value.0 == j;
      }
    }
  }

  /** Begin, lock, read. */
  lemma PushReads(s: State, t: TxId, p: Push, target: nat)
    requires PushFree(s, t, p)
    requires var queued := QueuedOn(s.db.jobs, p.repo, p.branch); queued == {} || Oldest(s.db.jobs, queued, target)
    ensures var queued := QueuedOn(s.db.jobs, p.repo, p.branch);
      var tx := NewTx(s.now, if queued == {} then PushInsert(p) else PushUpdate(p, target));
      After(s, [Begin(t, PushLock(p)), Stmt(t, 0), Stmt(t, target)])
        == Some(Put(s, t, tx.(advisory := Some(LockKey(s.cfg, p)))))
  {
    var tx0 := NewTx(s.now, PushLock(p));
    var tx1 := tx0.(advisory := Some(LockKey(s.cfg, p)), prog := PushRead(p));
    var queued := QueuedOn(s.db.jobs, p.repo, p.branch);
    var tx2 := tx1.(prog := if queued == {} then PushInsert(p) else PushUpdate(p, target));
    AfterOne(s, Begin(t, PushLock(p)));
    assert Next(s, Begin(t, PushLock(p))) == Some(Put(s, t, tx0));
    OthersSame(s, t, tx0);
    AfterSnoc(s, [Begin(t, PushLock(p))], Stmt(t, 0));
    PutPut(s, t, tx0, tx1);
    assert Next(Put(s, t, tx0), Stmt(t, 0)) == Some(Put(s, t, tx1));
    assert [Begin(t, PushLock(p)), Stmt(t, 0)] == [Begin(t, PushLock(p))] + [Stmt(t, 0)];
    AfterSnoc(s, [Begin(t, PushLock(p)), Stmt(t, 0)], Stmt(t, target));
    PutPut(s, t, tx1, tx2);
    assert Next(Put(s, t, tx1), Stmt(t, target)) == Some(Put(s, t, tx2));
    assert [Begin(t, PushLock(p)), Stmt(t, 0), Stmt(t, target)] == [Begin(t, PushLock(p)), Stmt(t, 0)] + [Stmt(t, target)];
  }

  lemma PushUpdates(s: State, t: TxId, p: Push, j: JobId)
    requires PushFree(s, t, p) && Oldest(s.db.jobs, QueuedOn(s.db.jobs, p.repo, p.branch), j)
    ensures var tx := NewTx(s.now, PushUpdate(p, j)).(advisory := Some(LockKey(s.cfg, p)));
      After(s, [Begin(t, PushLock(p)), Stmt(t, 0), Stmt(t, j), Stmt(t, 0)])
      == Some(Put(s, t, Touch(tx, j, s.db.jobs[j].(sha := p.sha), PushCommit(p, Updated(j)))))
  {
    var head := [Begin(t, PushLock(p)), Stmt(t, 0), Stmt(t, j)];
    assert j in QueuedOn(s.db.jobs, p.repo, p.branch);
    PushReads(s, t, p, j);
    UpdateOne(s, t, p, j, NewTx(s.now, PushUpdate(p, j)).(advisory := Some(LockKey(s.cfg, p))));
    AfterSnoc(s, head, Stmt(t, 0));
    assert [Begin(t, PushLock(p)), Stmt(t, 0), Stmt(t, j), Stmt(t, 0)] == head + [Stmt(t, 0)];
  }

  /** A push that finds a queued job moves it. */
  lemma PushMovesAlone(s: State, t: TxId, p: Push, j: JobId)
    requires PushFree(s, t, p) && Oldest(s.db.jobs, QueuedOn(s.db.jobs, p.repo, p.branch), j)
    ensures var jobs' := s.db.jobs[j := s.db.jobs[j].(sha := p.sha)];
      && Pushes(s.db.jobs, p, s.now, jobs', Moved(j))
      && After(s, PushEvents(t, p, j, 0))
         == Some(s.(db := Db(jobs', s.db.snaps),
                    world := s.world.(pushes := s.world.pushes + [PushRecord(p, Updated(j))])))
  {
    assert j in QueuedOn(s.db.jobs, p.repo, p.branch);
    PushUpdates(s, t, p, j);
    var head := [Begin(t, PushLock(p)), Stmt(t, 0), Stmt(t, j), Stmt(t, 0)];
    var tx := NewTx(s.now, PushUpdate(p, j)).(advisory := Some(LockKey(s.cfg, p)));
    var tx' := Touch(tx, j, s.db.jobs[j].(sha := p.sha), PushCommit(p, Updated(j)));
    var jobs' := s.db.jobs[j := s.db.jobs[j].(sha := p.sha)];
    assert s.db.jobs + tx'.writes == jobs';
    Ends(s, t, head, tx', false, 0, Db(jobs', s.db.snaps),
         s.world.(pushes := s.world.pushes + [PushRecord(p, Updated(j))]));
    assert PushEvents(t, p, j, 0) == head + [Commit(t, false, 0)];
  }

  lemma UpdateOne(s: State, t: TxId, p: Push, j: JobId, tx: Tx)
    requires PushFree(s, t, p) && j in s.db.jobs && s.db.jobs[j].status == Queued && tx.prog == PushUpdate(p, j)
    ensures Next(Put(s, t, tx), Stmt(t, 0))
            == Some(Put(s, t, Touch(tx, j, s.db.jobs[j].(sha := p.sha), PushCommit(p, Updated(j)))))
  {
    OthersSame(s, t, tx);
    PutPut(s, t, tx, Touch(tx, j, s.db.jobs[j].(sha := p.sha), PushCommit(p, Updated(j))));
  }

  lemma InsertOne(s: State, t: TxId, p: Push, j: JobId, tx: Tx)
    requires PushFree(s, t, p) && tx.prog == PushInsert(p) && tx.insert.None?
    requires j !in s.db.jobs && !JobIdPending(s, j) && !DeliveryUsed(s.db.jobs, NullIfEmpty(p.delivery))
    ensures Next(Put(s, t, tx), Stmt(t, j))
            == Some(Put(s, t, tx.(insert := Some((j, NewRow(p, tx.now))), prog := PushCommit(p, Inserted(j)))))
  {
    OthersSame(s, t, tx);
    PutPut(s, t, tx, tx.(insert := Some((j, NewRow(p, tx.now))), prog := PushCommit(p, Inserted(j))));
  }

  lemma PushInserts(s: State, t: TxId, p: Push, target: nat, j: JobId)
    requires PushFree(s, t, p) && QueuedOn(s.db.jobs, p.repo, p.branch) == {}
    requires j !in s.db.jobs && !JobIdPending(s, j) && !DeliveryUsed(s.db.jobs, NullIfEmpty(p.delivery))
    ensures var tx := NewTx(s.now, PushInsert(p)).(advisory := Some(LockKey(s.cfg, p)));
      After(s, [Begin(t, PushLock(p)), Stmt(t, 0), Stmt(t, target), Stmt(t, j)])
      == Some(Put(s, t, tx.(insert := Some((j, NewRow(p, s.now))), prog := PushCommit(p, Inserted(j)))))
  {
    var head := [Begin(t, PushLock(p)), Stmt(t, 0), Stmt(t, target)];
    PushReads(s, t, p, target);
    InsertOne(s, t, p, j, NewTx(s.now, PushInsert(p)).(advisory := Some(LockKey(s.cfg, p))));
    AfterSnoc(s, head, Stmt(t, j));
    assert [Begin(t, PushLock(p)), Stmt(t, 0), Stmt(t, target), Stmt(t, j)] == head + [Stmt(t, j)];
  }

  /** A push that finds none creates one with a fresh key. */
  lemma PushMakesAlone(s: State, t: TxId, p: Push, target: nat, j: JobId)
    requires PushFree(s, t, p) && QueuedOn(s.db.jobs, p.repo, p.branch) == {}
    requires j !in s.db.jobs && !JobIdPending(s, j) && !DeliveryUsed(s.db.jobs, NullIfEmpty(p.delivery))
    ensures var jobs' := s.db.jobs[j := NewRow(p, s.now)];
      && Pushes(s.db.jobs, p, s.now, jobs', Made(j))
      && After(s, PushEvents(t, p, target, j))
         == Some(s.(db := Db(jobs', s.db.snaps),
                    world := s.world.(pushes := s.world.pushes + [PushRecord(p, Inserted(j))],
                                      toEnqueue := s.world.toEnqueue + {j})))
  {
    PushInserts(s, t, p, target, j);
    var head := [Begin(t, PushLock(p)), Stmt(t, 0), Stmt(t, target), Stmt(t, j)];
    var tx := NewTx(s.now, PushInsert(p)).(advisory := Some(LockKey(s.cfg, p)));
    var tx' := tx.(insert := Some((j, NewRow(p, s.now))), prog := PushCommit(p, Inserted(j)));
    assert s.db.jobs + tx'.writes == s.db.jobs;
    Ends(s, t, head, tx', false, 0, Db(s.db.jobs[j := NewRow(p, s.now)], s.db.snaps),
         s.world.(pushes := s.world.pushes + [PushRecord(p, Inserted(j))], toEnqueue := s.world.toEnqueue + {j}));
    assert PushEvents(t, p, target, j) == head + [Commit(t, false, 0)];
  }

  /** A push that finds no queued job and a delivery id seen before: the insert fails and nothing is left. */
  lemma PushDuplicateAlone(s: State, t: TxId, p: Push, target: nat, j: JobId)
    requires PushFree(s, t, p) && QueuedOn(s.db.jobs, p.repo, p.branch) == {}
    requires j !in s.db.jobs && !JobIdPending(s, j) && DeliveryUsed(s.db.jobs, NullIfEmpty(p.delivery))
    ensures Pushes(s.db.jobs, p, s.now, s.db.jobs, Duplicate)
    ensures After(s, [Begin(t, PushLock(p)), Stmt(t, 0), Stmt(t, target), Stmt(t, j)]) == Some(s)
  {
    var head := [Begin(t, PushLock(p)), Stmt(t, 0), Stmt(t, target)];
    PushReads(s, t, p, target);
    var tx := NewTx(s.now, PushInsert(p)).(advisory := Some(LockKey(s.cfg, p)));
    OthersSame(s, t, tx);
    PutClose(s, t, tx);
    assert PushStmt(Put(s, t, tx), t, j) == Some(Close(Put(s, t, tx), t));
    Extend(s, head, Put(s, t, tx), Stmt(t, j), s);
    assert [Begin(t, PushLock(p)), Stmt(t, 0), Stmt(t, target), Stmt(t, j)] == head + [Stmt(t, j)];
  }

  // ----- callbacks -----

  lemma QueuedStartWrites(s: State, t: TxId, j: JobId)
    requires t !in s.txs && MayCall(s.cfg, s.world, j) && !LockedByOther(s, t, j)
    requires j in s.db.jobs && s.db.jobs[j].status == Queued
    ensures var tx := NewTx(s.now, StartLock(j)).(locks := {j});
      After(s, [Begin(t, StartLock(j)), Stmt(t, 0), Stmt(t, 0)])
      == Some(Put(s, t, Touch(tx, j, SetStatus(s.db.jobs[j], Running, None, s.now), StartCommit(j, s.db.jobs[j]))))
  {
    var row, tx0 := s.db.jobs[j], NewTx(s.now, StartLock(j));
    var tx1 := tx0.(locks := {j}, prog := StartWrite(j, row));
    var tx2 := Touch(tx1, j, SetStatus(row, Running, None, s.now), StartCommit(j, row));
    OthersSame(s, t, tx0);
    PutPut(s, t, tx0, tx1);
    Begins(s, t, StartLock(j), 0, Put(s, t, tx1));
    PutPut(s, t, tx1, tx2);
    AfterSnoc(s, [Begin(t, StartLock(j)), Stmt(t, 0)], Stmt(t, 0));
    assert [Begin(t, StartLock(j)), Stmt(t, 0), Stmt(t, 0)] == [Begin(t, StartLock(j)), Stmt(t, 0)] + [Stmt(t, 0)];
  }

  lemma QueuedStartAlone(s: State, t: TxId, j: JobId)
    requires t !in s.txs && MayCall(s.cfg, s.world, j) && !LockedByOther(s, t, j)
    requires j in s.db.jobs && s.db.jobs[j].status == Queued
    ensures StartAnswer(s.db.jobs, j) == Started(s.db.jobs[j])
    ensures After(s, [Begin(t, StartLock(j)), Stmt(t, 0), Stmt(t, 0), Commit(t, true, 0)])
            == Some(s.(db := Db(StartJobs(s.db.jobs, j, s.now), s.db.snaps),
                       world := s.world.(replies := s.world.replies + {Reply(j, s.db.jobs[j].sha)})))
  {
    QueuedStartWrites(s, t, j);
    var head, row := [Begin(t, StartLock(j)), Stmt(t, 0), Stmt(t, 0)], s.db.jobs[j];
    var tx := NewTx(s.now, StartLock(j)).(locks := {j});
    var tx' := Touch(tx, j, SetStatus(row, Running, None, s.now), StartCommit(j, row));
    assert s.db.jobs + tx'.writes == StartJobs(s.db.jobs, j, s.now);
    Ends(s, t, head, tx', true, 0, Db(StartJobs(s.db.jobs, j, s.now), s.db.snaps),
         s.world.(replies := s.world.replies + {Reply(j, row.sha)}));
    assert [Begin(t, StartLock(j)), Stmt(t, 0), Stmt(t, 0), Commit(t, true, 0)] == head + [Commit(t, true, 0)];
  }

  /** A start of a running job is answered again and writes nothing. */
  lemma RunningStartAlone(s: State, t: TxId, j: JobId)
    requires t !in s.txs && MayCall(s.cfg, s.world, j) && !LockedByOther(s, t, j)
    requires j in s.db.jobs && s.db.jobs[j].status == Running
    ensures After(s, [Begin(t, StartLock(j)), Stmt(t, 0), Commit(t, true, 0)])
            == Some(s.(world := s.world.(replies := s.world.replies + {Reply(j, s.db.jobs[j].sha)})))
  {
    var tx0 := NewTx(s.now, StartLock(j));
    var tx1 := tx0.(locks := {j}, prog := StartCommit(j, s.db.jobs[j]));
    OthersSame(s, t, tx0);
    PutPut(s, t, tx0, tx1);
    Begins(s, t, StartLock(j), 0, Put(s, t, tx1));
    assert s.db.jobs + tx1.writes == s.db.jobs;
    Ends(s, t, [Begin(t, StartLock(j)), Stmt(t, 0)], tx1, true, 0, s.db,
         s.world.(replies := s.world.replies + {Reply(j, s.db.jobs[j].sha)}));
    assert [Begin(t, StartLock(j)), Stmt(t, 0), Commit(t, true, 0)]
        == [Begin(t, StartLock(j)), Stmt(t, 0)] + [Commit(t, true, 0)];
  }

  lemma RefusedStartAlone(s: State, t: TxId, j: JobId)
    requires t !in s.txs && MayCall(s.cfg, s.world, j) && !LockedByOther(s, t, j) && !StartAnswer(s.db.jobs, j).Started?
    ensures After(s, [Begin(t, StartLock(j)), Stmt(t, 0)]) == Some(s)
  {
    OthersSame(s, t, NewTx(s.now, StartLock(j)));
    PutClose(s, t, NewTx(s.now, StartLock(j)));
    Begins(s, t, StartLock(j), 0, s);
  }

  function StartEvents(jobs: map<JobId, Job>, t: TxId, j: JobId): seq<Event> {
    [Begin(t, StartLock(j)), Stmt(t, 0)]
    + (if j in jobs && jobs[j].status == Queued then [Stmt(t, 0)] else [])
    + (if StartAnswer(jobs, j).Started? then [Commit(t, true, 0)] else [])
  }

  /** A start callback, whatever it finds: queued, running, terminal or no job at all. */
  lemma StartAlone(s: State, t: TxId, j: JobId)
    requires t !in s.txs && MayCall(s.cfg, s.world, j) && !LockedByOther(s, t, j)
    ensures var answer := StartAnswer(s.db.jobs, j);
      After(s, StartEvents(s.db.jobs, t, j))
      == Some(s.(db := Db(StartJobs(s.db.jobs, j, s.now), s.db.snaps),
                 world := if answer.Started? then s.world.(replies := s.world.replies + {Reply(j, answer.row.sha)})
                          else s.world))
  {
    var es := StartEvents(s.db.jobs, t, j);
    if !StartAnswer(s.db.jobs, j).Started? {
      RefusedStartAlone(s, t, j);
      assert es == [Begin(t, StartLock(j)), Stmt(t, 0)];
    } else if s.db.jobs[j].status == Queued {
      QueuedStartAlone(s, t, j);
      assert es == [Begin(t, StartLock(j)), Stmt(t, 0), Stmt(t, 0), Commit(t, true, 0)];
    } else {
      RunningStartAlone(s, t, j);
      assert es == [Begin(t, StartLock(j)), Stmt(t, 0), Commit(t, true, 0)];
    }
  }

  lemma OtherSnaps(s: State, t: TxId, a: Tx, id: nat, snap: Snapshot)
    requires t !in s.txs && a.snap.None? && !SnapIdPending(s, id) && !KeyPending(s, t, snap)
    ensures !SnapIdPending(Put(s, t, a), id) && !KeyPending(Put(s, t, a), t, snap)
  {
    var s' := Put(s, t, a);
    assert forall u :: u in s'.txs && s'.txs[u].snap.Some? ==> u in s.txs && s.txs[u] == s'.txs[u];
  }

  /** A completion of an active job: status and, on success, snapshot, or nothing if the snapshot's key is taken. */
  function CompleteEvents(t: TxId, j: JobId, c: Completion, id: SnapId, taken: bool): seq<Event> {
    [Begin(t, DoneLock(j, c)), Stmt(t, 0), Stmt(t, 0)]
    + (if c.Success? then [Stmt(t, id)] else [])
    + (if c.Success? && taken then [] else [Commit(t, true, 0)])
  }

  lemma CompleteLocks(s: State, t: TxId, j: JobId, c: Completion)
    requires t !in s.txs && MayCall(s.cfg, s.world, j) && Earned(s.db, s.world, j, c) && !LockedByOther(s, t, j)
    requires j in s.db.jobs && !s.db.jobs[j].status.IsTerminal()
    ensures var row := s.db.jobs[j];
      var tx := NewTx(s.now, DoneLock(j, c)).(locks := {j});
      var next := if c.Success? then DoneSnap(j, row, c) else DoneCommit(j, row, c);
      After(s, [Begin(t, DoneLock(j, c)), Stmt(t, 0), Stmt(t, 0)])
        == Some(Put(s, t, Touch(tx, j, CompletedRow(row, c, s.now), next)))
  {
    var row := s.db.jobs[j];
    var tx0 := NewTx(s.now, DoneLock(j, c));
    var tx1 := tx0.(locks := {j}, prog := DoneWrite(j, row, c));
    var tx2 := Touch(tx1, j, CompletedRow(row, c, s.now), if c.Success? then DoneSnap(j, row, c) else DoneCommit(j, row, c));
    AfterOne(s, Begin(t, DoneLock(j, c)));
    OthersSame(s, t, tx0);
    AfterSnoc(s, [Begin(t, DoneLock(j, c))], Stmt(t, 0));
    PutPut(s, t, tx0, tx1);
    assert Next(Put(s, t, tx0), Stmt(t, 0)) == Some(Put(s, t, tx1));
    AfterSnoc(s, [Begin(t, DoneLock(j, c))] + [Stmt(t, 0)], Stmt(t, 0));
    PutPut(s, t, tx1, tx2);
    assert Next(Put(s, t, tx1), Stmt(t, 0)) == Some(Put(s, t, tx2));
    assert [Begin(t, DoneLock(j, c)), Stmt(t, 0), Stmt(t, 0)] == [Begin(t, DoneLock(j, c))] + [Stmt(t, 0)] + [Stmt(t, 0)];
  }

  ghost predicate CompleteFree(s: State, t: TxId, j: JobId, c: Completion, id: SnapId) {
    && t !in s.txs && MayCall(s.cfg, s.world, j) && Earned(s.db, s.world, j, c) && !LockedByOther(s, t, j)
    && j in s.db.jobs && !s.db.jobs[j].status.IsTerminal()
    && (c.Success? ==>
          id !in s.db.snaps && !SnapIdPending(s, id) && !KeyPending(s, t, SnapRow(s.db.jobs[j], j, c)))
  }

  lemma FailureAlone(s: State, t: TxId, j: JobId, c: Completion, id: SnapId)
    requires CompleteFree(s, t, j, c, id) && c.Failure?
    ensures After(s, CompleteEvents(t, j, c, id, false)) == Some(s.(db := CompleteDb(s.db, j, c, id, s.now)))
  {
    var row := s.db.jobs[j];
    var head := [Begin(t, DoneLock(j, c)), Stmt(t, 0), Stmt(t, 0)];
    var tx := Touch(NewTx(s.now, DoneLock(j, c)).(locks := {j}), j, CompletedRow(row, c, s.now), DoneCommit(j, row, c));
    CompleteLocks(s, t, j, c);
    CommitPut(s, t, tx, true);
    Extend(s, head, Put(s, t, tx), Commit(t, true, 0), s.(db := Publish(s.db, tx)));
    assert s.db.jobs + tx.writes == s.db.jobs[j := CompletedRow(row, c, s.now)];
    assert CompleteEvents(t, j, c, id, false) == head + [Commit(t, true, 0)];
  }

  lemma SuccessAlone(s: State, t: TxId, j: JobId, c: Completion, id: SnapId)
    requires CompleteFree(s, t, j, c, id) && c.Success? && !KeyUsed(s.db.snaps, SnapRow(s.db.jobs[j], j, c))
    ensures After(s, CompleteEvents(t, j, c, id, false)) == Some(s.(db := CompleteDb(s.db, j, c, id, s.now)))
  {
    var row := s.db.jobs[j];
    var head := [Begin(t, DoneLock(j, c)), Stmt(t, 0), Stmt(t, 0)];
    var tx := Touch(NewTx(s.now, DoneLock(j, c)).(locks := {j}), j, CompletedRow(row, c, s.now), DoneSnap(j, row, c));
    var tx' := tx.(snap := Some((id, SnapRow(row, j, c))), prog := DoneCommit(j, row, c));
    CompleteLocks(s, t, j, c);
    SnapOne(s, t, j, c, id, tx);
    Extend(s, head, Put(s, t, tx), Stmt(t, id), Put(s, t, tx'));
    CommitPut(s, t, tx', true);
    Extend(s, head + [Stmt(t, id)], Put(s, t, tx'), Commit(t, true, 0), s.(db := Publish(s.db, tx')));
    assert s.db.jobs + tx'.writes == s.db.jobs[j := CompletedRow(row, c, s.now)];
    assert CompleteEvents(t, j, c, id, false) == head + [Stmt(t, id)] + [Commit(t, true, 0)];
  }

  lemma SnapOne(s: State, t: TxId, j: JobId, c: Completion, id: SnapId, tx: Tx)
    requires CompleteFree(s, t, j, c, id) && c.Success? && !KeyUsed(s.db.snaps, SnapRow(s.db.jobs[j], j, c))
    requires tx.prog == DoneSnap(j, s.db.jobs[j], c) && tx.snap.None?
    ensures Next(Put(s, t, tx), Stmt(t, id))
            == Some(Put(s, t, tx.(snap := Some((id, SnapRow(s.db.jobs[j], j, c))), prog := DoneCommit(j, s.db.jobs[j], c))))
  {
    OtherSnaps(s, t, tx, id, SnapRow(s.db.jobs[j], j, c));
    PutPut(s, t, tx, tx.(snap := Some((id, SnapRow(s.db.jobs[j], j, c))), prog := DoneCommit(j, s.db.jobs[j], c)));
  }

  lemma ConflictAlone(s: State, t: TxId, j: JobId, c: Completion, id: SnapId)
    requires CompleteFree(s, t, j, c, id) && c.Success? && KeyUsed(s.db.snaps, SnapRow(s.db.jobs[j], j, c))
    ensures After(s, CompleteEvents(t, j, c, id, true)) == Some(s.(db := CompleteDb(s.db, j, c, id, s.now)))
  {
    var row := s.db.jobs[j];
    var head := [Begin(t, DoneLock(j, c)), Stmt(t, 0), Stmt(t, 0)];
    var tx := Touch(NewTx(s.now, DoneLock(j, c)).(locks := {j}), j, CompletedRow(row, c, s.now), DoneSnap(j, row, c));
    CompleteLocks(s, t, j, c);
    OtherSnaps(s, t, tx, id, SnapRow(row, j, c));
    AfterSnoc(s, head, Stmt(t, id));
    PutClose(s, t, tx);
    assert CallbackStmt(Put(s, t, tx), t, id) == Some(Close(Put(s, t, tx), t));
    assert CompleteEvents(t, j, c, id, true) == head + [Stmt(t, id)];
  }

  lemma ActiveCompleteAlone(s: State, t: TxId, j: JobId, c: Completion, id: SnapId)
    requires CompleteFree(s, t, j, c, id)
    ensures After(s, CompleteEvents(t, j, c, id, CompleteAnswer(s.db, j, c).RolledBack?))
            == Some(s.(db := CompleteDb(s.db, j, c, id, s.now)))
  {
    if c.Failure? {
      FailureAlone(s, t, j, c, id);
    } else if KeyUsed(s.db.snaps, SnapRow(s.db.jobs[j], j, c)) {
      ConflictAlone(s, t, j, c, id);
    } else {
      SuccessAlone(s, t, j, c, id);
    }
  }

  /** The events of a completion, by what it finds. */
  function AnyCompleteEvents(db: Db, t: TxId, j: JobId, c: Completion, id: SnapId): seq<Event> {
    match CompleteAnswer(db, j, c)
    case CompleteNotFound => [Begin(t, DoneLock(j, c)), Stmt(t, 0)]
    case NoOp(_) => [Begin(t, DoneLock(j, c)), Stmt(t, 0), Commit(t, true, 0)]
    case _ => CompleteEvents(t, j, c, id, CompleteAnswer(db, j, c).RolledBack?)
  }

  /** A completion callback, whatever it finds: an active or terminal job or none at all, a free snapshot key
      or a taken one. */
  lemma CompleteAlone(s: State, t: TxId, j: JobId, c: Completion, id: SnapId)
    requires t !in s.txs && MayCall(s.cfg, s.world, j) && Earned(s.db, s.world, j, c) && !LockedByOther(s, t, j)
    requires j in s.db.jobs && c.Success? ==>
      id !in s.db.snaps && !SnapIdPending(s, id) && !KeyPending(s, t, SnapRow(s.db.jobs[j], j, c))
    ensures After(s, AnyCompleteEvents(s.db, t, j, c, id)) == Some(s.(db := CompleteDb(s.db, j, c, id, s.now)))
  {
    if j in s.db.jobs && !s.db.jobs[j].status.IsTerminal() {
      ActiveCompleteAlone(s, t, j, c, id);
    } else {
      var tx0 := NewTx(s.now, DoneLock(j, c));
      var head := [Begin(t, DoneLock(j, c))];
      AfterOne(s, Begin(t, DoneLock(j, c)));
      assert Next(s, Begin(t, DoneLock(j, c))) == Some(Put(s, t, tx0));
      OthersSame(s, t, tx0);
      if j in s.db.jobs {
        var tx1 := tx0.(locks := {j}, prog := DoneCommit(j, s.db.jobs[j], c));
        PutPut(s, t, tx0, tx1);
        Extend(s, head, Put(s, t, tx0), Stmt(t, 0), Put(s, t, tx1));
        CommitPut(s, t, tx1, true);
        assert s.db.jobs + tx1.writes == s.db.jobs;
        Extend(s, head + [Stmt(t, 0)], Put(s, t, tx1), Commit(t, true, 0), s);
        assert AnyCompleteEvents(s.db, t, j, c, id) == head + [Stmt(t, 0)] + [Commit(t, true, 0)];
      } else {
        PutClose(s, t, tx0);
        assert Next(Put(s, t, tx0), Stmt(t, 0)) == Some(s);
        Extend(s, head, Put(s, t, tx0), Stmt(t, 0), s);
        assert AnyCompleteEvents(s.db, t, j, c, id) == head + [Stmt(t, 0)];
      }
    }
  }

  // ----- claim and watchdog -----

  /** The queued jobs that `SKIP LOCKED` does not skip. */
  ghost function Claimable(s: State, t: TxId): set<JobId> {
    set j | j in s.db.jobs && s.db.jobs[j].status == Queued && !LockedByOther(s, t, j)
  }

  lemma SameClaimable(s: State, t: TxId, tx: Tx)
    requires t !in s.txs
    ensures Claimable(Put(s, t, tx), t) == Claimable(s, t)
  {
    OthersSame(s, t, tx);
    forall j | LockedByOther(s, t, j)
      ensures LockedByOther(Put(s, t, tx), t, j)
    {
      var u :| u in s.txs && u != t && j in s.txs[u].locks;
      assert u in Put(s, t, tx).txs && j in Put(s, t, tx).txs[u].locks;
    }
  }

  lemma NobodyLocks(s: State, t: TxId)
    ensures (forall k :: !LockedByOther(s, t, k)) ==> Claimable(s, t) == AllQueued(s.db.jobs)
  {
  }

  lemma ClaimOne(s: State, t: TxId, tx: Tx, j: JobId)
    requires t !in s.txs && tx.prog == ClaimSelect && Oldest(s.db.jobs, Claimable(s, t), j)
    ensures Next(Put(s, t, tx), Stmt(t, j)) == Some(Put(s, t, Touch(tx, j, ClaimRow(s.db.jobs[j], tx.now), ClaimCommit(j))))
  {
    assert j in Claimable(s, t);
    SameClaimable(s, t, tx);
    PutPut(s, t, tx, Touch(tx, j, ClaimRow(s.db.jobs[j], tx.now), ClaimCommit(j)));
    assert Claimable(Put(s, t, tx), t)
        == set k | k in s.db.jobs && s.db.jobs[k].status == Queued && !LockedByOther(Put(s, t, tx), t, k);
  }

  lemma ClaimSelects(s: State, t: TxId, j: JobId)
    requires t !in s.txs && s.cfg.mode == Poll && Oldest(s.db.jobs, Claimable(s, t), j)
    ensures After(s, [Begin(t, ClaimSelect), Stmt(t, j)])
            == Some(Put(s, t, Touch(NewTx(s.now, ClaimSelect), j, ClaimRow(s.db.jobs[j], s.now), ClaimCommit(j))))
  {
    var tx := NewTx(s.now, ClaimSelect);
    ClaimOne(s, t, tx, j);
    Begins(s, t, ClaimSelect, j, Put(s, t, Touch(tx, j, ClaimRow(s.db.jobs[j], s.now), ClaimCommit(j))));
  }

  /** A claim whose row reaches its poller takes an oldest of the queued jobs nobody has locked, whatever others
      hold. */
  lemma ClaimAlone(s: State, t: TxId, p: PollerId, j: JobId)
    requires t !in s.txs && s.cfg.mode == Poll && p !in s.world.held && Oldest(s.db.jobs, Claimable(s, t), j)
    ensures var jobs' := s.db.jobs[j := ClaimRow(s.db.jobs[j], s.now)];
      After(s, [Begin(t, ClaimSelect), Stmt(t, j), Commit(t, true, p)])
      == Some(s.(db := Db(jobs', s.db.snaps), world := s.world.(held := s.world.held[p := j])))
  {
    ClaimSelects(s, t, j);
    var head := [Begin(t, ClaimSelect), Stmt(t, j)];
    ClaimCommits(s, t, p, j, head);
    assert [Begin(t, ClaimSelect), Stmt(t, j), Commit(t, true, p)] == head + [Commit(t, true, p)];
  }

  lemma ClaimCommits(s: State, t: TxId, p: PollerId, j: JobId, head: seq<Event>)
    requires t !in s.txs && p !in s.world.held && j in s.db.jobs
    requires After(s, head)
             == Some(Put(s, t, Touch(NewTx(s.now, ClaimSelect), j, ClaimRow(s.db.jobs[j], s.now), ClaimCommit(j))))
    ensures After(s, head + [Commit(t, true, p)])
            == Some(s.(db := Db(s.db.jobs[j := ClaimRow(s.db.jobs[j], s.now)], s.db.snaps),
                       world := s.world.(held := s.world.held[p := j])))
  {
    var tx := Touch(NewTx(s.now, ClaimSelect), j, ClaimRow(s.db.jobs[j], s.now), ClaimCommit(j));
    assert s.db.jobs + tx.writes == s.db.jobs[j := ClaimRow(s.db.jobs[j], s.now)];
    Ends(s, t, head, tx, true, p, Db(s.db.jobs[j := ClaimRow(s.db.jobs[j], s.now)], s.db.snaps),
         s.world.(held := s.world.held[p := j]));
  }

  /** When nobody holds a lock, that is the atomic claim. */
  lemma UnlockedClaim(s: State, t: TxId, j: JobId)
    requires (forall k :: !LockedByOther(s, t, k)) && Oldest(s.db.jobs, Claimable(s, t), j)
    ensures Claims(s.db.jobs, s.now, s.db.jobs[j := ClaimRow(s.db.jobs[j], s.now)], Some(j))
  {
    NobodyLocks(s, t);
  }

  /** A claim that finds every queued job locked, or no queued job, changes nothing. */
  lemma EmptyClaimAlone(s: State, t: TxId)
    requires t !in s.txs && s.cfg.mode == Poll && Claimable(s, t) == {}
    ensures After(s, [Begin(t, ClaimSelect), Stmt(t, 0)]) == Some(s)
    ensures (forall k :: !LockedByOther(s, t, k)) ==> Claims(s.db.jobs, s.now, s.db.jobs, None)
  {
    var tx0 := NewTx(s.now, ClaimSelect);
    AfterOne(s, Begin(t, ClaimSelect));
    assert Next(s, Begin(t, ClaimSelect)) == Some(Put(s, t, tx0));
    SameClaimable(s, t, tx0);
    PutClose(s, t, tx0);
    assert Claimable(Put(s, t, tx0), t)
        == set k | k in s.db.jobs && s.db.jobs[k].status == Queued && !LockedByOther(Put(s, t, tx0), t, k);
    assert Next(Put(s, t, tx0), Stmt(t, 0)) == Some(s);
    Extend(s, [Begin(t, ClaimSelect)], Put(s, t, tx0), Stmt(t, 0), s);
    assert [Begin(t, ClaimSelect), Stmt(t, 0)] == [Begin(t, ClaimSelect)] + [Stmt(t, 0)];
    NobodyLocks(s, t);
  }

  ghost predicate Sweeping(s: State, t: TxId, tx: Tx) {
    && tx.prog.SweepRows? && tx.insert.None? && tx.snap.None? && tx.now == s.now
    && tx.prog.todo + tx.writes.Keys == (set j | j in s.db.jobs && Overdue(s.db.jobs[j], s.now))
    && tx.prog.todo !! tx.writes.Keys
    && forall k :: k in tx.writes ==> k in s.db.jobs && tx.writes[k] == TimeoutRow(s.db.jobs[k], s.now)
  }

  lemma SweepDone(s: State, t: TxId, tx: Tx)
    requires t !in s.txs && Sweeping(s, t, tx) && tx.prog.todo == {}
    ensures After(Put(s, t, tx), [Commit(t, false, 0)]) == Some(s.(db := Db(Swept(s.db.jobs, s.now), s.db.snaps)))
  {
    AfterOne(Put(s, t, tx), Commit(t, false, 0));
    CommitPut(s, t, tx, false);
    assert s.db.jobs + tx.writes == Swept(s.db.jobs, s.now);
  }

  lemma SweepingOn(s: State, t: TxId, tx: Tx, j: JobId)
    requires Sweeping(s, t, tx) && j in tx.prog.todo
    ensures j in s.db.jobs && Overdue(s.db.jobs[j], s.now)
    ensures Sweeping(s, t, Touch(tx, j, TimeoutRow(s.db.jobs[j], s.now), SweepRows(tx.prog.todo - {j})))
  {
    assert j in (set j | j in s.db.jobs && Overdue(s.db.jobs[j], s.now));
  }

  lemma {:induction false} SweepRest(s: State, t: TxId, tx: Tx) returns (es: seq<Event>)
    requires t !in s.txs && (forall k :: !LockedByOther(s, t, k)) && Sweeping(s, t, tx)
    ensures After(Put(s, t, tx), es) == Some(s.(db := Db(Swept(s.db.jobs, s.now), s.db.snaps)))
    decreases |tx.prog.todo|
  {
    if tx.prog.todo == {} {
      SweepDone(s, t, tx);
      es := [Commit(t, false, 0)];
    } else {
      var j :| j in tx.prog.todo;
      SweepingOn(s, t, tx, j);
      SweepOne(s, t, tx, j);
      var rest := SweepRest(s, t, Touch(tx, j, TimeoutRow(s.db.jobs[j], s.now), SweepRows(tx.prog.todo - {j})));
      es := [Stmt(t, j)] + rest;
      assert es[1..] == rest;
    }
  }

  lemma SweepOne(s: State, t: TxId, tx: Tx, j: JobId)
    requires t !in s.txs && (forall k :: !LockedByOther(s, t, k)) && tx.prog.SweepRows? && tx.now == s.now
    requires j in tx.prog.todo && j in s.db.jobs && Overdue(s.db.jobs[j], s.now)
    ensures Next(Put(s, t, tx), Stmt(t, j))
            == Some(Put(s, t, Touch(tx, j, TimeoutRow(s.db.jobs[j], s.now), SweepRows(tx.prog.todo - {j}))))
  {
    OthersSame(s, t, tx);
    PutPut(s, t, tx, Touch(tx, j, TimeoutRow(s.db.jobs[j], s.now), SweepRows(tx.prog.todo - {j})));
  }

  /** The watchdog's single UPDATE, row by row, fails exactly the overdue jobs. */
  lemma SweepAlone(s: State, t: TxId) returns (es: seq<Event>)
    requires t !in s.txs && (forall k :: !LockedByOther(s, t, k))
    ensures After(s, es) == Some(s.(db := Db(Swept(s.db.jobs, s.now), s.db.snaps)))
  {
    var todo := set j | j in s.db.jobs && Overdue(s.db.jobs[j], s.now);
    var tx0 := NewTx(s.now, SweepScan);
    var tx1 := tx0.(prog := SweepRows(todo));
    AfterOne(s, Begin(t, SweepScan));
    assert Next(s, Begin(t, SweepScan)) == Some(Put(s, t, tx0));
    assert Next(Put(s, t, tx0), Stmt(t, 0)) == Some(Put(s, t, tx1)) by { PutPut(s, t, tx0, tx1); }
    Extend(s, [Begin(t, SweepScan)], Put(s, t, tx0), Stmt(t, 0), Put(s, t, tx1));
    var rest := SweepRest(s, t, tx1);
    es := [Begin(t, SweepScan)] + [Stmt(t, 0)] + rest;
    AfterConcat(s, [Begin(t, SweepScan)] + [Stmt(t, 0)], rest);
  }
}
