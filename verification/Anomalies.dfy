/** Runs that show where the code does less than its comments promise. Each is a run of the
    protocol machine from empty tables. */
module Anomalies {
  import opened Rows
  import opened Protocol
  import opened Invariant
  import opened Sequential
  import opened Atomic

  function PushToMain(sha: Sha, delivery: string): Push {
    Push("r", "main", sha, delivery)
  }

  /** The run so far, extended by events that can run. */
  lemma Chained(s: State, es: seq<Event>, m: State, fs: seq<Event>, n: State)
    requires After(s, es) == Some(m) && After(m, fs) == Some(n)
    ensures After(s, es + fs) == Some(n)
  {
    AfterConcat(s, es, fs);
  }

  lemma Quiet(s: State, t: TxId)
    requires s.txs == map[]
    ensures forall p :: PushFree(s, t, p)
    ensures forall j :: !LockedByOther(s, t, j)
    ensures forall j :: !JobIdPending(s, j)
  {
  }

  /** One queued job for commit `sha`, nothing open. */
  function OneJob(cfg: Config, sha: Sha): State {
    var p := PushToMain(sha, "d1");
    State(cfg, 0, Db(map[0 := NewRow(p, 0)], map[]),
          World({0}, [], map[], {}, [PushRecord(p, Inserted(0))], {}), map[])
  }

  lemma FirstPush(cfg: Config, sha: Sha) returns (es: seq<Event>)
    ensures After(Init(cfg, 0), es) == Some(OneJob(cfg, sha))
  {
    var s := Init(cfg, 0);
    var p := PushToMain(sha, "d1");
    Quiet(s, 0);
    assert QueuedOn(s.db.jobs, p.repo, p.branch) == {};
    PushMakesAlone(s, 0, p, 0, 0);
    es := PushEvents(0, p, 0, 0);
    assert s.db.jobs[0 := NewRow(p, 0)] == map[0 := NewRow(p, 0)];
    assert [] + [PushRecord(p, Inserted(0))] == [PushRecord(p, Inserted(0))];
    assert {} + {0} == {0};
  }

  // ----- a push without a trace -----

  lemma OvertakenCommit(s: State, t: TxId, tx: Tx, p: Push, j: JobId)
    requires t !in s.txs && tx.prog == PushCommit(p, Overtaken(j)) && tx.writes == map[] && tx.insert.None? && tx.snap.None?
    ensures Next(Put(s, t, tx), Commit(t, false, 0))
            == Some(s.(world := s.world.(pushes := s.world.pushes + [PushRecord(p, Overtaken(j))])))
  {
    CommitPut(s, t, tx, false);
    assert s.db.jobs + tx.writes == s.db.jobs;
  }

  /** From any state with a queued, enqueued job, a push that reads it just before a worker starts it
      commits without touching a row: the tables are as if only the start had happened. */
  lemma PushOvertakenByStart(s: State, t: TxId, u: TxId, p: Push, j: JobId) returns (es: seq<Event>)
    requires s.txs == map[] && t != u && MayCall(s.cfg, s.world, j)
    requires Oldest(s.db.jobs, QueuedOn(s.db.jobs, p.repo, p.branch), j)
    ensures After(s, es)
            == Some(s.(db := Db(s.db.jobs[j := SetStatus(s.db.jobs[j], Running, None, s.now)], s.db.snaps),
                       world := s.world.(replies := s.world.replies + {Reply(j, s.db.jobs[j].sha)},
                                         pushes := s.world.pushes + [PushRecord(p, Overtaken(j))])))
  {
    Quiet(s, t);
    assert j in QueuedOn(s.db.jobs, p.repo, p.branch);
    var tx := NewTx(s.now, PushUpdate(p, j)).(advisory := Some(LockKey(s.cfg, p)));
    var head := [Begin(t, PushLock(p)), Stmt(t, 0), Stmt(t, j)];
    PushReads(s, t, p, j);
    var s1 := Put(s, t, tx);
    var start := [Begin(u, StartLock(j)), Stmt(u, 0), Stmt(u, 0), Commit(u, true, 0)];
    QueuedStartAlone(s1, u, j);
    var s2 := s.(db := Db(s.db.jobs[j := SetStatus(s.db.jobs[j], Running, None, s.now)], s.db.snaps),
                 world := s.world.(replies := s.world.replies + {Reply(j, s.db.jobs[j].sha)}));
    Chained(s, head, s1, start, Put(s2, t, tx));
    var tx' := tx.(prog := PushCommit(p, Overtaken(j)));
    PutPut(s2, t, tx, tx');
    Extend(s, head + start, Put(s2, t, tx), Stmt(t, 0), Put(s2, t, tx'));
    var s3 := s2.(world := s2.world.(pushes := s2.world.pushes + [PushRecord(p, Overtaken(j))]));
    assert Next(Put(s2, t, tx'), Commit(t, false, 0)) == Some(s3) by {
      OvertakenCommit(s2, t, tx', p, j);
    }
    Extend(s, head + start + [Stmt(t, 0)], Put(s2, t, tx'), Commit(t, false, 0), s3);
    es := head + start + [Stmt(t, 0)] + [Commit(t, false, 0)];
  }

  /** A committed push can leave no trace: its commit is the last one pushed to the branch, and no job
      and no snapshot carries it. */
  lemma LostPush(cfg: Config) returns (ss: seq<State>, es: seq<Event>)
    requires cfg.mode == Http
    ensures Run(ss, es)
    ensures var s := ss[|es|];
      && s.txs == map[] && LastSha(s.world.pushes, "r", "main") == Some("b")
      && (forall j :: j in s.db.jobs ==> s.db.jobs[j].sha != "b")
      && (forall i :: i in s.db.snaps ==> s.db.snaps[i].sha != "b")
  {
    var init := Init(cfg, 0);
    var first := FirstPush(cfg, "a");
    var s1 := OneJob(cfg, "a");
    var s2 := s1.(world := Enqueued(s1.world, 0, true));
    Extend(init, first, s1, Enqueue(0, true), s2);
    var p := PushToMain("b", "d2");
    assert 0 in QueuedOn(s2.db.jobs, "r", "main");
    assert s2.world.tasks == [0];
    var lost := PushOvertakenByStart(s2, 0, 1, p, 0);
    var s3 := After(s2, lost).value;
    es := first + [Enqueue(0, true)] + lost;
    Chained(init, first + [Enqueue(0, true)], s2, lost, s3);
    ss := AfterIsRun(cfg, 0, es);
    assert s3.world.pushes[|s3.world.pushes| - 1] == PushRecord(p, Overtaken(0));
  }

  // ----- a job that fails without having started -----

  /** The start request of a delivered task is lost, the executor's failure report gets through: the queued job
      is failed and was never started. */
  lemma FailedUnstarted(cfg: Config) returns (ss: seq<State>, es: seq<Event>)
    requires cfg.mode == Http
    ensures Run(ss, es)
    ensures var s := ss[|es|]; 0 in s.db.jobs && s.db.jobs[0].status == Failed && s.db.jobs[0].startedAt.None?
  {
    var init := Init(cfg, 0);
    var first := FirstPush(cfg, "a");
    var s1 := OneJob(cfg, "a");
    var s2 := s1.(world := Enqueued(s1.world, 0, true));
    Extend(init, first, s1, Enqueue(0, true), s2);
    var c := Failure("start callback");
    Quiet(s2, 0);
    assert s2.world.tasks == [0];
    FailureAlone(s2, 0, 0, c, 0);
    var report := CompleteEvents(0, 0, c, 0, false);
    var s3 := s2.(db := CompleteDb(s2.db, 0, c, 0, s2.now));
    Chained(init, first + [Enqueue(0, true)], s2, report, s3);
    es := first + [Enqueue(0, true)] + report;
    ss := AfterIsRun(cfg, 0, es);
  }

  // ----- a redelivered webhook -----

  /** A redelivery of the first push moves the queued job back from the second push's commit. */
  lemma RedeliveryRegresses(cfg: Config) returns (ss: seq<State>, es: seq<Event>)
    ensures Run(ss, es)
    ensures var s := ss[|es|];
      && s.world.pushes == [PushRecord(PushToMain("a", "d1"), Inserted(0)), PushRecord(PushToMain("b", "d2"), Updated(0)),
                            PushRecord(PushToMain("a", "d1"), Updated(0))]
      && s.db.jobs == map[0 := NewRow(PushToMain("a", "d1"), 0)]
  {
    var init := Init(cfg, 0);
    var first := FirstPush(cfg, "a");
    var s1 := OneJob(cfg, "a");
    var b, a := PushToMain("b", "d2"), PushToMain("a", "d1");
    Quiet(s1, 0);
    assert QueuedOn(s1.db.jobs, "r", "main") == {0};
    PushMovesAlone(s1, 0, b, 0);
    var s2 := After(s1, PushEvents(0, b, 0, 0)).value;
    assert s2.db.jobs == map[0 := NewRow(a, 0).(sha := "b")];
    Chained(init, first, s1, PushEvents(0, b, 0, 0), s2);
    Quiet(s2, 0);
    assert QueuedOn(s2.db.jobs, "r", "main") == {0};
    PushMovesAlone(s2, 0, a, 0);
    var s3 := After(s2, PushEvents(0, a, 0, 0)).value;
    Chained(init, first + PushEvents(0, b, 0, 0), s2, PushEvents(0, a, 0, 0), s3);
    es := first + PushEvents(0, b, 0, 0) + PushEvents(0, a, 0, 0);
    ss := AfterIsRun(cfg, 0, es);
  }

  // ----- the unguarded failure write -----

  lemma FailAlone(s: State, t: TxId, p: PollerId)
    requires s.txs == map[] && p in s.world.held && s.world.held[p] in s.db.jobs
    ensures var j := s.world.held[p];
      After(s, [BeginFail(t, p), Stmt(t, 0), Commit(t, false, 0)])
      == Some(s.(db := Db(s.db.jobs[j := SetStatus(s.db.jobs[j], Failed, Some(REPO_NOT_FOUND), s.now)], s.db.snaps),
                 world := Released(s.world, p)))
  {
    var j := s.world.held[p];
    var s1 := s.(world := Released(s.world, p));
    var tx0 := NewTx(s.now, FailLock(j));
    var tx1 := Touch(tx0, j, SetStatus(s.db.jobs[j], Failed, Some(REPO_NOT_FOUND), s.now), FailCommit(j));
    AfterOne(s, BeginFail(t, p));
    assert Next(s, BeginFail(t, p)) == Some(Put(s1, t, tx0));
    assert Next(Put(s1, t, tx0), Stmt(t, 0)) == Some(Put(s1, t, tx1)) by {
      OthersSame(s1, t, tx0);
      PutPut(s1, t, tx0, tx1);
    }
    Extend(s, [BeginFail(t, p)], Put(s1, t, tx0), Stmt(t, 0), Put(s1, t, tx1));
    CommitPut(s1, t, tx1, false);
    Extend(s, [BeginFail(t, p)] + [Stmt(t, 0)], Put(s1, t, tx1), Commit(t, false, 0), s1.(db := Publish(s1.db, tx1)));
    assert s.db.jobs + tx1.writes == s.db.jobs[j := SetStatus(s.db.jobs[j], Failed, Some(REPO_NOT_FOUND), s.now)];
    assert [BeginFail(t, p), Stmt(t, 0), Commit(t, false, 0)] == [BeginFail(t, p)] + [Stmt(t, 0)] + [Commit(t, false, 0)];
  }

  /** In the poll deployment a terminal row is not frozen: the watchdog's message is overwritten. */
  lemma TimeoutMessageOverwritten(cfg: Config) returns (ss: seq<State>, es: seq<Event>, n: nat)
    requires cfg.mode == Poll
    ensures Run(ss, es) && n < |es|
    ensures 0 in ss[n].db.jobs && ss[n].db.jobs[0].status == Failed && ss[n].db.jobs[0].error == Some(TIMED_OUT)
    ensures 0 in ss[|es|].db.jobs && ss[|es|].db.jobs[0].error == Some(REPO_NOT_FOUND)
  {
    var init := Init(cfg, 0);
    var first := FirstPush(cfg, "a");
    var s1 := OneJob(cfg, "a");
    Quiet(s1, 0);
    var claim := [Begin(0, ClaimSelect), Stmt(0, 0), Commit(0, true, 7)];
    assert Claimable(s1, 0) == {0};
    ClaimAlone(s1, 0, 7, 0);
    var s2 := After(s1, claim).value;
    Chained(init, first, s1, claim, s2);
    var s3 := s2.(now := s2.now + 21 * MINUTE);
    Extend(init, first + claim, s2, Tick(21 * MINUTE), s3);
    Quiet(s3, 0);
    var sweep := SweepAlone(s3, 0);
    var s4 := After(s3, sweep).value;
    var head := first + claim + [Tick(21 * MINUTE)];
    Chained(init, head, s3, sweep, s4);
    assert Overdue(s3.db.jobs[0], s3.now);
    FailAlone(s4, 0, 7);
    var fail := [BeginFail(0, 7), Stmt(0, 0), Commit(0, false, 0)];
    var s5 := After(s4, fail).value;
    Chained(init, head + sweep, s4, fail, s5);
    es := head + sweep + fail;
    n := |head + sweep|;
    ss := AfterIsRun(cfg, 0, es);
    PrefixState(cfg, head + sweep, fail, ss);
  }

  /** The state of a run after a prefix of its events. */
  lemma {:induction false} PrefixState(cfg: Config, es: seq<Event>, fs: seq<Event>, ss: seq<State>)
    requires Run(ss, es + fs) && ss[0] == Init(cfg, 0) && After(Init(cfg, 0), es).Some?
    ensures ss[|es|] == After(Init(cfg, 0), es).value
  {
    PrefixFrom(Init(cfg, 0), es, fs, ss);
  }

  lemma {:induction false} PrefixFrom(s: State, es: seq<Event>, fs: seq<Event>, ss: seq<State>)
    requires |ss| == |es| + |fs| + 1 && ss[0] == s && After(s, es).Some?
    requires forall i :: 0 <= i < |es + fs| ==> Step(ss[i], (es + fs)[i], ss[i + 1])
    ensures ss[|es|] == After(s, es).value
    decreases |es|
  {
    if es == [] {
    } else {
      assert (es + fs)[0] == es[0] && Step(ss[0], (es + fs)[0], ss[0 + 1]);
      var rest := ss[1..];
      assert (es + fs)[1..] == es[1..] + fs;
      forall i | 0 <= i < |es[1..] + fs|
        ensures Step(rest[i], (es[1..] + fs)[i], rest[i + 1])
      {
        assert Step(ss[i + 1], (es + fs)[i + 1], ss[i + 1 + 1]);
      }
      PrefixFrom(ss[1], es[1..], fs, rest);
    }
  }
}
