/** The poll loop inside the job protocol: every step of the poller is a piece of a protocol run with the same
    effect on the tables, and whatever the rest of the protocol does is a moment of the poll loop. */
module PollSteps {
  import opened Rows
  import opened PollLoop
  import P = Protocol
  import Guarantees
  import Sequential
  import Anomalies

  /** State `s` of the protocol, with no transaction open, is what poller `p` at `q` takes it for. */
  ghost predicate Shows(q: Poll, s: P.State, p: P.PollerId, c: Setup) {
    && s.cfg.mode == P.Mode.Poll && s.txs == map[] && s.now == c.now && s.db.jobs == q.jobs
    && (forall j :: j in q.dispatched ==> j in s.world.dispatched)
    && (q.point.Owned? <==> p in s.world.held)
    && (q.point.Owned? ==> s.world.held[p] == q.point.job)
  }

  lemma Unlocked(s: P.State, t: P.TxId)
    requires s.txs == map[]
    ensures Sequential.Claimable(s, t) == P.AllQueued(s.db.jobs)
  {
    Anomalies.Quiet(s, t);
    Sequential.NobodyLocks(s, t);
  }

  /** A claim whose answer never reaches the poller: the job is running, nobody holds it. */
  lemma LostClaimAlone(s: P.State, t: P.TxId, p: P.PollerId, j: JobId)
    requires s.txs == map[] && s.cfg.mode == P.Mode.Poll && P.Oldest(s.db.jobs, P.AllQueued(s.db.jobs), j)
    ensures Sequential.After(s, [P.Event.Begin(t, P.ClaimSelect), P.Event.Stmt(t, j), P.Event.Commit(t, false, p)])
            == Some(s.(db := P.Db(s.db.jobs[j := ClaimRow(s.db.jobs[j], s.now)], s.db.snaps)))
  {
    Unlocked(s, t);
    Sequential.ClaimSelects(s, t, j);
    var head := [P.Event.Begin(t, P.ClaimSelect), P.Event.Stmt(t, j)];
    var tx := P.Touch(P.NewTx(s.now, P.ClaimSelect), j, ClaimRow(s.db.jobs[j], s.now), P.ClaimCommit(j));
    assert s.db.jobs + tx.writes == s.db.jobs[j := ClaimRow(s.db.jobs[j], s.now)];
    Sequential.Ends(s, t, head, tx, false, p, P.Db(s.db.jobs[j := ClaimRow(s.db.jobs[j], s.now)], s.db.snaps), s.world);
    assert [P.Event.Begin(t, P.ClaimSelect), P.Event.Stmt(t, j), P.Event.Commit(t, false, p)] == head + [P.Event.Commit(t, false, p)];
  }

  /** The failure write of the poll loop is the one of the protocol, and a failure write that could not be sent
      leaves every row alone. */
  lemma FailIsProtocol(q: Poll, j: JobId, written: bool, q': Poll, s: P.State, p: P.PollerId, t: P.TxId, c: Setup)
    returns (es: seq<P.Event>, s': P.State)
    requires PollInv(q, c) && Shows(q, s, p, c) && Next(q, Fail(j, written), c) == Some(q')
    ensures es == if written then [P.Event.BeginFail(t, p), P.Event.Stmt(t, 0), P.Event.Commit(t, false, 0)] else [P.Event.Drop(p)]
    ensures Sequential.After(s, es) == Some(s') && Shows(q', s', p, c) && s'.db.snaps == s.db.snaps
    ensures !written ==> s'.db == s.db
    ensures written ==>
      j in s.db.jobs
      && s'.db.jobs == s.db.jobs[j := s.db.jobs[j].(status := Failed, error := Some(REPO_NOT_FOUND), finishedAt := Some(s.now))]
  {
    if written {
      Anomalies.FailAlone(s, t, p);
      es := [P.Event.BeginFail(t, p), P.Event.Stmt(t, 0), P.Event.Commit(t, false, 0)];
    } else {
      Sequential.AfterOne(s, P.Event.Drop(p));
      es := [P.Event.Drop(p)];
    }
    s' := Sequential.After(s, es).value;
  }

  /** Every step of the poller itself is a piece of a protocol run, and both arrive at the same tables. */
  lemma StepIsProtocol(q: Poll, e: Event, q': Poll, s: P.State, p: P.PollerId, t: P.TxId, c: Setup)
    returns (es: seq<P.Event>, s': P.State)
    requires PollInv(q, c) && Shows(q, s, p, c) && Next(q, e, c) == Some(q') && !e.Others?
    ensures Sequential.After(s, es) == Some(s') && Shows(q', s', p, c) && s'.db.snaps == s.db.snaps
  {
    es, s' := [], s;
    match e
    case Claim(j) =>
      Unlocked(s, t);
      Sequential.ClaimAlone(s, t, p, j);
      es := [P.Event.Begin(t, P.ClaimSelect), P.Event.Stmt(t, j), P.Event.Commit(t, true, p)];
      s' := Sequential.After(s, es).value;
    case Lost(taken) =>
      if taken.Some? {
        LostClaimAlone(s, t, p, taken.value);
        es := [P.Event.Begin(t, P.ClaimSelect), P.Event.Stmt(t, taken.value), P.Event.Commit(t, false, p)];
        s' := Sequential.After(s, es).value;
      }
    case Empty =>
      Unlocked(s, t);
      Sequential.EmptyClaimAlone(s, t);
      es := [P.Event.Begin(t, P.ClaimSelect), P.Event.Stmt(t, 0)];
    case Fail(j, written) =>
      es, s' := FailIsProtocol(q, j, written, q', s, p, t, c);
    case Dispatch(j) =>
      es := [P.Event.Dispatch(p)];
      Sequential.AfterOne(s, P.Event.Dispatch(p));
      s' := Sequential.After(s, es).value;
    case _ =>
  }

  /** Whatever happens in the protocol without poller `p` is a moment of its poll loop. */
  lemma RunIsMoment(ss: seq<P.State>, es: seq<P.Event>, i: nat, k: nat, q: Poll, p: P.PollerId, m: Moment, c: Setup)
    requires P.Run(ss, es) && i <= k < |ss| && Shows(q, ss[i], p, c)
    requires ss[k].txs == map[] && ss[k].now == c.now
    requires p in ss[k].world.held <==> p in ss[i].world.held
    requires p in ss[k].world.held ==> ss[k].world.held[p] == ss[i].world.held[p]
    requires m.tables == ss[k].db.jobs
    ensures Shows(AfterOthers(q, m), ss[k], p, c) && Next(q, Others(m), c) == Some(AfterOthers(q, m))
  {
    Guarantees.RunLater(ss, es, i, k);
  }
}
