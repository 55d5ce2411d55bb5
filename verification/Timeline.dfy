/** Rows along a run, field by field: what each commit writes, when, and what follows for the twenty minutes
    of the watchdog. Nothing here is stated through the functions the statements use to build their rows. */
module Timeline {
  import opened Rows
  import opened Protocol
  import opened Invariant
  import CommitProof
  import Guarantees
  import Watchdog

  /** A row at the instant its transaction says. */
  function Started(row: Job, now: Time): Job {
    row.(status := Running, startedAt := Some(now))
  }

  function Ended(row: Job, status: Status, error: Option<string>, now: Time): Job {
    row.(status := status, error := error, finishedAt := Some(now))
  }

  predicate LongRunning(row: Job, now: Time) {
    row.status == Running && row.startedAt.Some? && now - row.startedAt.value > 20 * MINUTE
  }

  /** What the commit of a transaction at `prog`, begun at `now`, makes of the row of job `j`. */
  predicate RowChange(j: JobId, row: Job, row': Job, prog: Prog, now: Time) {
    match prog
    case PushCommit(p, o) => if o == Updated(j) then row.status == Queued && row' == row.(sha := p.sha) else row' == row
    case StartCommit(k, _) => row' == if k == j && row.status == Queued then Started(row, now) else row
    case ClaimCommit(k) => if k == j then row.status == Queued && row' == Started(row, now) else row' == row
    case DoneCommit(k, _, c) =>
      row' == if k != j || row.status.IsTerminal() then row
              else if c.Success? then Ended(row, Succeeded, None, now)
              else Ended(row, Failed, Some(c.message), now)
    case FailCommit(k) => row' == if k == j then Ended(row, Failed, Some("repo not found for job"), now) else row
    case SweepRows(_) => row' != row ==> LongRunning(row, now) && row' == Ended(row, Failed, Some("Job timed out"), now)
    case _ => row' == row
  }

  lemma CallbackRow(cfg: Config, db: Db, w: World, tx: Tx, j: JobId)
    requires RowsOk(db.jobs) && CallbackPoint(cfg, db, w, tx) && tx.insert.None? && j in db.jobs
    requires tx.prog.StartCommit? || tx.prog.DoneCommit?
    ensures j in Publish(db, tx).jobs && RowChange(j, db.jobs[j], Publish(db, tx).jobs[j], tx.prog, tx.now)
  {
    assert RowOk(db.jobs[j]);
  }

  lemma PublishedRow(cfg: Config, db: Db, w: World, tx: Tx, j: JobId)
    requires RowsOk(db.jobs) && TxInv(cfg, db, w, tx) && ReadyToCommit(tx.prog) && CommitProof.InsertLegal(db.jobs, tx)
    requires j in db.jobs
    ensures j in Publish(db, tx).jobs && RowChange(j, db.jobs[j], Publish(db, tx).jobs[j], tx.prog, tx.now)
  {
    if tx.prog.StartCommit? || tx.prog.DoneCommit? {
      CallbackRow(cfg, db, w, tx, j);
    } else {
      assert RowOk(db.jobs[j]);
    }
  }

  /** Every row that a step changes is changed by a commit, and in exactly the fields its statements name, with the
      start of that transaction as the time. */
  lemma RowsChange(ss: seq<State>, es: seq<Event>, n: nat, j: JobId)
    requires Run(ss, es) && n < |es| && j in ss[n].db.jobs
    ensures j in ss[n + 1].db.jobs
    ensures var row, row', e := ss[n].db.jobs[j], ss[n + 1].db.jobs[j], es[n];
      if e.Commit? then e.tx in ss[n].txs && RowChange(j, row, row', ss[n].txs[e.tx].prog, ss[n].txs[e.tx].now)
      else row' == row
  {
    Guarantees.RunStep(ss, es, n);
    var s, e := ss[n], es[n];
    if e.Commit? {
      var tx := s.txs[e.tx];
      assert TxInv(s.cfg, s.db, s.world, tx);
      CommitProof.LegalInsert(s.cfg, s.db, s.world, tx);
      PublishedRow(s.cfg, s.db, s.world, tx, j);
    } else {
      Guarantees.TablesOnlyAtCommit(s, e, ss[n + 1]);
    }
  }

  lemma InsertedRow(cfg: Config, db: Db, w: World, tx: Tx, j: JobId)
    requires TxInv(cfg, db, w, tx) && ReadyToCommit(tx.prog) && j in Publish(db, tx).jobs && j !in db.jobs
    ensures tx.prog.PushCommit? && tx.prog.outcome == Inserted(j)
    ensures var p := tx.prog.push;
      Publish(db, tx).jobs[j]
      == Job(p.repo, p.branch, p.sha, if p.delivery == "" then None else Some(p.delivery), Queued, None, tx.now, None, None)
  {
  }

  /** Every row that appears is the queued row of a committing push. */
  lemma RowsAppear(ss: seq<State>, es: seq<Event>, n: nat, j: JobId)
    requires Run(ss, es) && n < |es| && j !in ss[n].db.jobs && j in ss[n + 1].db.jobs
    ensures es[n].Commit? && es[n].tx in ss[n].txs
    ensures var tx := ss[n].txs[es[n].tx];
      && tx.prog.PushCommit? && tx.prog.outcome == Inserted(j)
      && var p := tx.prog.push;
      ss[n + 1].db.jobs[j]
      == Job(p.repo, p.branch, p.sha, if p.delivery == "" then None else Some(p.delivery), Queued, None, tx.now, None, None)
  {
    Guarantees.RunStep(ss, es, n);
    var s, e := ss[n], es[n];
    if e.Commit? {
      assert TxInv(s.cfg, s.db, s.world, s.txs[e.tx]);
      InsertedRow(s.cfg, s.db, s.world, s.txs[e.tx], j);
    } else {
      Guarantees.TablesOnlyAtCommit(s, e, ss[n + 1]);
    }
  }

  /** Event `m` takes job `j` out of the queue to running. */
  predicate Starts(ss: seq<State>, es: seq<Event>, m: nat, j: JobId) {
    && m < |es| && m + 1 < |ss| && es[m].Commit? && es[m].tx in ss[m].txs
    && j in ss[m].db.jobs && ss[m].db.jobs[j].status == Queued
    && j in ss[m + 1].db.jobs && ss[m + 1].db.jobs[j].status == Running
  }

  /** The start of the transaction that event `m` commits. */
  function BeganAt(ss: seq<State>, es: seq<Event>, m: nat): Time
    requires m < |es| && m < |ss| && es[m].Commit? && es[m].tx in ss[m].txs
  {
    ss[m].txs[es[m].tx].now
  }

  /** A job goes from queued to running only at the commit of a start or a claim of it, and its row then differs in
      the status and in `started_at`, which is the start of that transaction. */
  lemma StartedAtCommit(ss: seq<State>, es: seq<Event>, n: nat, j: JobId)
    requires Run(ss, es) && n < |es|
    requires j in ss[n].db.jobs && ss[n].db.jobs[j].status == Queued
    requires j in ss[n + 1].db.jobs && ss[n + 1].db.jobs[j].status == Running
    ensures Starts(ss, es, n, j)
    ensures var prog := ss[n].txs[es[n].tx].prog; (prog.StartCommit? && prog.job == j) || prog == ClaimCommit(j)
    ensures ss[n + 1].db.jobs[j] == ss[n].db.jobs[j].(status := Running, startedAt := Some(BeganAt(ss, es, n)))
  {
    RowsChange(ss, es, n, j);
  }

  lemma StaysRunning(ss: seq<State>, es: seq<Event>, n: nat, j: JobId)
    requires Run(ss, es) && n < |es| && j in ss[n + 1].db.jobs && ss[n + 1].db.jobs[j].status == Running
    ensures j in ss[n].db.jobs
    ensures ss[n].db.jobs[j].status == Queued
         || (ss[n].db.jobs[j].status == Running && ss[n + 1].db.jobs[j] == ss[n].db.jobs[j])
  {
    if j !in ss[n].db.jobs {
      RowsAppear(ss, es, n, j);
    } else {
      RowsChange(ss, es, n, j);
      if ss[n].db.jobs[j].status.IsTerminal() {
        TerminalStays(ss, es, n, j);
      }
    }
  }

  lemma TerminalStays(ss: seq<State>, es: seq<Event>, n: nat, j: JobId)
    requires Run(ss, es) && n < |es| && j in ss[n].db.jobs && ss[n].db.jobs[j].status.IsTerminal()
    ensures j in ss[n + 1].db.jobs && ss[n + 1].db.jobs[j].status == ss[n].db.jobs[j].status
  {
    Guarantees.RunAdvances(ss, es, n);
  }

  /** Behind every running job there is the commit that started it, and its `started_at` is the start of that
      transaction. */
  lemma {:induction false} RunningSince(ss: seq<State>, es: seq<Event>, n: nat, j: JobId) returns (m: nat)
    requires Run(ss, es) && n < |ss| && j in ss[n].db.jobs && ss[n].db.jobs[j].status == Running
    ensures m < n && Starts(ss, es, m, j)
    ensures ss[n].db.jobs[j].startedAt == Some(BeganAt(ss, es, m))
  {
    StaysRunning(ss, es, n - 1, j);
    if ss[n - 1].db.jobs[j].status == Queued {
      StartedAtCommit(ss, es, n - 1, j);
      m := n - 1;
    } else {
      m := RunningSince(ss, es, n - 1, j);
    }
  }

  /** The watchdog never fails a job early: more than twenty minutes lie between the start of the transaction that
      made the job running and the start of the sweep. */
  lemma TimedOutAfterTwentyMinutes(ss: seq<State>, es: seq<Event>, n: nat, j: JobId) returns (m: nat)
    requires Run(ss, es) && n < |es| && es[n].Commit? && es[n].tx in ss[n].txs && ss[n].txs[es[n].tx].prog.SweepRows?
    requires j in ss[n].db.jobs && j in ss[n + 1].db.jobs && ss[n + 1].db.jobs[j] != ss[n].db.jobs[j]
    ensures m < n && Starts(ss, es, m, j)
    ensures BeganAt(ss, es, n) - BeganAt(ss, es, m) > 20 * MINUTE
    ensures ss[n + 1].db.jobs[j].status == Failed && ss[n + 1].db.jobs[j].error == Some("Job timed out")
    ensures ss[n + 1].db.jobs[j].finishedAt == Some(BeganAt(ss, es, n))
  {
    RowsChange(ss, es, n, j);
    m := RunningSince(ss, es, n, j);
  }

  lemma SweepStep(s: State, e: Event, s': State, t: TxId)
    requires Step(s, e, s') && t in s.txs && t in s'.txs && (s.txs[t].prog == SweepScan || s.txs[t].prog.SweepRows?)
    ensures s'.txs[t].now == s.txs[t].now
    ensures s'.txs[t].prog.SweepRows? || (s'.txs[t] == s.txs[t] && !(e.Stmt? && e.tx == t))
  {
    if e.Stmt? && e.tx == t {
      assert QueueStmt(s, t, e.id) == Some(s');
    } else {
      Watchdog.OthersLeaveIt(s, e, s', t);
    }
  }

  /** From its scan on a sweep goes through rows, at one and the same time. */
  lemma {:induction false} Sweeping(ss: seq<State>, es: seq<Event>, a: nat, b: nat, t: TxId)
    requires Run(ss, es) && a < b < |ss| && forall m :: a <= m <= b ==> t in ss[m].txs
    requires ss[a].txs[t].prog == SweepScan && es[a].Stmt? && es[a].tx == t
    ensures ss[b].txs[t].now == ss[a].txs[t].now && ss[b].txs[t].prog.SweepRows?
    decreases b
  {
    if b > a + 1 {
      Sweeping(ss, es, a, b - 1, t);
    }
    assert Step(ss[b - 1], es[b - 1], ss[b - 1 + 1]);
    SweepStep(ss[b - 1], es[b - 1], ss[b], t);
  }

  /** A sweep that scans at event `a` and commits at event `b` fails a job that runs all the while exactly when more
      than twenty minutes lie between the start of the transaction that made it running and that of the sweep. */
  lemma SweepFailsIffTwentyMinutes(ss: seq<State>, es: seq<Event>, a: nat, b: nat, t: TxId, j: JobId) returns (m: nat)
    requires Run(ss, es) && a < b < |es|
    requires t in ss[a].txs && ss[a].txs[t].prog == SweepScan && es[a].Stmt? && es[a].tx == t
    requires forall i :: a < i <= b ==> t in ss[i].txs
    requires es[b].Commit? && es[b].tx == t
    requires j in ss[a].db.jobs && ss[a].db.jobs[j].status == Running
    requires j in ss[b].db.jobs && ss[b].db.jobs[j].status == Running
    ensures m < a && Starts(ss, es, m, j)
    ensures j in ss[b + 1].db.jobs
    ensures ss[b + 1].db.jobs[j].status == Failed <==> BeganAt(ss, es, b) - BeganAt(ss, es, m) > 20 * MINUTE
    ensures ss[b + 1].db.jobs[j].status == Failed || ss[b + 1].db.jobs[j] == ss[b].db.jobs[j]
  {
    m := RunningSince(ss, es, a, j);
    Guarantees.RunLater(ss, es, a, b);
    assert ss[b].db.jobs[j].startedAt == ss[a].db.jobs[j].startedAt;
    Sweeping(ss, es, a, b, t);
    RowsChange(ss, es, b, j);
    if BeganAt(ss, es, b) - BeganAt(ss, es, m) > 20 * MINUTE {
      assert Overdue(ss[a].db.jobs[j], ss[a].txs[t].now);
      Watchdog.SweepClearsOverdue(ss, es, a, b, t, j);
    }
  }
}
