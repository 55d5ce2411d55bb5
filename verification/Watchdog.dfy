/** The watchdog: what one sweep does, and how long a job can stay running when sweeps come regularly. */
module Watchdog {
  import opened Rows
  import opened Protocol
  import opened Invariant
  import opened Atomic
  import opened Database
  import Guarantees

  datatype TimeoutResult = InternalError | TimedOut(count: nat)

  class WatchdogHandler {
    const db: Store

    constructor (db: Store)
      ensures this.db == db
    {
      this.db := db;
    }

    method Timeout(queryOk: bool) returns (r: TimeoutResult)
      modifies db`jobs
      ensures !queryOk ==> r == InternalError && db.jobs == old(db.jobs)
      ensures queryOk ==> db.jobs == Swept(old(db.jobs), db.clock)
      ensures queryOk ==> db.jobs.Keys == old(db.jobs).Keys && forall j :: j in old(db.jobs) ==>
        var row := old(db.jobs)[j];
        db.jobs[j] == if row.status == Running && row.startedAt.Some? && db.clock - row.startedAt.value > 20 * MINUTE
                      then row.(status := Failed, error := Some("Job timed out"), finishedAt := Some(db.clock)) else row
      ensures queryOk ==> r == TimedOut(|set j | j in old(db.jobs) && Overdue(old(db.jobs)[j], db.clock)|)
      ensures queryOk ==> r == TimedOut(|set j | j in old(db.jobs) && db.jobs[j] != old(db.jobs)[j]|)
    {
      if !queryOk {
        return InternalError;
      }
      var affected := db.TimeoutRunningJobs();
      return TimedOut(affected);
    }
  }

  /** A sweep fails exactly the jobs that have been running for more than twenty minutes, keeps every other
      row, and leaves nothing for a second sweep at the same instant. */
  lemma SweepFailsExactlyTheOverdue(jobs: map<JobId, Job>, now: Time, j: JobId)
    requires j in jobs && RowOk(jobs[j])
    ensures var jobs' := Swept(jobs, now);
      && jobs'.Keys == jobs.Keys
      && (jobs'[j] != jobs[j] <==> jobs[j].status == Running && now - jobs[j].startedAt.value > 20 * MINUTE)
      && (jobs'[j] != jobs[j] ==>
            jobs'[j] == jobs[j].(status := Failed, error := Some("Job timed out"), finishedAt := Some(now)))
      && RowOk(jobs'[j]) && Evolves(jobs[j], jobs'[j])
      && Swept(jobs', now) == jobs'
  {
    var jobs' := Swept(jobs, now);
    assert forall k :: k in jobs' ==> !Overdue(jobs'[k], now);
    assert Swept(jobs', now) == jobs';
  }

  // ----- handler-atomic runs with a clock -----

  /** `lastSweep` is when the watchdog last ran. */
  datatype Clocked = Clocked(db: Db, now: Time, lastSweep: Time)

  datatype Action =
    | Wait(duration: Time)
    | HandlePush(push: Push, outcome: PushResult)
    | StartCallback(job: JobId)
    | CompleteCallback(job: JobId, completion: Completion, snap: SnapId)
    | Claim(claimed: Option<JobId>)
    | FailClaimed(job: JobId)
    | Sweep

  /** One handler, or time passing; sweeps are never more than `period` apart. */
  predicate ClockedStep(s: Clocked, a: Action, s': Clocked, period: Time) {
    match a
    case Wait(d) => d >= 0 && s.now + d <= s.lastSweep + period && s' == s.(now := s.now + d)
    case HandlePush(p, r) => Pushes(s.db.jobs, p, s.now, s'.db.jobs, r) && s' == s.(db := Db(s'.db.jobs, s.db.snaps))
    case StartCallback(j) => s' == s.(db := Db(StartJobs(s.db.jobs, j, s.now), s.db.snaps))
    case CompleteCallback(j, c, id) => id !in s.db.snaps && s' == s.(db := CompleteDb(s.db, j, c, id, s.now))
    case Claim(r) => Claims(s.db.jobs, s.now, s'.db.jobs, r) && s' == s.(db := Db(s'.db.jobs, s.db.snaps))
    case FailClaimed(j) =>
      && j in s.db.jobs
      && s' == s.(db := Db(s.db.jobs[j := SetStatus(s.db.jobs[j], Failed, Some(REPO_NOT_FOUND), s.now)], s.db.snaps))
    case Sweep => s' == s.(db := Db(Swept(s.db.jobs, s.now), s.db.snaps), lastSweep := s.now)
  }

  predicate ClockedRun(ss: seq<Clocked>, acts: seq<Action>, period: Time) {
    && |ss| == |acts| + 1
    && ss[0] == Clocked(Db(map[], map[]), ss[0].now, ss[0].now)
    && forall i :: 0 <= i < |acts| ==> ClockedStep(ss[i], acts[i], ss[i + 1], period)
  }

  /** Every running job was started at or after the last sweep's threshold. */
  predicate Watched(s: Clocked, period: Time) {
    && s.lastSweep <= s.now <= s.lastSweep + period
    && forall j :: j in s.db.jobs && s.db.jobs[j].status == Running ==>
         && s.db.jobs[j].startedAt.Some?
         && s.lastSweep - TIMEOUT_MINUTES * MINUTE <= s.db.jobs[j].startedAt.value <= s.now
  }

  lemma StaysWatched(s: Clocked, a: Action, s': Clocked, period: Time)
    requires Watched(s, period) && ClockedStep(s, a, s', period) && period >= 0
    ensures Watched(s', period)
  {
  }

  lemma {:induction false} RunWatched(ss: seq<Clocked>, acts: seq<Action>, period: Time, n: nat)
    requires ClockedRun(ss, acts, period) && n < |ss| && period >= 0
    ensures Watched(ss[n], period)
  {
    if n == 0 {
    } else {
      RunWatched(ss, acts, period, n - 1);
      assert ClockedStep(ss[n - 1], acts[n - 1], ss[n - 1 + 1], period);
      StaysWatched(ss[n - 1], acts[n - 1], ss[n], period);
    }
  }

  /** With sweeps at most `period` apart no job is ever running for more than twenty minutes plus `period`. */
  lemma RunningTimeBound(ss: seq<Clocked>, acts: seq<Action>, period: Time, n: nat, j: JobId)
    requires ClockedRun(ss, acts, period) && n < |ss| && period >= 0
    requires j in ss[n].db.jobs && ss[n].db.jobs[j].status == Running
    ensures ss[n].db.jobs[j].startedAt.Some?
    ensures ss[n].now - ss[n].db.jobs[j].startedAt.value <= TIMEOUT_MINUTES * MINUTE + period
  {
    RunWatched(ss, acts, period, n);
  }

  // ----- the bound is attained for every period -----

  ghost predicate Reachable(s: Clocked, period: Time) {
    exists ss, acts :: ClockedRun(ss, acts, period) && ss[|acts|] == s
  }

  lemma ReachStep(s: Clocked, a: Action, s': Clocked, period: Time)
    requires Reachable(s, period) && ClockedStep(s, a, s', period)
    ensures Reachable(s', period)
  {
    var ss, acts :| ClockedRun(ss, acts, period) && ss[|acts|] == s;
    var ss', acts' := ss + [s'], acts + [a];
    forall i | 0 <= i < |acts'|
      ensures ClockedStep(ss'[i], acts'[i], ss'[i + 1], period)
    {
      if i < |acts| {
        assert ClockedStep(ss[i], acts[i], ss[i + 1], period);
      }
    }
    assert ClockedRun(ss', acts', period);
  }

  /** As long as nothing becomes overdue, sweeps in steps of at most `period` reach any later instant. */
  lemma {:induction false} SweepsUntil(s: Clocked, wait: nat, period: Time)
    requires Reachable(s, period) && period > 0 && s.lastSweep == s.now
    requires forall j :: j in s.db.jobs ==> !Overdue(s.db.jobs[j], s.now + wait)
    ensures Reachable(s.(now := s.now + wait, lastSweep := s.now + wait), period)
    decreases wait
  {
    if wait == 0 {
    } else {
      var d := if wait < period then wait else period;
      var waited := s.(now := s.now + d);
      ReachStep(s, Wait(d), waited, period);
      assert forall j :: j in s.db.jobs ==> !Overdue(s.db.jobs[j], waited.now);
      assert Swept(s.db.jobs, waited.now) == s.db.jobs;
      ReachStep(waited, Sweep, waited.(lastSweep := waited.now), period);
      SweepsUntil(waited.(lastSweep := waited.now), wait - d, period);
    }
  }

  /** For every positive period some job does run for exactly twenty minutes plus the period. */
  lemma RunningTimeBoundAttained(period: Time)
    requires period > 0
    ensures exists s: Clocked, j ::
      && Reachable(s, period) && j in s.db.jobs && s.db.jobs[j].status == Running && s.db.jobs[j].startedAt.Some?
      && s.now - s.db.jobs[j].startedAt.value == TIMEOUT_MINUTES * MINUTE + period
  {
    var p := Push("r", "main", "c", "");
    var s0 := Clocked(Db(map[], map[]), 0, 0);
    assert Reachable(s0, period) by {
      assert ClockedRun([s0], [], period);
    }
    var queued := map[0 := NewRow(p, 0)];
    assert QueuedOn(map[], "r", "main") == {};
    assert Pushes(map[], p, 0, queued, Made(0));
    var s1 := s0.(db := Db(queued, map[]));
    ReachStep(s0, HandlePush(p, Made(0)), s1, period);
    var running := StartJobs(queued, 0, 0);
    var s2 := s1.(db := Db(running, map[]));
    ReachStep(s1, StartCallback(0), s2, period);
    assert running[0].status == Running && running[0].startedAt == Some(0);
    SweepsUntil(s2, TIMEOUT_MINUTES * MINUTE, period);
    var s3 := s2.(now := TIMEOUT_MINUTES * MINUTE, lastSweep := TIMEOUT_MINUTES * MINUTE);
    var s4 := s3.(now := s3.now + period);
    ReachStep(s3, Wait(period), s4, period);
    assert Reachable(s4, period) && 0 in s4.db.jobs;
  }

  // ----- a sweep among interleaved statements -----

  /** Where a running sweep stands with job `j`: still to visit, marked to fail, or finished by someone else. */
  predicate Handled(s: State, t: TxId, j: JobId) {
    && t in s.txs && s.txs[t].prog.SweepRows? && j in s.db.jobs
    && (|| s.db.jobs[j].status.IsTerminal()
        || j in s.txs[t].prog.todo
        || (j in s.txs[t].writes && s.txs[t].writes[j].status == Failed))
    && s.db.jobs[j].status != Queued
    && s.db.jobs[j].startedAt.Some? && s.db.jobs[j].startedAt.value < s.txs[t].now - TIMEOUT_MINUTES * MINUTE
  }

  lemma OwnStatement(s: State, e: Event, s': State, t: TxId, j: JobId)
    requires Step(s, e, s') && Handled(s, t, j) && e.Stmt? && e.tx == t
    ensures Handled(s', t, j)
  {
    assert QueueStmt(s, t, e.id) == Some(s');
  }

  lemma OthersLeaveIt(s: State, e: Event, s': State, t: TxId)
    requires Step(s, e, s') && t in s.txs && t in s'.txs && !(e.Stmt? && e.tx == t)
    ensures s'.txs[t] == s.txs[t]
  {
  }

  lemma StaysHandled(s: State, e: Event, s': State, t: TxId, j: JobId)
    requires Step(s, e, s') && Advances(s, s') && Handled(s, t, j) && t in s'.txs
    ensures Handled(s', t, j)
  {
    if e.Stmt? && e.tx == t {
      OwnStatement(s, e, s', t, j);
    } else {
      OthersLeaveIt(s, e, s', t);
      assert Evolves(s.db.jobs[j], s'.db.jobs[j]);
    }
  }

  lemma HandledNext(ss: seq<State>, es: seq<Event>, n: nat, t: TxId, j: JobId)
    requires Run(ss, es) && n < |es| && Handled(ss[n], t, j) && t in ss[n + 1].txs
    ensures Handled(ss[n + 1], t, j)
  {
    Guarantees.RunAdvances(ss, es, n);
    assert Step(ss[n], es[n], ss[n + 1]);
    StaysHandled(ss[n], es[n], ss[n + 1], t, j);
  }

  lemma {:induction false} HandledUntil(ss: seq<State>, es: seq<Event>, a: nat, b: nat, t: TxId, j: JobId)
    requires Run(ss, es) && a <= b < |ss| && Handled(ss[a], t, j)
    requires forall m :: a <= m <= b ==> t in ss[m].txs
    ensures Handled(ss[b], t, j)
    decreases b
  {
    if a == b {
    } else {
      HandledUntil(ss, es, a, b - 1, t, j);
      HandledNext(ss, es, b - 1, t, j);
    }
  }

  lemma ScanFinds(s: State, e: Event, s': State, t: TxId, j: JobId)
    requires Step(s, e, s') && e.Stmt? && e.tx == t && t in s.txs && s.txs[t].prog == SweepScan
    requires j in s.db.jobs && Overdue(s.db.jobs[j], s.txs[t].now)
    ensures Handled(s', t, j)
  {
    assert QueueStmt(s, t, e.id) == Some(s');
  }

  lemma CommitFinishes(db: Db, tx: Tx, j: JobId)
    requires j in tx.writes && tx.writes[j].status == Failed && tx.insert.None?
    ensures j in Publish(db, tx).jobs && Publish(db, tx).jobs[j].status == Failed
  {
  }

  lemma SweepInsertsNothing(ss: seq<State>, es: seq<Event>, n: nat, t: TxId)
    requires Run(ss, es) && n < |ss| && t in ss[n].txs && ss[n].txs[t].prog.SweepRows?
    ensures ss[n].txs[t].insert.None?
  {
    Guarantees.RunInv(ss, es, n);
    assert TxInv(ss[n].cfg, ss[n].db, ss[n].world, ss[n].txs[t]);
  }

  /** Whatever interleaves with it: a job that is running and overdue when a sweep scans (event `a`) is
      terminal once that sweep has committed (event `b`). */
  lemma SweepClearsOverdue(ss: seq<State>, es: seq<Event>, a: nat, b: nat, t: TxId, j: JobId)
    requires Run(ss, es) && a < b < |es|
    requires t in ss[a].txs && ss[a].txs[t].prog == SweepScan && es[a].Stmt? && es[a].tx == t
    requires forall m :: a < m <= b ==> t in ss[m].txs
    requires es[b].Commit? && es[b].tx == t
    requires j in ss[a].db.jobs && Overdue(ss[a].db.jobs[j], ss[a].txs[t].now)
    ensures j in ss[b + 1].db.jobs && ss[b + 1].db.jobs[j].status.IsTerminal()
  {
    assert Step(ss[a], es[a], ss[a + 1]) && Step(ss[b], es[b], ss[b + 1]);
    ScanFinds(ss[a], es[a], ss[a + 1], t, j);
    HandledUntil(ss, es, a + 1, b, t, j);
    if ss[b].db.jobs[j].status.IsTerminal() {
      Guarantees.RunLater(ss, es, b, b + 1);
    } else {
      SweepInsertsNothing(ss, es, b, t);
      CommitFinishes(ss[b].db, ss[b].txs[t], j);
      assert ss[b + 1].db == Publish(ss[b].db, ss[b].txs[t]);
    }
  }
}
