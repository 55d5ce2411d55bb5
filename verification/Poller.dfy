/** The poller in the form of the source: every method is a piece of a trace of the poll loop. */
module Poller {
  import opened Rows
  import Protocol
  import opened Atomic
  import opened Database
  import opened Runner
  import opened PollLoop

  /** `Unclaimed` and `Mine` mean that the script was over before the claim statement, or right after it. */
  datatype ClaimOutcome = Unclaimed | ClaimError | NoJobs | Mine(job: JobId) | RepoMissing(job: JobId) | Dispatched(job: JobId)

  /** What settling job `j` does to the rows: only a written failure changes one, that of `j`, whatever has become
      of it since the claim. */
  predicate SettledAs(jobs: map<JobId, Job>, jobs': map<JobId, Job>, j: JobId, r: ClaimOutcome, statusOk: bool, now: Time) {
    if r.RepoMissing? && statusOk then
      j in jobs && jobs' == jobs[j := jobs[j].(status := Failed, error := Some(REPO_NOT_FOUND), finishedAt := Some(now))]
    else jobs' == jobs
  }

  /** The row of a claimed job when the claim is over: it has left the queue with the start time of the claim, and if
      its failure was written it is failed, with the message and finished at that moment. */
  predicate LeftAs(r: ClaimOutcome, jobs: map<JobId, Job>, statusOk: bool, now: Time)
    requires r.Mine? || r.RepoMissing? || r.Dispatched?
  {
    && r.job in jobs && jobs[r.job].status != Queued && jobs[r.job].startedAt == Some(now)
    && (r.RepoMissing? && statusOk ==>
          && jobs[r.job].status == Failed && jobs[r.job].error == Some("repo not found for job")
          && jobs[r.job].finishedAt == Some(now))
  }

  /** How a round of the claim loop ends: on to the next one, out of the batch, or the script is over. */
  datatype RoundEnd = GoOn | Stop | OutOfScript

  class JobPoller {
    const db: Store
    const pool: Pool
    const maxConcurrency: nat
    const script: seq<Moment> // what everyone else does, moment by moment
    var pos: nat
    var cancelled: bool // ctx.Err() != nil
    ghost var dispatched: seq<JobId>

    constructor (db: Store, pool: Pool, maxConcurrency: nat, script: seq<Moment>)
      ensures this.db == db && this.pool == pool && this.maxConcurrency == maxConcurrency && this.script == script
      ensures pos == 0 && !cancelled && dispatched == []
      ensures pool.Valid() && pool.gs == map[] && pool.peak <= maxConcurrency ==> Valid()
    {
      this.db, this.pool, this.maxConcurrency, this.script := db, pool, maxConcurrency, script;
      pos, cancelled, dispatched := 0, false, [];
      assert pool.gs == map[] ==> Counted(pool.gs) == {};
    }

    ghost function View(p: Point): Poll
      reads this, pool, db
    {
      Poll(db.jobs, pool.gs, pool.inflight, dispatched, cancelled, p)
    }

    ghost function Settings(): Setup
      reads this, db
    {
      Setup(maxConcurrency, db.clock)
    }

    ghost predicate Sound()
      reads this, pool
    {
      pool.Valid() && pool.peak <= maxConcurrency && pos <= |script|
    }

    ghost predicate Valid()
      reads this, pool, db
    {
      Sound() && PollInv(View(Select), Settings())
    }

    /** The trace `es` has come from a proper state `start` to where the poller is now, through the script since
        `from`. */
    ghost predicate At(start: Poll, es: seq<Event>, p: Point, from: nat)
      reads this, pool, db
    {
      && from <= pos <= |script| && PollInv(start, Settings())
      && Follow(start, es, Settings()) == Some(View(p)) && Moments(es) == script[from..pos]
    }

    /** Hence the poller is in a proper state too. */
    lemma Here(start: Poll, es: seq<Event>, p: Point, from: nat)
      requires At(start, es, p, from)
      ensures PollInv(View(p), Settings()) && PollInv(View(Select), Settings())
      ensures |dispatched| == pool.inflight + |Ended(pool.gs)|
    {
      FollowKeeps(start, es, View(p), Settings());
      InvAtSelect(View(p), Settings());
      Accounted(View(Select), Settings());
    }

    /** Of which this is what the callers of a claim need. */
    lemma Balanced(start: Poll, es: seq<Event>, p: Point, from: nat)
      requires At(start, es, p, from)
      ensures |dispatched| == pool.inflight + |Ended(pool.gs)|
    {
      Here(start, es, p, from);
    }

    /** A step of the poller itself, from the state `s`, goes on the trace. */
    lemma Onward(start: Poll, es: seq<Event>, s: Poll, e: Event, q: Point, from: nat) returns (fs: seq<Event>)
      requires from <= pos <= |script| && PollInv(start, Settings())
      requires Follow(start, es, Settings()) == Some(s) && Moments(es) == script[from..pos]
      requires Next(s, e, Settings()) == Some(View(q)) && !e.Others?
      ensures At(start, fs, q, from) && fs == es + [e]
    {
      fs := Longer(start, es, s, e, View(q), Settings());
    }

    /** Goroutines, other actors and the context, for one moment. */
    method LetOthersRun(m: Moment)
      requires Sound()
      modifies this`cancelled, pool, db`jobs
      ensures Sound() && View(Select) == AfterOthers(old(View(Select)), m)
    {
      pool.Schedule(m.steps);
      if MovesOn(db.jobs, m.tables) {
        db.jobs := m.tables;
      }
      cancelled := cancelled || m.cancel;
    }

    /** Everyone else gets a moment. */
    method Pause(ghost start: Poll, ghost es: seq<Event>, ghost p: Point, ghost from: nat)
      returns (m: Moment, ghost fs: seq<Event>)
      requires Sound() && pos < |script| && At(start, es, p, from)
      modifies this`pos, this`cancelled, pool, db`jobs
      ensures Sound() && pos == old(pos) + 1 && m == script[old(pos)]
      ensures db.jobs == OthersJobs(old(db.jobs), m)
      ensures At(start, fs, p, from)
    {
      ghost var s := View(p);
      m := script[pos];
      LetOthersRun(m);
      assert View(p) == AfterOthers(s, m);
      assert script[from..pos + 1] == script[from..pos] + [m];
      pos := pos + 1;
      fs := Longer(start, es, s, Others(m), View(p), Settings());
    }

    /** The claim statement, once everyone else has had a moment. */
    method Claim(ghost start: Poll, ghost es: seq<Event>, ghost left: nat, ghost from: nat)
      returns (r: ClaimOutcome, ghost fs: seq<Event>, ghost at: Point)
      requires Sound() && pos < |script| && At(start, es, Claiming(left), from)
      modifies this`pos, this`cancelled, pool, db`jobs
      ensures Sound() && At(start, fs, at, from) && pos == old(pos) + 1
      ensures at == if r.Mine? then Owned(left, r.job) else Select
      ensures r.Mine? || r == NoJobs || r == ClaimError
      ensures r == ClaimError <==> script[old(pos)].claim != Arrives
      ensures r == NoJobs ==> Protocol.AllQueued(db.jobs) == {}
      ensures |dispatched| == pool.inflight + |Ended(pool.gs)|
    {
      var m, es1 := Pause(start, es, Claiming(left), from);
      r, fs, at := ClaimNow(m.claim, start, es1, left, from);
      Balanced(start, fs, at, from);
    }

    method ClaimNow(net: Net, ghost start: Poll, ghost es: seq<Event>, ghost left: nat, ghost from: nat)
      returns (r: ClaimOutcome, ghost fs: seq<Event>, ghost at: Point)
      requires Sound() && At(start, es, Claiming(left), from)
      modifies db`jobs
      ensures Sound() && At(start, fs, at, from)
      ensures at == if r.Mine? then Owned(left, r.job) else Select
      ensures r.Mine? || r == NoJobs || r == ClaimError
      ensures r == ClaimError <==> net != Arrives
      ensures r == NoJobs ==> Protocol.AllQueued(db.jobs) == {}
      ensures r == NoJobs || net == RequestLost ==> db.jobs == old(db.jobs)
      ensures r.Mine? ==>
        && Protocol.Oldest(old(db.jobs), Protocol.AllQueued(old(db.jobs)), r.job)
        && db.jobs == old(db.jobs)[r.job := old(db.jobs)[r.job].(status := Status.Running, startedAt := Some(db.clock))]
    {
      ghost var s := View(Claiming(left));
      if net == RequestLost {
        fs := Onward(start, es, s, Lost(None), Select, from);
        return ClaimError, fs, Select;
      }
      var claimed := db.ClaimJob();
      if net == AnswerLost {
        fs := Onward(start, es, s, Lost(claimed), Select, from);
        return ClaimError, fs, Select;
      }
      if claimed.None? {
        fs := Onward(start, es, s, Empty, Select, from);
        return NoJobs, fs, Select;
      }
      fs := Onward(start, es, s, Event.Claim(claimed.value), Owned(left, claimed.value), from);
      return Mine(claimed.value), fs, Owned(left, claimed.value);
    }

    /** What follows the claim of job `j`, once everyone else has had a moment: the repository lookup, then the
        failure write or the dispatch. */
    method Settle(j: JobId, ghost start: Poll, ghost es: seq<Event>, ghost left: nat, ghost from: nat)
      returns (r: ClaimOutcome, ghost fs: seq<Event>)
      requires Sound() && pos < |script| && At(start, es, Owned(left, j), from)
      modifies this`pos, this`cancelled, this`dispatched, pool, db`jobs
      ensures Sound() && At(start, fs, if r.Dispatched? then Guard(left) else Select, from) && pos == old(pos) + 1
      ensures r == if script[old(pos)].repoFound then Dispatched(j) else RepoMissing(j)
      ensures EndsIn(fs, if r.Dispatched? then Event.Dispatch(j) else Fail(j, script[old(pos)].statusOk))
      ensures dispatched == old(dispatched) + if r.Dispatched? then [j] else []
      ensures LeftAs(r, db.jobs, script[old(pos)].statusOk, db.clock)
      ensures |dispatched| == pool.inflight + |Ended(pool.gs)|
    {
      var m, es1 := Pause(start, es, Owned(left, j), from);
      r, fs := SettleNow(m, j, start, es1, left, from);
      Balanced(start, fs, if r.Dispatched? then Guard(left) else Select, from);
    }

    method SettleNow(m: Moment, j: JobId, ghost start: Poll, ghost es: seq<Event>, ghost left: nat, ghost from: nat)
      returns (r: ClaimOutcome, ghost fs: seq<Event>)
      requires Sound() && At(start, es, Owned(left, j), from)
      modifies this`dispatched, pool, db`jobs
      ensures Sound() && At(start, fs, if r.Dispatched? then Guard(left) else Select, from)
      ensures r == if m.repoFound then Dispatched(j) else RepoMissing(j)
      ensures EndsIn(fs, if r.Dispatched? then Event.Dispatch(j) else Fail(j, m.statusOk))
      ensures dispatched == old(dispatched) + if r.Dispatched? then [j] else []
      ensures SettledAs(old(db.jobs), db.jobs, j, r, m.statusOk, db.clock) && LeftAs(r, db.jobs, m.statusOk, db.clock)
    {
      Here(start, es, Owned(left, j), from);
      if m.repoFound {
        fs := Hand(j, start, es, left, from);
        return Dispatched(j), fs;
      }
      ghost var s := View(Owned(left, j));
      if m.statusOk {
        db.UpdateJobStatus(j, Failed, Some(REPO_NOT_FOUND));
      }
      fs := Onward(start, es, s, Fail(j, m.statusOk), Select, from);
      return RepoMissing(j), fs;
    }

    /** The dispatch into the pool. */
    method Hand(j: JobId, ghost start: Poll, ghost es: seq<Event>, ghost left: nat, ghost from: nat)
      returns (ghost fs: seq<Event>)
      requires Sound() && At(start, es, Owned(left, j), from)
      modifies this`dispatched, pool
      ensures Sound() && At(start, fs, Guard(left), from) && EndsIn(fs, Event.Dispatch(j))
      ensures dispatched == old(dispatched) + [j]
    {
      ghost var s := View(Owned(left, j));
      Here(start, es, Owned(left, j), from);
      GoroutineCount(pool.gs, |dispatched|);
      pool.GoWait(|pool.gs|);
      dispatched := dispatched + [j];
      fs := Onward(start, es, s, Event.Dispatch(j), Guard(left), from);
    }

    /** What follows the claim of job `j`, if the script goes on. */
    method Finish(j: JobId, ghost start: Poll, ghost es: seq<Event>, ghost left: nat, ghost from: nat)
      returns (r: ClaimOutcome, ghost fs: seq<Event>, ghost at: Point)
      requires Sound() && At(start, es, Owned(left, j), from) && pos > 0
      modifies this`pos, this`cancelled, this`dispatched, pool, db`jobs
      ensures Sound() && At(start, fs, at, from) && 0 < old(pos) <= pos
      ensures r == Mine(j) || r == RepoMissing(j) || r == Dispatched(j)
      ensures r.Mine? ==> pos == |script|
      ensures LeftAs(r, db.jobs, script[pos - 1].statusOk, db.clock)
      ensures r.RepoMissing? ==> at == Select && !script[pos - 1].repoFound && EndsIn(fs, Fail(j, script[pos - 1].statusOk))
      ensures r.Dispatched? ==> at == Guard(left) && script[pos - 1].repoFound && EndsIn(fs, Event.Dispatch(j))
      ensures dispatched == old(dispatched) + if r.Dispatched? then [j] else []
      ensures |dispatched| == pool.inflight + |Ended(pool.gs)|
    {
      if pos == |script| {
        Here(start, es, Owned(left, j), from);
        return Mine(j), es, Owned(left, j);
      }
      r, fs := Settle(j, start, es, left, from);
      at := if r.Dispatched? then Guard(left) else Select;
    }

    /** One claim past its cancellation check. Everyone else acts before the claim, and again between the claim
        and what follows it. A claimed job keeps the start time of the claim, and if the repository is missing and
        the failure write succeeds, its row says so. */
    method ClaimOne(ghost start: Poll, ghost es: seq<Event>, ghost left: nat, ghost from: nat)
      returns (r: ClaimOutcome, ghost fs: seq<Event>, ghost at: Point)
      requires Sound() && At(start, es, Claiming(left), from)
      modifies this`pos, this`cancelled, this`dispatched, pool, db`jobs
      ensures Sound() && At(start, fs, at, from) && old(pos) <= pos
      ensures r == Unclaimed <==> old(pos) == |script|
      ensures r != Unclaimed ==> pos > old(pos)
      ensures r == ClaimError <==> old(pos) < |script| && script[old(pos)].claim != Arrives
      ensures r == ClaimError || r == NoJobs ==> pos == old(pos) + 1 && at == Select
      ensures r == NoJobs ==> Protocol.AllQueued(db.jobs) == {}
      ensures r == Unclaimed || r.Mine? ==> pos == |script|
      ensures r.Mine? || r.RepoMissing? || r.Dispatched? ==>
        pos > 0 && LeftAs(r, db.jobs, script[pos - 1].statusOk, db.clock)
      ensures r.RepoMissing? ==> at == Select && !script[pos - 1].repoFound && EndsIn(fs, Fail(r.job, script[pos - 1].statusOk))
      ensures r.Dispatched? ==> at == Guard(left) && script[pos - 1].repoFound && EndsIn(fs, Event.Dispatch(r.job))
      ensures dispatched == old(dispatched) + if r.Dispatched? then [r.job] else []
      ensures |dispatched| == pool.inflight + |Ended(pool.gs)|
    {
      if pos == |script| {
        Balanced(start, es, Claiming(left), from);
        return Unclaimed, es, Claiming(left);
      }
      r, fs, at := Claim(start, es, left, from);
      if r.Mine? {
        r, fs, at := Finish(r.job, start, fs, left, from);
      }
    }

    /** The check before a claim. */
    method CheckContext(ghost start: Poll, ghost es: seq<Event>, ghost left: nat, ghost from: nat)
      returns (o: RoundEnd, ghost fs: seq<Event>, ghost at: Point)
      requires Sound() && At(start, es, Guard(left + 1), from)
      modifies this`pos, this`cancelled, pool, db`jobs
      ensures Sound() && At(start, fs, at, from) && old(pos) <= pos
      ensures o == GoOn ==> at == Claiming(left)
      ensures o == Stop ==> at == Select && cancelled
      ensures o == OutOfScript ==> pos == |script|
    {
      if pos == |script| {
        return OutOfScript, es, Guard(left + 1);
      }
      var early, es1 := Pause(start, es, Guard(left + 1), from);
      if cancelled {
        fs := Onward(start, es1, View(Guard(left + 1)), EndBatch, Select, from);
        return Stop, fs, Select;
      }
      fs := Onward(start, es1, View(Guard(left + 1)), Pass, Claiming(left), from);
      return GoOn, fs, Claiming(left);
    }

    /** One round of the claim loop: the cancellation check, then a claim. */
    method Round(ghost start: Poll, ghost es: seq<Event>, ghost left: nat, ghost from: nat)
      returns (o: RoundEnd, ghost fs: seq<Event>, ghost at: Point)
      requires Sound() && At(start, es, Guard(left + 1), from)
      modifies this`pos, this`cancelled, this`dispatched, pool, db`jobs
      ensures Sound() && At(start, fs, at, from) && old(pos) <= pos
      ensures o == GoOn ==> at == Guard(left) && |dispatched| == |old(dispatched)| + 1
      ensures o != GoOn ==> dispatched == old(dispatched)
      ensures old(dispatched) <= dispatched
      ensures o == Stop ==> at == Select
      ensures o == Stop && !cancelled ==>
        pos > old(pos) && (script[pos - 1].claim != Arrives || !script[pos - 1].repoFound || Protocol.AllQueued(db.jobs) == {})
      ensures o == OutOfScript ==> pos == |script|
    {
      o, fs, at := CheckContext(start, es, left, from);
      if o != GoOn {
        return;
      }
      var r;
      r, fs, at := ClaimOne(start, fs, left, from);
      o := if r.Dispatched? then GoOn else if r == Unclaimed || r.Mine? then OutOfScript else Stop;
    }

    /** Claims up to the number of slots that were free at the start of the batch. It stops short of it only
        when the context is cancelled, the queue is empty, a claim fails or a repository is missing.
        `finished` is false when the script ran out on the way. */
    method PollBatch(ghost start: Poll, ghost es0: seq<Event>, ghost from: nat)
      returns (finished: bool, ghost es: seq<Event>, ghost at: Point)
      requires Sound() && At(start, es0, Select, from)
      modifies this`pos, this`cancelled, this`dispatched, pool, db`jobs
      ensures Sound() && At(start, es, at, from) && old(pos) <= pos
      ensures finished ==> at == Select
      ensures !finished ==> pos == |script|
      ensures old(dispatched) <= dispatched
      ensures |dispatched| <= |old(dispatched)| + (maxConcurrency - old(pool.inflight))
      ensures (finished && !cancelled
               && forall i :: old(pos) <= i < pos ==> script[i].claim == Arrives && script[i].repoFound)
              ==> |dispatched| == |old(dispatched)| + (maxConcurrency - old(pool.inflight)) || Protocol.AllQueued(db.jobs) == {}
      ensures |dispatched| == pool.inflight + |Ended(pool.gs)|
    {
      Here(start, es0, Select, from);
      var inflight := pool.InFlight();
      var slots := maxConcurrency - inflight;
      var i := 0;
      at := Guard(slots);
      es := Onward(start, es0, View(Select), Event.Tick, at, from);
      while i < slots
        invariant 0 <= i <= slots && Sound()
        invariant at == Guard(slots - i) && At(start, es, at, from)
        invariant old(pos) <= pos && old(dispatched) <= dispatched && |dispatched| == |old(dispatched)| + i
      {
        var o;
        o, es, at := Round(start, es, slots - i - 1, from);
        if o != GoOn {
          Balanced(start, es, at, from);
          return o == Stop, es, at;
        }
        i := i + 1;
      }
      es := Onward(start, es, View(at), EndBatch, Select, from);
      Balanced(start, es, Select, from);
      return true, es, Select;
    }

    /** Polls until the done case is taken, then drains. The whole stop-and-go is one trace `es` of the poll loop
        from the state at the call to `stop`, driven by exactly the moments of the script it went through;
        draining dispatches and claims nothing, and a clean stop means every dispatched function has returned. */
    method Run() returns (r: DrainResult, ghost es: seq<Event>, ghost stop: Poll)
      requires Valid()
      modifies this`pos, this`cancelled, this`dispatched, pool, db`jobs
      ensures Valid() && old(pos) <= pos
      ensures Follow(old(View(Select)), es, Settings()) == Some(stop) && Moments(es) == script[old(pos)..pos]
      ensures r != Waiting ==> stop.point == Draining
      ensures stop.point != Draining ==> pos == |script| && stop == View(stop.point)
      ensures stop.point == Draining ==>
        && db.jobs == stop.jobs && dispatched == stop.dispatched && cancelled == stop.cancelled
        && Progressed(stop.gs, pool.gs)
      ensures r == Drained ==> |pool.gs| == |dispatched| && forall g :: g in pool.gs ==> pool.gs[g].HasReturned()
      ensures |dispatched| == pool.inflight + |Ended(pool.gs)|
    {
      ghost var start, from := View(Select), pos;
      es := [];
      while pos < |script|
        invariant Sound() && At(start, es, Select, from)
        decreases |script| - pos
      {
        var m, es1 := Pause(start, es, Select, from);
        if m.done && cancelled {
          stop := View(Draining);
          es := Onward(start, es1, View(Select), TakeDone, Draining, from);
          Here(start, es, Draining, from);
          r := DrainPool();
          return;
        }
        var finished;
        ghost var at;
        finished, es, at := PollBatch(start, es1, from);
        if !finished {
          Here(start, es, at, from);
          return Waiting, es, View(at);
        }
      }
      Here(start, es, Select, from);
      return Waiting, es, View(Select);
    }

    /** Shutdown: waits for the dispatched functions, with the rest of the script as schedule. */
    method DrainPool() returns (r: DrainResult)
      requires Valid()
      modifies pool
      ensures Valid() && Progressed(old(pool.gs), pool.gs)
      ensures r == Drained ==> |pool.gs| == |dispatched| && forall g :: g in pool.gs ==> pool.gs[g].HasReturned()
      ensures |dispatched| == pool.inflight + |Ended(pool.gs)|
    {
      ghost var s, setup := View(Select), Settings();
      var p := pos;
      ghost var rounds;
      r, rounds := pool.Drain(seq(|script| - p, i requires 0 <= i < |script| - p => (script[p + i].steps, script[p + i].wakeup)));
      DrainKeeps(s, View(Select), setup);
      Accounted(View(Select), setup);
      GoroutineCount(pool.gs, |dispatched|);
    }
  }

  predicate EndsIn(es: seq<Event>, e: Event) {
    es != [] && es[|es| - 1] == e
  }

  lemma InvAtSelect(s: Poll, c: Setup)
    requires PollInv(s, c)
    ensures PollInv(s.(point := Select), c)
  {
  }

  /** What the counter and the dispatched jobs have to do with each other in one state. */
  lemma Accounted(s: Poll, c: Setup)
    requires PollInv(s, c)
    ensures |s.dispatched| == s.inflight + |Ended(s.gs)|
  {
    assert Follow(s, [], c) == Some(s);
    DispatchedIsConserved(s, [], s, c);
  }

  /** A drain only lets goroutines go on. */
  lemma DrainKeeps(s: Poll, s': Poll, c: Setup)
    requires PollInv(s, c) && s' == s.(gs := s'.gs, inflight := s'.inflight, point := Select)
    requires Progressed(s.gs, s'.gs) && s'.inflight == |Counted(s'.gs)|
    ensures PollInv(s', c)
  {
    ProgressedShrinks(s.gs, s'.gs);
    forall g: GoId
      ensures g in s'.gs <==> g < |s.dispatched|
    {
      assert g in s'.gs.Keys <==> g in s.gs.Keys;
    }
  }

  /** A trace with one more step. */
  lemma Longer(s: Poll, es: seq<Event>, m: Poll, e: Event, n: Poll, c: Setup) returns (fs: seq<Event>)
    requires Follow(s, es, c) == Some(m) && Next(m, e, c) == Some(n)
    ensures fs == es + [e] && Follow(s, fs, c) == Some(n)
    ensures Moments(fs) == Moments(es) + (if e.Others? then [e.moment] else [])
  {
    fs := es + [e];
    Extend(s, es, m, e, n, c);
    MomentsSnoc(es, e);
  }
}
