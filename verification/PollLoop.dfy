/** The poll loop as a machine on values: what one step of the poller, of its goroutines and of everyone
    else may do, and what holds along every trace of such steps. */
module PollLoop {
  import opened Rows
  import opened Protocol
  import opened Atomic
  import opened Runner

  /** What happens while the poller is between two operations: goroutines take steps, other actors move the
      tables on, and the context may be cancelled, for good. The remaining fields say how the poller's next
      operation fares: whether its select takes the done case if it is ready, what the network does to a claim,
      whether the repository lookup and the failure write succeed, and which case a drain's select takes. */
  datatype Moment = Moment(
    steps: seq<GoId>,
    tables: map<JobId, Job>,
    cancel: bool,
    done: bool,
    claim: Net,
    repoFound: bool,
    statusOk: bool,
    wakeup: Wakeup
  )

  /** Where the poller stands: in the select, before the cancellation check of a claim with `left` claims to
      go, past that check and before the claim statement, past the claim of `job` and before its dispatch or
      failure write, or draining. */
  datatype Point = Select | Guard(left: nat) | Claiming(left: nat) | Owned(left: nat, job: JobId) | Draining

  datatype Poll = Poll(
    jobs: map<JobId, Job>,
    gs: map<GoId, Phase>,
    inflight: int,
    dispatched: seq<JobId>,
    cancelled: bool,
    point: Point
  )

  /** `Lost` is a claim whose request or answer was lost; `taken` is the job it claimed all the same, if any. */
  datatype Event =
    | Others(moment: Moment)
    | Tick
    | EndBatch
    | Pass
    | Lost(taken: Option<JobId>)
    | Empty
    | Claim(job: JobId)
    | Fail(job: JobId, written: bool)
    | Dispatch(job: JobId)
    | TakeDone

  /** `limit` is the concurrency limit, `now` the claim time. */
  datatype Setup = Setup(limit: nat, now: Time)

  /** Others never delete a row, move a status back or requeue a job. */
  predicate MovesOn(jobs: map<JobId, Job>, jobs': map<JobId, Job>) {
    forall j :: j in jobs ==> j in jobs' && Evolves(jobs[j], jobs'[j])
  }

  function OthersJobs(jobs: map<JobId, Job>, m: Moment): map<JobId, Job> {
    if MovesOn(jobs, m.tables) then m.tables else jobs
  }

  function AfterOthers(s: Poll, m: Moment): Poll {
    s.(jobs := OthersJobs(s.jobs, m), gs := Stepped(s.gs, m.steps),
       inflight := s.inflight - Decrements(s.gs, m.steps), cancelled := s.cancelled || m.cancel)
  }

  function Claimed(s: Poll, j: JobId, c: Setup): map<JobId, Job>
    requires j in s.jobs
  {
    s.jobs[j := ClaimRow(s.jobs[j], c.now)]
  }

  /** The failure write, whatever has become of the row meanwhile. */
  function FailedJobs(s: Poll, j: JobId, written: bool, c: Setup): map<JobId, Job> {
    if written && j in s.jobs then s.jobs[j := SetStatus(s.jobs[j], Failed, Some(REPO_NOT_FOUND), c.now)] else s.jobs
  }

  predicate CanClaim(s: Poll, j: JobId) {
    s.point.Claiming? && Oldest(s.jobs, AllQueued(s.jobs), j)
  }

  /** None means that the step cannot happen here. The select may take the tick even when the context has
      been cancelled, and never the done case before. */
  function Next(s: Poll, e: Event, c: Setup): Option<Poll> {
    match e
    case Others(m) => Some(AfterOthers(s, m))
    case Tick =>
      if s.point != Select then None
      else Some(s.(point := Guard(if s.inflight < c.limit then c.limit - s.inflight else 0)))
    case EndBatch =>
      if s.point.Guard? && (s.point.left == 0 || s.cancelled) then Some(s.(point := Select)) else None
    case Pass =>
      if s.point.Guard? && s.point.left > 0 && !s.cancelled then Some(s.(point := Claiming(s.point.left - 1))) else None
    case Lost(taken) =>
      if !s.point.Claiming? then None
      else if taken.None? then Some(s.(point := Select))
      else if CanClaim(s, taken.value) then Some(s.(jobs := Claimed(s, taken.value, c), point := Select))
      else None
    case Empty =>
      if s.point.Claiming? && AllQueued(s.jobs) == {} then Some(s.(point := Select)) else None
    case Claim(j) =>
      if CanClaim(s, j) then Some(s.(jobs := Claimed(s, j, c), point := Owned(s.point.left, j))) else None
    case Fail(j, written) =>
      if s.point.Owned? && s.point.job == j then Some(s.(jobs := FailedJobs(s, j, written, c), point := Select)) else None
    case Dispatch(j) =>
      if s.point.Owned? && s.point.job == j then
        Some(s.(gs := s.gs[|s.dispatched| := Phase.Running], inflight := s.inflight + 1,
                dispatched := s.dispatched + [j], point := Guard(s.point.left)))
      else None
    case TakeDone =>
      if s.point == Select && s.cancelled then Some(s.(point := Draining)) else None
  }

  function Follow(s: Poll, es: seq<Event>, c: Setup): Option<Poll>
    decreases |es|
  {
    if es == [] then Some(s)
    else
      match Next(s, es[0], c)
      case None => None
      case Some(n) => Follow(n, es[1..], c)
  }

  lemma {:induction false} FollowConcat(s: Poll, es: seq<Event>, fs: seq<Event>, c: Setup)
    requires Follow(s, es, c).Some?
    ensures Follow(s, es + fs, c) == Follow(Follow(s, es, c).value, fs, c)
    decreases |es|
  {
    if es == [] {
      assert es + fs == fs;
    } else {
      assert (es + fs)[1..] == es[1..] + fs;
      FollowConcat(Next(s, es[0], c).value, es[1..], fs, c);
    }
  }

  lemma Extend(s: Poll, es: seq<Event>, m: Poll, e: Event, n: Poll, c: Setup)
    requires Follow(s, es, c) == Some(m) && Next(m, e, c) == Some(n)
    ensures Follow(s, es + [e], c) == Some(n)
  {
    FollowConcat(s, es, [e], c);
    assert [e][1..] == [];
  }

  /** The moments of a trace, in order. */
  function Moments(es: seq<Event>): seq<Moment> {
    if es == [] then []
    else Moments(es[..|es| - 1]) + (if es[|es| - 1].Others? then [es[|es| - 1].moment] else [])
  }

  lemma {:induction false} MomentsConcat(es: seq<Event>, fs: seq<Event>)
    ensures Moments(es + fs) == Moments(es) + Moments(fs)
    decreases |fs|
  {
    if fs == [] {
      assert es + fs == es;
    } else {
      assert (es + fs)[..|es + fs| - 1] == es + fs[..|fs| - 1];
      MomentsConcat(es, fs[..|fs| - 1]);
    }
  }

  lemma MomentsSnoc(es: seq<Event>, e: Event)
    ensures Moments(es + [e]) == Moments(es) + (if e.Others? then [e.moment] else [])
  {
    assert (es + [e])[..|es|] == es;
  }

  // ----- what every trace keeps -----

  /** Claims the batch may still make. */
  function Room(p: Point): nat {
    match p
    case Guard(left) => left
    case Claiming(left) => left + 1
    case Owned(left, _) => left + 1
    case _ => 0
  }

  predicate OutOfQueue(jobs: map<JobId, Job>, j: JobId) {
    j in jobs && jobs[j].status != Queued
  }

  /** Out of the queue since that instant. */
  predicate StartedAt(jobs: map<JobId, Job>, j: JobId, now: Time) {
    OutOfQueue(jobs, j) && jobs[j].startedAt == Some(now)
  }

  ghost predicate JobsLeftQueue(s: Poll) {
    forall i :: 0 <= i < |s.dispatched| ==> OutOfQueue(s.jobs, s.dispatched[i])
  }

  predicate NoRepeats(ids: seq<JobId>) {
    forall i, k :: 0 <= i < k < |ids| ==> ids[i] != ids[k]
  }

  ghost predicate PollInv(s: Poll, c: Setup) {
    && s.inflight == |Counted(s.gs)| && s.inflight + Room(s.point) <= c.limit
    && (forall g: GoId :: g in s.gs <==> g < |s.dispatched|)
    && NoRepeats(s.dispatched) && JobsLeftQueue(s)
    && (s.point.Owned? ==> StartedAt(s.jobs, s.point.job, c.now) && s.point.job !in s.dispatched)
  }

  lemma StepOneCounts(gs: map<GoId, Phase>, g: GoId)
    ensures StepOne(gs, g).Keys == gs.Keys
    ensures |Counted(StepOne(gs, g))| == |Counted(gs)| - if g in gs && gs[g] == Returned then 1 else 0
  {
    if g in gs {
      StepCounts(gs, g);
    }
  }

  lemma {:induction false} SteppedCounts(gs: map<GoId, Phase>, steps: seq<GoId>)
    ensures Stepped(gs, steps).Keys == gs.Keys
    ensures |Counted(Stepped(gs, steps))| == |Counted(gs)| - Decrements(gs, steps)
  {
    if steps == [] {
    } else {
      SteppedCounts(gs, steps[..|steps| - 1]);
      StepOneCounts(Stepped(gs, steps[..|steps| - 1]), steps[|steps| - 1]);
    }
  }

  lemma OthersKeep(s: Poll, m: Moment, c: Setup)
    requires PollInv(s, c)
    ensures PollInv(AfterOthers(s, m), c)
  {
    var s' := AfterOthers(s, m);
    SteppedCounts(s.gs, m.steps);
    forall g: GoId
      ensures g in s'.gs <==> g < |s'.dispatched|
    {
      assert g in s'.gs.Keys <==> g in s.gs.Keys;
    }
    forall j | OutOfQueue(s.jobs, j)
      ensures OutOfQueue(s'.jobs, j)
    {
    }
  }

  lemma ClaimKeepsJobs(s: Poll, j: JobId, c: Setup)
    requires CanClaim(s, j) && JobsLeftQueue(s)
    ensures j !in s.dispatched && StartedAt(Claimed(s, j, c), j, c.now)
    ensures JobsLeftQueue(s.(jobs := Claimed(s, j, c)))
  {
    assert s.jobs[j].status == Queued;
  }

  lemma DispatchKeeps(s: Poll, j: JobId, c: Setup)
    requires PollInv(s, c) && s.point.Owned? && s.point.job == j
    ensures PollInv(Next(s, Event.Dispatch(j), c).value, c)
  {
    StartIsCounted(s.gs, |s.dispatched|);
  }

  lemma NextKeeps(s: Poll, e: Event, s': Poll, c: Setup)
    requires PollInv(s, c) && Next(s, e, c) == Some(s')
    ensures PollInv(s', c)
  {
    match e
    case Others(m) => OthersKeep(s, m, c);
    case Dispatch(j) => DispatchKeeps(s, j, c);
    case Claim(j) => ClaimKeepsJobs(s, j, c);
    case Lost(taken) =>
      if taken.Some? {
        ClaimKeepsJobs(s, taken.value, c);
      }
    case _ =>
  }

  lemma {:induction false} FollowKeeps(s: Poll, es: seq<Event>, s': Poll, c: Setup)
    requires PollInv(s, c) && Follow(s, es, c) == Some(s')
    ensures PollInv(s', c)
    decreases |es|
  {
    if es == [] {
    } else {
      var n := Next(s, es[0], c).value;
      NextKeeps(s, es[0], n, c);
      FollowKeeps(n, es[1..], s', c);
    }
  }

  /** The counter never leaves 0..limit; every dispatched job is either counted or has executed its decrement;
      and the counter exceeds the functions still running by exactly those that have returned but not
      decremented yet. */
  lemma DispatchedIsConserved(s: Poll, es: seq<Event>, s': Poll, c: Setup)
    requires PollInv(s, c) && Follow(s, es, c) == Some(s')
    ensures 0 <= s'.inflight <= c.limit
    ensures |s'.dispatched| == s'.inflight + |Ended(s'.gs)|
    ensures s'.inflight == |StillRunning(s'.gs)| + |Returning(s'.gs)|
    ensures NoRepeats(s'.dispatched)
  {
    FollowKeeps(s, es, s', c);
    GoroutineCount(s'.gs, |s'.dispatched|);
    AllCountedOrEnded(s'.gs);
    CountedSplits(s'.gs);
  }

  lemma {:induction false} GoroutineCount(gs: map<GoId, Phase>, n: nat)
    requires forall g: GoId :: g in gs <==> g < n
    ensures |gs| == n
  {
    if n == 0 {
      assert gs == map[];
    } else {
      var rest := gs - {n - 1};
      GoroutineCount(rest, n - 1);
      assert gs.Keys == rest.Keys + {n - 1};
      assert |gs.Keys| == |rest.Keys| + 1;
    }
  }

  // ----- cancellation -----

  /** Claims whose check has been passed and whose job has not been dispatched or given up. */
  function Underway(p: Point): nat {
    if p.Claiming? || p.Owned? then 1 else 0
  }

  lemma StepAfterCancel(s: Poll, e: Event, s': Poll, c: Setup)
    requires s.cancelled && Next(s, e, c) == Some(s')
    ensures s'.cancelled && e != Pass
    ensures s.dispatched <= s'.dispatched
    ensures |s'.dispatched| + Underway(s'.point) <= |s.dispatched| + Underway(s.point)
  {
  }

  /** Once the context is cancelled no claim begins any more, however often the select still takes the tick,
      and at most the one claim that had already passed its check is dispatched. */
  lemma {:induction false} NothingBeginsAfterCancel(s: Poll, es: seq<Event>, s': Poll, c: Setup)
    requires s.cancelled && Follow(s, es, c) == Some(s')
    ensures s'.cancelled && Pass !in es
    ensures s.dispatched <= s'.dispatched
    ensures |s'.dispatched| + Underway(s'.point) <= |s.dispatched| + Underway(s.point)
    decreases |es|
  {
    if es == [] {
    } else {
      var n := Next(s, es[0], c).value;
      StepAfterCancel(s, es[0], n, c);
      NothingBeginsAfterCancel(n, es[1..], s', c);
      assert es == [es[0]] + es[1..];
    }
  }

  /** Whatever the trace did before: after the moment that cancels, and after the done case was taken, no claim
      begins, and at most one further job, respectively none, is dispatched. */
  lemma CancelStopsClaims(s: Poll, es: seq<Event>, s': Poll, k: nat, c: Setup)
    requires Follow(s, es, c) == Some(s') && k < |es|
    requires es[k] == TakeDone || (es[k].Others? && es[k].moment.cancel)
    ensures s'.cancelled && forall i :: k < i < |es| ==> es[i] != Pass
    ensures Follow(s, es[..k + 1], c).Some?
    ensures var cut := Follow(s, es[..k + 1], c).value;
      && cut.dispatched <= s'.dispatched
      && |s'.dispatched| <= |cut.dispatched| + (if es[k] == TakeDone then 0 else 1)
  {
    FollowPrefix(s, es, k, c);
    var before := Follow(s, es[..k], c).value;
    var m := Next(before, es[k], c).value;
    assert es[..k + 1] == es[..k] + [es[k]];
    Extend(s, es[..k], before, es[k], m, c);
    FollowPrefix(s, es, k + 1, c);
    NothingBeginsAfterCancel(m, es[k + 1..], s', c);
    forall i | k < i < |es|
      ensures es[i] != Pass
    {
      assert es[i] == es[k + 1..][i - k - 1];
    }
  }

  /** The bound is attained: the claim past its check is dispatched although the context is cancelled meanwhile. */
  lemma OneClaimSlipsThrough(s: Poll, m: Moment, j: JobId, c: Setup)
    requires s.point.Claiming? && !s.cancelled && m.cancel
    requires var jobs := OthersJobs(s.jobs, m); Oldest(jobs, AllQueued(jobs), j)
    ensures var end := Follow(s, [Others(m), Claim(j), Event.Dispatch(j)], c);
      end.Some? && end.value.cancelled && end.value.dispatched == s.dispatched + [j]
  {
    var n := AfterOthers(s, m);
    var o := Next(n, Claim(j), c).value;
    assert Follow(s, [], c) == Some(s);
    Extend(s, [], s, Others(m), n, c);
    Extend(s, [] + [Others(m)], n, Claim(j), o, c);
    Extend(s, [] + [Others(m)] + [Claim(j)], o, Event.Dispatch(j), Next(o, Event.Dispatch(j), c).value, c);
    assert [] + [Others(m)] + [Claim(j)] + [Event.Dispatch(j)] == [Others(m), Claim(j), Event.Dispatch(j)];
  }

  lemma FollowPrefix(s: Poll, es: seq<Event>, k: nat, c: Setup)
    requires Follow(s, es, c).Some? && k <= |es|
    ensures Follow(s, es[..k], c).Some?
    ensures Follow(Follow(s, es[..k], c).value, es[k..], c) == Follow(s, es, c)
    ensures k < |es| ==> Next(Follow(s, es[..k], c).value, es[k], c).Some?
  {
    FollowsPrefix(s, es, k, c);
    FollowConcat(s, es[..k], es[k..], c);
    assert es[..k] + es[k..] == es;
  }

  lemma {:induction false} FollowsPrefix(s: Poll, es: seq<Event>, k: nat, c: Setup)
    requires Follow(s, es, c).Some? && k <= |es|
    ensures Follow(s, es[..k], c).Some?
    decreases k
  {
    if k == 0 {
    } else {
      assert es[..k][1..] == es[1..][..k - 1];
      FollowsPrefix(Next(s, es[0], c).value, es[1..], k - 1, c);
    }
  }
}
