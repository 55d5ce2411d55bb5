/** The job runner's accounting: an atomic in-flight counter and a wait group around every goroutine. */
module Runner {
  import opened Sets

  type GoId = nat

  /** The life of one dispatched function: `Running` until it returns, then the deferred decrement of the
      counter, then the wait group's Done. */
  datatype Phase = Running | Returned | Lowered | Finished {
    function Next(): Phase {
      match this
      case Running => Returned
      case Returned => Lowered
      case Lowered => Finished
      case Finished => Finished
    }

    predicate Counted() { Running? || Returned? }

    predicate Waited() { !Finished? }

    predicate HasReturned() { !Running? }
  }

  function Counted(gs: map<GoId, Phase>): set<GoId> {
    set g | g in gs && gs[g].Counted()
  }

  function Waited(gs: map<GoId, Phase>): set<GoId> {
    set g | g in gs && gs[g].Waited()
  }

  /** `b` is `a` after some goroutine steps: nobody starts, nobody goes back. */
  predicate Progressed(a: map<GoId, Phase>, b: map<GoId, Phase>) {
    && b.Keys == a.Keys
    && forall g :: g in a ==>
         && (b[g].Counted() ==> a[g].Counted())
         && (b[g].Waited() ==> a[g].Waited())
         && (a[g].HasReturned() ==> b[g].HasReturned())
  }

  lemma ProgressedShrinks(a: map<GoId, Phase>, b: map<GoId, Phase>)
    requires Progressed(a, b)
    ensures |Counted(b)| <= |Counted(a)| && |Waited(b)| <= |Waited(a)|
  {
    SubsetSize(Counted(b), Counted(a));
    SubsetSize(Waited(b), Waited(a));
  }

  /** Goroutines whose deferred decrement has been executed. */
  function Ended(gs: map<GoId, Phase>): set<GoId> {
    set g | g in gs && (gs[g] == Lowered || gs[g] == Finished)
  }

  /** Goroutines whose function has not returned. */
  function StillRunning(gs: map<GoId, Phase>): set<GoId> {
    set g | g in gs && gs[g] == Running
  }

  /** Goroutines whose function has returned but which have not lowered the counter yet. */
  function Returning(gs: map<GoId, Phase>): set<GoId> {
    set g | g in gs && gs[g] == Returned
  }

  lemma AllCountedOrEnded(gs: map<GoId, Phase>)
    ensures |gs| == |Counted(gs)| + |Ended(gs)|
  {
    assert gs.Keys == Counted(gs) + Ended(gs);
    assert Counted(gs) !! Ended(gs);
    assert |gs.Keys| == |gs|;
  }

  lemma CountedSplits(gs: map<GoId, Phase>)
    ensures |Counted(gs)| == |StillRunning(gs)| + |Returning(gs)|
  {
    assert Counted(gs) == StillRunning(gs) + Returning(gs);
    assert StillRunning(gs) !! Returning(gs);
  }

  function StepOne(gs: map<GoId, Phase>, g: GoId): map<GoId, Phase> {
    if g in gs then gs[g := gs[g].Next()] else gs
  }

  /** The goroutines after a schedule of steps. */
  function Stepped(gs: map<GoId, Phase>, steps: seq<GoId>): map<GoId, Phase> {
    if steps == [] then gs
    else StepOne(Stepped(gs, steps[..|steps| - 1]), steps[|steps| - 1])
  }

  /** How many decrements of the counter a schedule executes. */
  function Decrements(gs: map<GoId, Phase>, steps: seq<GoId>): nat {
    if steps == [] then 0
    else
      var before, g := Stepped(gs, steps[..|steps| - 1]), steps[|steps| - 1];
      Decrements(gs, steps[..|steps| - 1]) + (if g in before && before[g] == Returned then 1 else 0)
  }

  /** One goroutine step lowers the first count exactly when it leaves `Returned`, the second when it leaves `Lowered`. */
  lemma StepCounts(gs: map<GoId, Phase>, g: GoId)
    requires g in gs
    ensures var gs' := gs[g := gs[g].Next()];
      && |Counted(gs')| == |Counted(gs)| - (if gs[g] == Returned then 1 else 0)
      && |Waited(gs')| == |Waited(gs)| - (if gs[g] == Lowered then 1 else 0)
  {
    var gs' := gs[g := gs[g].Next()];
    if gs[g] == Returned {
      assert g in Counted(gs) && Counted(gs') == Counted(gs) - {g};
    } else {
      assert Counted(gs') == Counted(gs);
    }
    if gs[g] == Lowered {
      assert g in Waited(gs) && Waited(gs') == Waited(gs) - {g};
    } else {
      assert Waited(gs') == Waited(gs);
    }
  }

  lemma StartIsCounted(gs: map<GoId, Phase>, g: GoId)
    requires g !in gs
    ensures |Counted(gs[g := Running])| == |Counted(gs)| + 1
  {
    assert Counted(gs[g := Running]) == Counted(gs) + {g};
  }

  lemma StartIsWaited(gs: map<GoId, Phase>, g: GoId)
    requires g !in gs
    ensures |Waited(gs[g := Running])| == |Waited(gs)| + 1
  {
    assert Waited(gs[g := Running]) == Waited(gs) + {g};
  }

  datatype Wakeup = Done | Tick | Deadline

  datatype DrainResult = Drained | TimedOut(remaining: int) | Waiting

  class Pool {
    var inflight: int // atomic counter
    var wg: nat       // wait group counter
    var gs: map<GoId, Phase>
    ghost var peak: int // the largest in-flight count there has ever been

    ghost predicate Valid()
      reads this
    {
      inflight == |Counted(gs)| && wg == |Waited(gs)| && inflight <= peak
    }

    constructor ()
      ensures Valid() && gs == map[] && peak == 0
    {
      inflight, wg, gs, peak := 0, 0, map[], 0;
    }

    /** Count, then start the goroutine under the wait group. */
    method GoWait(g: GoId)
      requires Valid() && g !in gs
      modifies this
      ensures Valid() && gs == old(gs)[g := Running] && inflight == old(inflight) + 1
      ensures peak == if old(peak) < inflight then inflight else old(peak)
    {
      inflight := inflight + 1;
      peak := if peak < inflight then inflight else peak;
      wg := wg + 1;
      StartIsCounted(gs, g);
      StartIsWaited(gs, g);
      gs := gs[g := Running];
    }

    method InFlight() returns (n: int)
      ensures n == inflight
    {
      n := inflight;
    }

    /** The scheduler lets goroutine `g` take its next step. */
    method Advance(g: GoId)
      requires Valid() && g in gs
      modifies this`gs, this`inflight, this`wg
      ensures Valid() && gs == old(gs)[g := old(gs)[g].Next()] && Progressed(old(gs), gs)
      ensures inflight == old(inflight) - if old(gs)[g] == Returned then 1 else 0
    {
      StepCounts(gs, g);
      if gs[g] == Returned {
        inflight := inflight - 1;
      } else if gs[g] == Lowered {
        wg := wg - 1;
      }
      gs := gs[g := gs[g].Next()];
    }

    /** Any schedule of goroutine steps. */
    method Schedule(steps: seq<GoId>)
      requires Valid()
      modifies this`gs, this`inflight, this`wg
      ensures Valid() && Progressed(old(gs), gs)
      ensures gs == Stepped(old(gs), steps) && inflight == old(inflight) - Decrements(old(gs), steps)
    {
      for i := 0 to |steps|
        invariant Valid() && Progressed(old(gs), gs)
        invariant gs == Stepped(old(gs), steps[..i]) && inflight == old(inflight) - Decrements(old(gs), steps[..i])
      {
        assert steps[..i + 1][..i] == steps[..i];
        if steps[i] in gs {
          Advance(steps[i]);
        }
      }
      assert steps[..|steps|] == steps;
    }

    /** Blocks until the wait group is at zero; false when the schedule `env` ran out before. */
    method Wait(env: seq<seq<GoId>>) returns (woke: bool)
      requires Valid()
      modifies this`gs, this`inflight, this`wg
      ensures Valid() && Progressed(old(gs), gs)
      ensures woke <==> forall g :: g in gs ==> gs[g].Finished?
    {
      for i := 0 to |env|
        invariant Valid() && Progressed(old(gs), gs)
      {
        if wg == 0 {
          break;
        }
        Schedule(env[i]);
      }
      woke := wg == 0;
      assert forall g :: g in gs ==> (gs[g].Finished? <==> g !in Waited(gs));
      assert woke <==> Waited(gs) == {};
    }

    /** The drain loop: goroutines run, then one ready case of the select is taken. The done channel is
        ready once the wait group has reached zero. `env` is a schedule; Waiting means it ran out first. Drain goes
        on exactly until a round in which it takes the done case and every goroutine has finished, or the deadline;
        `rounds` counts the rounds up to there. */
    method Drain(env: seq<(seq<GoId>, Wakeup)>) returns (r: DrainResult, ghost rounds: nat)
      requires Valid()
      modifies this`gs, this`inflight, this`wg
      ensures Valid() && Progressed(old(gs), gs)
      ensures r == Drained ==> forall g :: g in gs ==> gs[g].HasReturned()
      ensures r.TimedOut? ==> r.remaining == inflight > 0
      ensures rounds <= |env| && gs == AfterRounds(old(gs), env[..rounds])
      ensures forall i :: 0 <= i < rounds - (if r == Waiting then 0 else 1) ==>
        env[i].1 != Deadline && (env[i].1 == Done ==> !AllFinished(AfterRounds(old(gs), env[..i + 1])))
      ensures r == Waiting ==> rounds == |env|
      ensures r != Waiting ==> rounds > 0 && (env[rounds - 1].1 == Deadline || (env[rounds - 1].1 == Done && AllFinished(gs)))
      ensures r != Waiting ==> (r == Drained <==> forall g :: g in gs ==> gs[g] != Running && gs[g] != Returned)
    {
      for i := 0 to |env|
        invariant Valid() && Progressed(old(gs), gs)
        invariant gs == AfterRounds(old(gs), env[..i])
        invariant forall k :: 0 <= k < i ==>
          env[k].1 != Deadline && (env[k].1 == Done ==> !AllFinished(AfterRounds(old(gs), env[..k + 1])))
      {
        assert env[..i + 1][..i] == env[..i];
        Schedule(env[i].0);
        WaitedIsUnfinished(gs);
        match env[i].1
        case Done =>
          if wg == 0 {
            return Drained, i + 1;
          }
        case Tick =>
        case Deadline =>
          if inflight == 0 {
            return Drained, i + 1;
          }
          return TimedOut(inflight), i + 1;
      }
      assert env[..|env|] == env;
      return Waiting, |env|;
    }
  }

  ghost predicate AllFinished(gs: map<GoId, Phase>) {
    forall g :: g in gs ==> gs[g].Finished?
  }

  /** The goroutines after the schedules of some rounds. */
  function AfterRounds(gs: map<GoId, Phase>, env: seq<(seq<GoId>, Wakeup)>): map<GoId, Phase> {
    if env == [] then gs
    else Stepped(AfterRounds(gs, env[..|env| - 1]), env[|env| - 1].0)
  }

  lemma WaitedIsUnfinished(gs: map<GoId, Phase>)
    ensures |Waited(gs)| == 0 <==> AllFinished(gs)
    ensures |Counted(gs)| == 0 <==> forall g :: g in gs ==> gs[g] != Running && gs[g] != Returned
  {
    assert forall g :: g in gs && gs[g].Waited() ==> g in Waited(gs);
    assert forall g :: g in gs && gs[g].Counted() ==> g in Counted(gs);
    if AllFinished(gs) {
      assert Waited(gs) == {};
    }
    if forall g :: g in gs ==> gs[g] != Running && gs[g] != Returned {
      assert Counted(gs) == {};
    }
  }
}
