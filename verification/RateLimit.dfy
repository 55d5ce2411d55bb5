/** The sliding-window limiter: a sorted set of request instants per key, with whole pipelines atomic.
    Score and member are the same microsecond count, so the set of instants is the whole state. */
module RateLimit {
  import opened Rows
  import opened Sets

  const SECOND := 1_000_000

  datatype Config = Config(max: int, window: int)

  datatype Decision = Decision(allowed: bool, remaining: int)

  function Max(a: int, b: int): int {
    if a < b then b else a
  }

  function Decide(count: int, cfg: Config): Decision {
    if count >= cfg.max then Decision(false, 0) else Decision(true, Max(cfg.max - count - 1, 0))
  }

  /** The instants a prune at `now` leaves: scores above now - window. */
  function Live(z: set<int>, now: int, cfg: Config): set<int> {
    set x | x in z && x > now - cfg.window
  }

  /** The time to live of the key: window plus one second, but an EXPIRE command carries whole seconds. */
  function TimeToLive(cfg: Config): int {
    (cfg.window + SECOND) / SECOND * SECOND
  }

  lemma OutlivesWindow(cfg: Config)
    ensures cfg.window < TimeToLive(cfg) <= cfg.window + SECOND
  {
    var n := (cfg.window + SECOND) / SECOND;
    assert n * SECOND <= cfg.window + SECOND < n * SECOND + SECOND;
  }

  /** The key as Redis stores it: from `expiresAt` on it reads as empty, and an empty key has no time to live. */
  datatype Entry = Entry(members: set<int>, expiresAt: Option<int>)

  function Visible(e: Entry, now: int): set<int> {
    if e.expiresAt.Some? && now >= e.expiresAt.value then {} else e.members
  }

  function Checked(e: Entry, now: int, cfg: Config): Entry {
    Entry(Live(Visible(e, now), now, cfg) + {now}, Some(now + TimeToLive(cfg)))
  }

  /** The key after the first `reached` commands of a check at `now`. */
  function Reached(e: Entry, now: int, reached: nat, cfg: Config): Entry {
    var kept := Live(Visible(e, now), now, cfg);
    var ttl := if kept == {} then None else e.expiresAt;
    if reached == 0 then e
    else if reached <= 2 then Entry(kept, ttl)
    else if reached == 3 then Entry(kept + {now}, ttl)
    else Checked(e, now, cfg)
  }

  class Limiter {
    const cfg: Config
    var entry: Entry

    constructor (cfg: Config)
      ensures this.cfg == cfg && entry == Entry({}, None)
    {
      this.cfg, entry := cfg, Entry({}, None);
    }

    method ZRemRangeByScore(upTo: int, now: int)
      modifies this
      ensures var kept := set x | x in Visible(old(entry), now) && x > upTo;
        entry == Entry(kept, if kept == {} then None else old(entry).expiresAt)
    {
      var kept := set x | x in Visible(entry, now) && x > upTo;
      entry := Entry(kept, if kept == {} then None else entry.expiresAt);
    }

    method ZCard() returns (n: nat)
      ensures n == |entry.members|
    {
      n := |entry.members|;
    }

    method ZAdd(instant: int)
      modifies this
      ensures entry == old(entry).(members := old(entry).members + {instant})
    {
      entry := entry.(members := entry.members + {instant});
    }

    /** A key that does not exist gets no time to live. */
    method Expire(at: int)
      modifies this
      ensures entry == if old(entry).members == {} then old(entry) else old(entry).(expiresAt := Some(at))
    {
      if entry.members != {} {
        entry := entry.(expiresAt := Some(at));
      }
    }

    /** One pipeline: prune, count, add, expire; denied requests are added too. The pipeline may break off after
        `reached` commands, or its answer may be lost: None is the Redis error. */
    method CheckRateLimit(now: int, reached: nat, answered: bool) returns (d: Option<Decision>)
      modifies this
      ensures d == if reached >= 4 && answered then Some(Decide(|Live(Visible(old(entry), now), now, cfg)|, cfg)) else None
      ensures entry == Reached(old(entry), now, reached, cfg)
      ensures d.None? <==> reached < 4 || !answered
      ensures d.Some? ==>
        var count := |set x | x in Visible(old(entry), now) && x > now - cfg.window|;
        && (d.value.allowed <==> count < cfg.max)
        && d.value.remaining == (if count < cfg.max then cfg.max - count - 1 else 0)
      ensures reached == 0 ==> entry == old(entry)
      ensures reached > 0 ==>
        var kept := set x | x in Visible(old(entry), now) && x > now - cfg.window;
        entry.members == kept + if reached >= 3 then {now} else {}
      ensures reached >= 4 ==> entry.expiresAt == Some(now + TimeToLive(cfg))
    {
      if reached == 0 {
        return None;
      }
      ZRemRangeByScore(now - cfg.window, now);
      var count := ZCard();
      assert entry.members == Live(Visible(old(entry), now), now, cfg) == set x | x in Visible(old(entry), now) && x > now - cfg.window;
      if reached >= 3 {
        ZAdd(now);
      }
      if reached >= 4 {
        Expire(now + (cfg.window + SECOND) / SECOND * SECOND);
      }
      if reached < 4 || !answered {
        return None;
      }
      var remaining := Max(cfg.max - count - 1, 0);
      if count >= cfg.max {
        return Some(Decision(false, 0));
      }
      return Some(Decision(true, remaining));
    }
  }

  // ----- runs: one check per instant of `ts` -----

  predicate NonDecreasing(ts: seq<int>) {
    forall i, k :: 0 <= i < k < |ts| ==> ts[i] <= ts[k]
  }

  function EntryAfter(ts: seq<int>, cfg: Config): Entry {
    if ts == [] then Entry({}, None)
    else Checked(EntryAfter(ts[..|ts| - 1], cfg), ts[|ts| - 1], cfg)
  }

  /** The decision the limiter takes on request `i`. */
  function Verdict(ts: seq<int>, i: nat, cfg: Config): Decision
    requires i < |ts|
  {
    Decide(|Live(Visible(EntryAfter(ts[..i], cfg), ts[i]), ts[i], cfg)|, cfg)
  }

  function Elems(ts: seq<int>): set<int> {
    set x | x in ts
  }

  /** The distinct instants of a plain log that lie within one window before `now`. */
  function Recent(ts: seq<int>, now: int, cfg: Config): set<int> {
    Live(Elems(ts), now, cfg)
  }

  /** One check, seen from a later instant: what it pruned or let expire is out of the window by then. */
  lemma CheckKeepsLive(z: set<int>, all: set<int>, e: Entry, last: int, now: int, cfg: Config)
    requires cfg.window > 0 && last <= now && z == Live(all, last, cfg)
    requires forall x :: x in all ==> x <= last
    requires e.members == z + {last} && e.expiresAt.Some? && e.expiresAt.value > last + cfg.window
    ensures Live(Visible(e, now), now, cfg) == Live(all + {last}, now, cfg)
  {
  }

  lemma LastCheck(ts: seq<int>, cfg: Config)
    requires ts != []
    ensures var last := ts[|ts| - 1];
      && EntryAfter(ts, cfg).members == Live(Visible(EntryAfter(ts[..|ts| - 1], cfg), last), last, cfg) + {last}
      && EntryAfter(ts, cfg).expiresAt.Some? && EntryAfter(ts, cfg).expiresAt.value > last + cfg.window
  {
    OutlivesWindow(cfg);
  }

  /** Pruning and expiry lose nothing a later check could still count. */
  lemma {:induction false} EntryIsLog(ts: seq<int>, now: int, cfg: Config)
    requires NonDecreasing(ts) && cfg.window > 0
    requires ts != [] ==> ts[|ts| - 1] <= now
    ensures Live(Visible(EntryAfter(ts, cfg), now), now, cfg) == Recent(ts, now, cfg)
  {
    if ts == [] {
      assert Recent(ts, now, cfg) == {};
    } else {
      var last, before := ts[|ts| - 1], ts[..|ts| - 1];
      EntryIsLog(before, last, cfg);
      assert ts == before + [last];
      assert Elems(ts) == Elems(before) + {last};
      LastCheck(ts, cfg);
      CheckKeepsLive(Recent(before, last, cfg), Elems(before), EntryAfter(ts, cfg), last, now, cfg);
    }
  }

  /** The sorted set with its key expiry takes the same decision on every request as a plain log of all
      requests, admitted or denied. */
  lemma RefinesPlainLog(ts: seq<int>, i: nat, cfg: Config)
    requires NonDecreasing(ts) && cfg.window > 0 && i < |ts|
    ensures Verdict(ts, i, cfg) == Decide(|Recent(ts[..i], ts[i], cfg)|, cfg)
  {
    EntryIsLog(ts[..i], ts[i], cfg);
  }

  /** Some request at instant `x` is admitted. */
  predicate AdmittedAt(ts: seq<int>, x: int, cfg: Config) {
    exists i :: 0 <= i < |ts| && ts[i] == x && Verdict(ts, i, cfg).allowed
  }

  /** The distinct admitted instants in the half-open window that starts at `a`. */
  function Admitted(ts: seq<int>, a: int, cfg: Config): set<int> {
    set x | x in ts && a <= x < a + cfg.window && AdmittedAt(ts, x, cfg)
  }

  lemma {:induction false} MaxExists(s: set<int>) returns (m: int)
    requires s != {}
    ensures m in s && forall x :: x in s ==> x <= m
    decreases |s|
  {
    var x := Pick(s);
    if s == {x} {
      m := x;
    } else {
      var r := MaxExists(s - {x});
      m := if r < x then x else r;
      forall y | y in s ensures y <= m {
        assert y == x || y in s - {x};
      }
    }
  }

  /** When request `i` is decided, the log already holds every earlier instant of its window. */
  lemma EarlierAreCounted(ts: seq<int>, i: nat, a: int, s: set<int>, cfg: Config)
    requires NonDecreasing(ts) && i < |ts| && ts[i] < a + cfg.window
    requires forall x :: x in s ==> x in ts && a <= x < ts[i]
    ensures s <= Recent(ts[..i], ts[i], cfg)
  {
    forall x | x in s
      ensures x in Recent(ts[..i], ts[i], cfg)
    {
      assert x in s && x in ts;
      var k :| 0 <= k < |ts| && ts[k] == x;
      assert k < i;
      assert ts[..i][k] == x;
    }
  }

  /** When the newest instant of a set of earlier log entries is admitted, the rest is below the limit. */
  lemma RestIsBelowLimit(ts: seq<int>, i: nat, a: int, rest: set<int>, cfg: Config)
    requires NonDecreasing(ts) && cfg.window > 0 && i < |ts| && ts[i] < a + cfg.window && Verdict(ts, i, cfg).allowed
    requires forall x :: x in rest ==> x in ts && a <= x < ts[i]
    ensures |rest| < cfg.max
  {
    RefinesPlainLog(ts, i, cfg);
    EarlierAreCounted(ts, i, a, rest, cfg);
    SubsetSize(rest, Recent(ts[..i], ts[i], cfg));
  }

  lemma WithoutOne(s: set<int>, x: int)
    requires x in s
    ensures |s| == |s - {x}| + 1
  {
  }

  lemma AdmittingRequest(ts: seq<int>, x: int, cfg: Config) returns (i: nat)
    requires AdmittedAt(ts, x, cfg)
    ensures i < |ts| && ts[i] == x && Verdict(ts, i, cfg).allowed
  {
    i :| i < |ts| && ts[i] == x && Verdict(ts, i, cfg).allowed;
  }

  /** At most `max` distinct instants are admitted in any half-open window. */
  lemma WindowBound(ts: seq<int>, a: int, cfg: Config)
    requires NonDecreasing(ts) && cfg.window > 0 && cfg.max >= 0
    ensures |Admitted(ts, a, cfg)| <= cfg.max
  {
    var s := Admitted(ts, a, cfg);
    if s != {} {
      var m := MaxExists(s);
      var i := AdmittingRequest(ts, m, cfg);
      RestIsBelowLimit(ts, i, a, s - {m}, cfg);
      WithoutOne(s, m);
    }
  }

  // ----- what the response headers promise -----

  predicate Rising(ts: seq<int>) {
    forall i, k :: 0 <= i < k < |ts| ==> ts[i] < ts[k]
  }

  lemma {:induction false} RisingSize(ts: seq<int>)
    requires Rising(ts)
    ensures |Elems(ts)| == |ts|
  {
    if ts == [] {
      assert Elems(ts) == {};
    } else {
      var before, last := ts[..|ts| - 1], ts[|ts| - 1];
      RisingSize(before);
      assert ts == before + [last];
      assert Elems(ts) == Elems(before) + {last};
      assert last !in Elems(before);
    }
  }

  predicate AllAbove(z: set<int>, bound: int) {
    forall x :: x in z ==> x > bound
  }

  /** Nothing that request `i` counted, nor request `i` itself, has left the window by request `k`. */
  predicate NothingLeaves(ts: seq<int>, i: nat, k: nat, cfg: Config)
    requires i <= k < |ts|
  {
    AllAbove(Recent(ts[..i + 1], ts[i], cfg), ts[k] - cfg.window)
  }

  lemma EarlierThanReport(ts: seq<int>, i: nat, x: int)
    requires NonDecreasing(ts) && i < |ts| && ts[i] !in ts[..i] && x in ts[..i]
    ensures x < ts[i] && x in ts[..i + 1]
  {
    var m :| 0 <= m < |ts[..i]| && ts[..i][m] == x;
    assert ts[m] <= ts[i] && ts[..i][m] == ts[m] && ts[..i + 1][m] == ts[m];
  }

  lemma FromReportOn(ts: seq<int>, i: nat, k: nat, x: int)
    requires NonDecreasing(ts) && i <= k < |ts| && x in ts[i..k]
    ensures ts[i] <= x <= ts[k]
  {
    var m :| 0 <= m < |ts[i..k]| && ts[i..k][m] == x;
    assert x == ts[i + m] && ts[i] <= ts[i + m] <= ts[k];
  }

  /** The log that request `k` counts: what request `i` counted, and the fresh instants from `i` on. */
  lemma LogGrows(ts: seq<int>, i: nat, k: nat, cfg: Config)
    requires NonDecreasing(ts) && i < k < |ts| && ts[i] !in ts[..i] && cfg.window > 0 && NothingLeaves(ts, i, k, cfg)
    ensures Recent(ts[..k], ts[k], cfg) == Recent(ts[..i], ts[i], cfg) + Elems(ts[i..k])
    ensures Recent(ts[..i], ts[i], cfg) !! Elems(ts[i..k])
  {
    assert ts[..k] == ts[..i] + ts[i..k];
    assert ts[i] in Recent(ts[..i + 1], ts[i], cfg) by {
      assert ts[..i + 1][i] == ts[i];
    }
    forall x | x in Elems(ts[..i])
      ensures x < ts[i] && (x > ts[i] - cfg.window <==> x > ts[k] - cfg.window)
    {
      EarlierThanReport(ts, i, x);
      assert x > ts[i] - cfg.window ==> x in Recent(ts[..i + 1], ts[i], cfg);
    }
    forall x | x in Elems(ts[i..k])
      ensures ts[i] <= x && x > ts[k] - cfg.window
    {
      FromReportOn(ts, i, k, x);
    }
  }

  lemma CountGrows(ts: seq<int>, i: nat, k: nat, cfg: Config)
    requires NonDecreasing(ts) && i < k < |ts| && ts[i] !in ts[..i] && cfg.window > 0 && NothingLeaves(ts, i, k, cfg)
    requires Rising(ts[i..])
    ensures |Recent(ts[..k], ts[k], cfg)| == |Recent(ts[..i], ts[i], cfg)| + k - i
  {
    LogGrows(ts, i, k, cfg);
    assert ts[i..k] == ts[i..][..k - i];
    RisingSize(ts[i..k]);
  }

  /** `remaining` is exact over the limiter's own decisions, whether it admits or refuses: if request `i`, at a fresh
      instant, reported n, then of the following requests at fresh instants exactly the first n are admitted, and
      each reports one less, as long as nothing leaves the window. A refusal reports 0, so none is. */
  lemma RemainingIsExact(ts: seq<int>, i: nat, k: nat, cfg: Config)
    requires NonDecreasing(ts) && i < k < |ts| && Rising(ts[i..]) && ts[i] !in ts[..i] && cfg.window > 0
    requires NothingLeaves(ts, i, k, cfg)
    ensures Verdict(ts, k, cfg).allowed <==> k - i - 1 < Verdict(ts, i, cfg).remaining
    ensures Verdict(ts, k, cfg).allowed ==> Verdict(ts, k, cfg).remaining == Verdict(ts, i, cfg).remaining - (k - i)
    ensures !Verdict(ts, i, cfg).allowed ==> Verdict(ts, i, cfg).remaining == 0 && !Verdict(ts, k, cfg).allowed
    ensures !Verdict(ts, k, cfg).allowed ==> Verdict(ts, k, cfg).remaining == 0
  {
    RefinesPlainLog(ts, i, cfg);
    RefinesPlainLog(ts, k, cfg);
    CountGrows(ts, i, k, cfg);
  }

  /** The wait `Retry-After` asks for: the window in whole seconds. */
  function RetryAfter(cfg: Config): int
    requires cfg.window >= 0
  {
    cfg.window / SECOND
  }

  lemma {:induction false} IntervalSize(s: set<int>, lo: int, n: nat)
    requires forall x :: x in s ==> lo < x <= lo + n
    ensures |s| <= n
  {
    if n == 0 {
      if s != {} {
        var x := Pick(s);
        assert false;
      }
    } else {
      IntervalSize(s - {lo + n}, lo, n - 1);
      assert s <= (s - {lo + n}) + {lo + n};
      SubsetSize(s, (s - {lo + n}) + {lo + n});
    }
  }

  /** A client whose last request was refused, and that then stays silent as long as it was told, is admitted. */
  ghost predicate WaitingSuffices(cfg: Config)
    requires cfg.window >= 0
  {
    forall ts: seq<int>, now ::
      (NonDecreasing(ts + [now]) && ts != [] && !Verdict(ts, |ts| - 1, cfg).allowed
       && now >= ts[|ts| - 1] + RetryAfter(cfg) * SECOND)
      ==> Verdict(ts + [now], |ts|, cfg).allowed
  }

  lemma NextVerdict(ts: seq<int>, now: int, cfg: Config)
    requires NonDecreasing(ts + [now]) && cfg.window > 0
    ensures Verdict(ts + [now], |ts|, cfg) == Decide(|Recent(ts, now, cfg)|, cfg)
  {
    RefinesPlainLog(ts + [now], |ts|, cfg);
    assert (ts + [now])[..|ts|] == ts;
  }

  /** `max` requests in consecutive microseconds, the last at instant 0, and one more at instant 0. */
  function Burst(cfg: Config): seq<int>
    requires cfg.max >= 1
  {
    seq(cfg.max, i requires 0 <= i < cfg.max => i - cfg.max + 1) + [0]
  }

  lemma BurstCounts(cfg: Config, now: int)
    requires cfg.max >= 1 && cfg.window > 0 && now >= 0 && now + cfg.max <= cfg.window
    ensures NonDecreasing(Burst(cfg)) && |Recent(Burst(cfg), now, cfg)| == cfg.max
    ensures |Recent(Burst(cfg)[..cfg.max], now, cfg)| == cfg.max
  {
    var ts, head := Burst(cfg), Burst(cfg)[..cfg.max];
    assert forall i :: 0 <= i < |head| ==> head[i] == i - cfg.max + 1 && ts[i] == head[i];
    RisingSize(head);
    assert ts == head + [0] && head[cfg.max - 1] == 0;
    forall x | x in ts
      ensures x in head && x > now - cfg.window
    {
    }
    assert Recent(head, now, cfg) == Elems(head);
    assert Recent(ts, now, cfg) == Elems(head);
  }

  /** A refused client that waits as long as `Retry-After` says is always admitted iff the part of the window that
      the header truncates away, in microseconds, is shorter than the limit; so always for whole-second windows. */
  lemma {:induction false} RetryAfterSufficesIff(cfg: Config)
    requires cfg.window > 0 && cfg.max >= 1
    ensures WaitingSuffices(cfg) <==> cfg.window % SECOND < cfg.max
  {
    var slack, wait := cfg.window % SECOND, RetryAfter(cfg) * SECOND;
    assert cfg.window == wait + slack;
    if slack < cfg.max {
      forall ts: seq<int>, now | NonDecreasing(ts + [now]) && ts != [] && now >= ts[|ts| - 1] + wait
        ensures Verdict(ts + [now], |ts|, cfg).allowed
      {
        NextVerdict(ts, now, cfg);
        assert forall i :: 0 <= i < |ts| ==> (ts + [now])[i] == ts[i];
        assert NonDecreasing(ts);
        IntervalSize(Recent(ts, now, cfg), ts[|ts| - 1] - slack, slack);
      }
    } else {
      // the burst is refused at its end, and all of it is still counted when the client comes back
      var ts := Burst(cfg);
      BurstCounts(cfg, 0);
      BurstCounts(cfg, wait);
      RefinesPlainLog(ts, |ts| - 1, cfg);
      assert !Verdict(ts, |ts| - 1, cfg).allowed;
      assert NonDecreasing(ts + [wait]);
      NextVerdict(ts, wait, cfg);
      assert !Verdict(ts + [wait], |ts|, cfg).allowed;
    }
  }

  // ----- the middleware around it -----

  /** What the client gets: limit and remaining are headers of both answers, the wait is one of a refusal. */
  datatype Response =
    | PassedUnchecked
    | Passed(limit: int, remaining: int)
    | Refused(limit: int, remaining: int, retryAfter: int)

  /** A failing Redis lets the request through without headers. */
  function Middleware(d: Option<Decision>, cfg: Config): (r: Response)
    requires cfg.window >= 0
    ensures r.Refused? <==> d.Some? && !d.value.allowed
    ensures r.Refused? ==> r.retryAfter * SECOND <= cfg.window < (r.retryAfter + 1) * SECOND
    ensures r.Passed? <==> d.Some? && d.value.allowed
    ensures !r.PassedUnchecked? ==> r.limit == cfg.max && r.remaining == d.value.remaining
  {
    match d
    case None => PassedUnchecked
    case Some(decision) =>
      if decision.allowed then Passed(cfg.max, decision.remaining)
      else Refused(cfg.max, decision.remaining, RetryAfter(cfg))
  }

  /** One request through check and middleware: it is refused exactly when the window already holds `max` instants,
      and then told that none remains; else it is told how many more there is room for. */
  method Serve(limiter: Limiter, now: int, reached: nat, answered: bool) returns (r: Response)
    requires limiter.cfg.window >= 0
    modifies limiter
    ensures limiter.entry == Reached(old(limiter.entry), now, reached, limiter.cfg)
    ensures var count := |set x | x in Visible(old(limiter.entry), now) && x > now - limiter.cfg.window|;
      && (r.PassedUnchecked? <==> reached < 4 || !answered)
      && (r.Refused? <==> reached >= 4 && answered && count >= limiter.cfg.max)
      && (r.Refused? ==> r.limit == limiter.cfg.max && r.remaining == 0)
      && (r.Passed? ==> r.limit == limiter.cfg.max && r.remaining == limiter.cfg.max - count - 1 >= 0)
  {
    var d := limiter.CheckRateLimit(now, reached, answered);
    r := Middleware(d, limiter.cfg);
  }
}
