/** The whole pipeline interleaved, with EXPIRE and the key's expiry. A check is in flight from its prune to its
    expire command, at most `c` of them at once. Instants are clock readings of the checks, so they never lie in
    the future of Redis, and a count comes at most time to live minus window after its check read the clock. */
module RateLimitExpiry {
  import opened Rows
  import opened Sets
  import opened RateLimit

  datatype Flight = Flight(at: int, counted: bool, admitted: bool, added: bool)

  /** The key (no time to live when it is empty or was never given one), Redis's clock, the checks in flight, the
      instant of the last prune, and the instants admitted so far. */
  datatype Shared = Shared(
    members: set<int>,
    expiresAt: Option<int>,
    clock: int,
    flight: map<nat, Flight>,
    latest: int,
    admitted: set<int>
  )

  datatype Command = Tick(duration: int) | Prune(id: nat, at: int) | Card(id: nat) | Add(id: nat) | Expire(id: nat)

  function Init(start: int): Shared {
    Shared({}, None, start, map[], start, {})
  }

  function Slack(cfg: Config): int {
    TimeToLive(cfg) - cfg.window
  }

  /** Time passes, and the key may expire. */
  function AfterTick(s: Shared, d: int): Shared {
    if s.expiresAt.Some? && s.clock + d >= s.expiresAt.value then s.(clock := s.clock + d, members := {}, expiresAt := None)
    else s.(clock := s.clock + d)
  }

  function AfterPrune(s: Shared, id: nat, at: int, cfg: Config): Shared {
    var kept := Live(s.members, at, cfg);
    s.(members := kept, expiresAt := if kept == {} then None else s.expiresAt,
       flight := s.flight[id := Flight(at, false, false, false)], latest := at)
  }

  function AfterCard(s: Shared, id: nat, cfg: Config): Shared
    requires id in s.flight
  {
    var f := s.flight[id];
    var ok := Decide(|s.members|, cfg).allowed;
    s.(flight := s.flight[id := f.(counted := true, admitted := ok)],
       admitted := if ok then s.admitted + {f.at} else s.admitted)
  }

  function AfterExpire(s: Shared, id: nat, cfg: Config): Shared {
    s.(expiresAt := if s.members == {} then s.expiresAt else Some(s.clock + TimeToLive(cfg)), flight := s.flight - {id})
  }

  function Next(s: Shared, e: Command, cfg: Config, c: nat): Option<Shared> {
    match e
    case Tick(d) =>
      if d < 0 then None else Some(AfterTick(s, d))
    case Prune(id, at) =>
      if id in s.flight || |s.flight| >= c || at < s.latest || at > s.clock then None else Some(AfterPrune(s, id, at, cfg))
    case Card(id) =>
      if id !in s.flight || s.flight[id].counted || s.clock - s.flight[id].at > Slack(cfg) then None
      else Some(AfterCard(s, id, cfg))
    case Add(id) =>
      if id !in s.flight || !s.flight[id].counted || s.flight[id].added then None
      else Some(s.(members := s.members + {s.flight[id].at}, flight := s.flight[id := s.flight[id].(added := true)]))
    case Expire(id) =>
      if id !in s.flight || !s.flight[id].added then None else Some(AfterExpire(s, id, cfg))
  }

  ghost predicate Run(ss: seq<Shared>, es: seq<Command>, cfg: Config, c: nat) {
    && |ss| == |es| + 1 && ss[0] == Init(ss[0].clock)
    && forall i :: 0 <= i < |es| ==> Next(ss[i], es[i], cfg, c) == Some(ss[i + 1])
  }

  predicate InWindow(x: int, a: int, cfg: Config) {
    a <= x < a + cfg.window
  }

  function Hits(s: Shared, a: int, cfg: Config): set<int> {
    set x | x in s.admitted && InWindow(x, a, cfg)
  }

  /** Checks of the window that have pruned and may still count. */
  function Undecided(s: Shared, a: int, cfg: Config): set<nat> {
    set id | id in s.flight && !s.flight[id].counted && InWindow(s.flight[id].at, a, cfg)
             && s.clock - s.flight[id].at <= Slack(cfg)
  }

  predicate Pending(s: Shared, x: int) {
    exists id :: id in s.flight && s.flight[id].admitted && s.flight[id].at == x
  }

  /** Neither has a prune passed the window nor can a count for it come too late. */
  predicate Open(s: Shared, a: int, cfg: Config) {
    s.latest < a + cfg.window && s.clock < a + TimeToLive(cfg)
  }

  /** The key will expire before the time to live of the window's first instant is over. */
  predicate Stale(s: Shared, a: int, cfg: Config) {
    s.expiresAt.Some? && s.expiresAt.value < a + TimeToLive(cfg)
  }

  predicate FlightsOk(s: Shared, c: nat) {
    && |s.flight| <= c && s.latest <= s.clock
    && (forall id :: id in s.flight ==> s.flight[id].at <= s.latest && (s.flight[id].admitted ==> s.flight[id].counted)
                                        && (s.flight[id].added ==> s.flight[id].counted)
                                        && (s.flight[id].admitted ==> s.flight[id].at in s.admitted))
    && (forall x :: x in s.admitted ==> x <= s.latest)
  }

  /** `lost` are the hits that an expiry of the key has wiped out. */
  predicate OpenInv(s: Shared, a: int, lost: set<int>, cfg: Config, c: nat) {
    && |Hits(s, a, cfg) - lost| <= cfg.max + c - 1
    && (forall x :: x in Hits(s, a, cfg) - lost ==> x in s.members || Pending(s, x))
    && (forall id :: id in s.flight && s.flight[id].added && s.flight[id].admitted && InWindow(s.flight[id].at, a, cfg)
          ==> s.flight[id].at in s.members || s.flight[id].at in lost)
    && (Stale(s, a, cfg) ==> lost == {} && forall x :: x in Hits(s, a, cfg) ==> Pending(s, x))
  }

  predicate Inv(s: Shared, a: int, lost: set<int>, cfg: Config, c: nat) {
    && FlightsOk(s, c) && |lost| <= c && lost <= Hits(s, a, cfg)
    && (Open(s, a, cfg) ==> OpenInv(s, a, lost, cfg, c))
    && (!Open(s, a, cfg) ==> |Hits(s, a, cfg) - lost| + |Undecided(s, a, cfg)| <= cfg.max + 2 * (c - 1))
  }

  // ----- counting -----

  function PendingInstants(flight: map<nat, Flight>): set<int> {
    set id | id in flight :: flight[id].at
  }

  lemma {:induction false} FewInstants(flight: map<nat, Flight>)
    ensures |PendingInstants(flight)| <= |flight|
    decreases |flight|
  {
    if flight.Keys == {} {
      assert PendingInstants(flight) == {};
    } else {
      var id :| id in flight.Keys;
      var rest := flight - {id};
      assert flight.Keys == rest.Keys + {id};
      assert |flight.Keys| == |rest.Keys| + 1;
      FewInstants(rest);
      assert PendingInstants(flight) <= PendingInstants(rest) + {flight[id].at};
      SubsetSize(PendingInstants(flight), PendingInstants(rest) + {flight[id].at});
    }
  }

  lemma FewUndecided(s: Shared, a: int, cfg: Config)
    ensures |Undecided(s, a, cfg)| <= |s.flight|
  {
    SubsetSize(Undecided(s, a, cfg), s.flight.Keys);
    assert |s.flight.Keys| == |s.flight|;
  }

  /** When the clock has run past the window's time to live, its checks come too late to count. */
  lemma TooLate(s: Shared, a: int, cfg: Config)
    requires s.clock >= a + TimeToLive(cfg)
    ensures Undecided(s, a, cfg) == {}
  {
  }

  /** An open window whose bound becomes that of a closed one. */
  lemma Closes(s: Shared, s': Shared, a: int, lost: set<int>, cfg: Config, c: nat)
    requires OpenInv(s, a, lost, cfg, c) && Hits(s', a, cfg) == Hits(s, a, cfg) && c >= 1
    requires |Undecided(s', a, cfg)| <= c - 1
    ensures |Hits(s', a, cfg) - lost| + |Undecided(s', a, cfg)| <= cfg.max + 2 * (c - 1)
  {
  }

  // ----- the commands -----

  /** What is lost after time has passed: all hits, if a stale key has expired. */
  function LostAfterTick(s: Shared, d: int, a: int, lost: set<int>, cfg: Config): set<int> {
    if Open(s, a, cfg) && Stale(s, a, cfg) && s.clock + d >= s.expiresAt.value then Hits(s, a, cfg) else lost
  }

  lemma ExpiryLosesPending(s: Shared, a: int, cfg: Config, c: nat)
    requires FlightsOk(s, c) && forall x :: x in Hits(s, a, cfg) ==> Pending(s, x)
    ensures |Hits(s, a, cfg)| <= |s.flight|
  {
    forall x | x in Hits(s, a, cfg)
      ensures x in PendingInstants(s.flight)
    {
      var id :| id in s.flight && s.flight[id].admitted && s.flight[id].at == x;
    }
    SubsetSize(Hits(s, a, cfg), PendingInstants(s.flight));
    FewInstants(s.flight);
  }

  lemma TickKeeps(s: Shared, d: int, s': Shared, a: int, lost: set<int>, cfg: Config, c: nat)
    requires Inv(s, a, lost, cfg, c) && d >= 0 && s' == AfterTick(s, d) && c >= 1 && cfg.max >= 0
    ensures Inv(s', a, LostAfterTick(s, d, a, lost, cfg), cfg, c)
    ensures s.flight == map[] ==> LostAfterTick(s, d, a, lost, cfg) == lost || LostAfterTick(s, d, a, lost, cfg) == {}
  {
    var lost' := LostAfterTick(s, d, a, lost, cfg);
    assert Hits(s', a, cfg) == Hits(s, a, cfg);
    if !Open(s, a, cfg) {
      SubsetSize(Undecided(s', a, cfg), Undecided(s, a, cfg));
    } else {
      if lost' != lost {
        ExpiryLosesPending(s, a, cfg, c);
        assert Hits(s', a, cfg) - lost' == {};
      }
      if Open(s', a, cfg) {
        TickKeepsOpen(s, d, s', a, lost, cfg, c);
      } else {
        TooLate(s', a, cfg);
      }
    }
  }

  lemma TickKeepsOpen(s: Shared, d: int, s': Shared, a: int, lost: set<int>, cfg: Config, c: nat)
    requires FlightsOk(s, c) && OpenInv(s, a, lost, cfg, c) && d >= 0 && s' == AfterTick(s, d) && c >= 1 && cfg.max >= 0
    requires Open(s, a, cfg) && Open(s', a, cfg)
    ensures OpenInv(s', a, LostAfterTick(s, d, a, lost, cfg), cfg, c)
  {
    assert Hits(s', a, cfg) == Hits(s, a, cfg);
    assert forall x :: Pending(s, x) ==> Pending(s', x);
    if LostAfterTick(s, d, a, lost, cfg) == Hits(s, a, cfg) {
      assert Hits(s', a, cfg) - Hits(s, a, cfg) == {};
    }
  }

  lemma PruneFlights(s: Shared, id: nat, at: int, s': Shared, a: int, cfg: Config, c: nat)
    requires FlightsOk(s, c) && Next(s, Prune(id, at), cfg, c) == Some(s')
    ensures FlightsOk(s', c) && Hits(s', a, cfg) == Hits(s, a, cfg) && |s'.flight| == |s.flight| + 1
    ensures forall x :: Pending(s, x) ==> Pending(s', x)
  {
    assert s'.flight.Keys == s.flight.Keys + {id};
    assert |s'.flight.Keys| == |s.flight.Keys| + 1;
    forall x | Pending(s, x)
      ensures Pending(s', x)
    {
      var k :| k in s.flight && s.flight[k].admitted && s.flight[k].at == x;
      assert k in s'.flight && s'.flight[k] == s.flight[k];
    }
  }

  lemma PruneKeepsOpen(s: Shared, id: nat, at: int, s': Shared, a: int, lost: set<int>, cfg: Config, c: nat)
    requires FlightsOk(s, c) && OpenInv(s, a, lost, cfg, c) && Next(s, Prune(id, at), cfg, c) == Some(s')
    requires at < a + cfg.window
    ensures OpenInv(s', a, lost, cfg, c)
  {
    PruneFlights(s, id, at, s', a, cfg, c);
    assert forall x :: x in s.members && InWindow(x, a, cfg) ==> x in s'.members;
  }

  lemma PruneKeeps(s: Shared, id: nat, at: int, s': Shared, a: int, lost: set<int>, cfg: Config, c: nat)
    requires Inv(s, a, lost, cfg, c) && Next(s, Prune(id, at), cfg, c) == Some(s') && c >= 1 && cfg.window > 0
    ensures Inv(s', a, lost, cfg, c)
  {
    PruneFlights(s, id, at, s', a, cfg, c);
    if !Open(s, a, cfg) {
      PruneAddsNothing(s, id, at, s', a, cfg, c);
    } else if Open(s', a, cfg) {
      PruneKeepsOpen(s, id, at, s', a, lost, cfg, c);
    } else {
      assert Undecided(s', a, cfg) == Undecided(s, a, cfg);
      FewUndecided(s, a, cfg);
      Closes(s, s', a, lost, cfg, c);
    }
  }

  /** A prune after the window is closed starts no check that could still count for it. */
  lemma PruneAddsNothing(s: Shared, id: nat, at: int, s': Shared, a: int, cfg: Config, c: nat)
    requires !Open(s, a, cfg) && Next(s, Prune(id, at), cfg, c) == Some(s')
    ensures |Undecided(s', a, cfg)| <= |Undecided(s, a, cfg)|
  {
    SubsetSize(Undecided(s', a, cfg), Undecided(s, a, cfg));
  }

  /** An admitting count sees every hit that is not lost but those of the other checks in flight. */
  lemma AdmittingCount(s: Shared, id: nat, a: int, lost: set<int>, cfg: Config, c: nat)
    requires FlightsOk(s, c) && OpenInv(s, a, lost, cfg, c) && id in s.flight && !s.flight[id].counted
    requires |s.members| < cfg.max
    ensures |Hits(s, a, cfg) - lost| <= cfg.max + c - 2
  {
    var others, hits := s.flight - {id}, Hits(s, a, cfg) - lost;
    assert s.flight.Keys == others.Keys + {id};
    assert |s.flight.Keys| == |others.Keys| + 1;
    FewInstants(others);
    forall x | x in hits
      ensures x in s.members + PendingInstants(others)
    {
      if x !in s.members {
        var k :| k in s.flight && s.flight[k].admitted && s.flight[k].at == x;
        assert k in others && others[k].at == x;
      }
    }
    SubsetSize(hits, s.members + PendingInstants(others));
    assert |s.members + PendingInstants(others)| <= |s.members| + |PendingInstants(others)|;
  }

  lemma CountedHits(s: Shared, id: nat, s': Shared, a: int, lost: set<int>, cfg: Config, c: nat)
    requires Next(s, Card(id), cfg, c) == Some(s')
    ensures Hits(s', a, cfg) == Hits(s, a, cfg) || Hits(s', a, cfg) == Hits(s, a, cfg) + {s.flight[id].at}
    ensures Hits(s', a, cfg) != Hits(s, a, cfg) ==> |s.members| < cfg.max && InWindow(s.flight[id].at, a, cfg)
    ensures |Hits(s', a, cfg) - lost| <= |Hits(s, a, cfg) - lost| + 1
  {
    if !Decide(|s.members|, cfg).allowed || !InWindow(s.flight[id].at, a, cfg) {
      assert Hits(s', a, cfg) == Hits(s, a, cfg);
    } else {
      assert Hits(s', a, cfg) == Hits(s, a, cfg) + {s.flight[id].at};
      SubsetSize(Hits(s', a, cfg) - lost, (Hits(s, a, cfg) - lost) + {s.flight[id].at});
    }
  }

  lemma CardKeepsOpen(s: Shared, id: nat, s': Shared, a: int, lost: set<int>, cfg: Config, c: nat)
    requires FlightsOk(s, c) && OpenInv(s, a, lost, cfg, c) && Next(s, Card(id), cfg, c) == Some(s')
    ensures OpenInv(s', a, lost, cfg, c)
  {
    CountedHits(s, id, s', a, lost, cfg, c);
    if Hits(s', a, cfg) != Hits(s, a, cfg) {
      AdmittingCount(s, id, a, lost, cfg, c);
    }
    forall x | Pending(s, x)
      ensures Pending(s', x)
    {
      var k :| k in s.flight && s.flight[k].admitted && s.flight[k].at == x;
      assert k in s'.flight && s'.flight[k].admitted && s'.flight[k].at == x;
    }
    if s'.flight[id].admitted {
      assert Pending(s', s.flight[id].at);
    }
  }

  lemma CardKeepsClosed(s: Shared, id: nat, s': Shared, a: int, lost: set<int>, cfg: Config, c: nat)
    requires Next(s, Card(id), cfg, c) == Some(s')
    ensures |Hits(s', a, cfg) - lost| + |Undecided(s', a, cfg)| <= |Hits(s, a, cfg) - lost| + |Undecided(s, a, cfg)|
  {
    CountedHits(s, id, s', a, lost, cfg, c);
    assert Undecided(s', a, cfg) == Undecided(s, a, cfg) - {id};
    if Hits(s', a, cfg) != Hits(s, a, cfg) {
      assert id in Undecided(s, a, cfg);
    }
  }

  lemma CardKeeps(s: Shared, id: nat, s': Shared, a: int, lost: set<int>, cfg: Config, c: nat)
    requires Inv(s, a, lost, cfg, c) && Next(s, Card(id), cfg, c) == Some(s')
    ensures Inv(s', a, lost, cfg, c)
  {
    assert s'.flight.Keys == s.flight.Keys && |s'.flight.Keys| == |s.flight.Keys|;
    CountedHits(s, id, s', a, lost, cfg, c);
    if Open(s, a, cfg) {
      CardKeepsOpen(s, id, s', a, lost, cfg, c);
    } else {
      CardKeepsClosed(s, id, s', a, lost, cfg, c);
    }
  }

  lemma AddKeeps(s: Shared, id: nat, s': Shared, a: int, lost: set<int>, cfg: Config, c: nat)
    requires Inv(s, a, lost, cfg, c) && Next(s, Add(id), cfg, c) == Some(s')
    ensures Inv(s', a, lost, cfg, c)
  {
    assert s'.flight.Keys == s.flight.Keys && |s'.flight.Keys| == |s.flight.Keys|;
    assert Hits(s', a, cfg) == Hits(s, a, cfg);
    assert Undecided(s', a, cfg) == Undecided(s, a, cfg);
    forall x | Pending(s, x)
      ensures Pending(s', x)
    {
      var k :| k in s.flight && s.flight[k].admitted && s.flight[k].at == x;
      assert k in s'.flight && s'.flight[k].admitted && s'.flight[k].at == x;
    }
  }

  lemma ExpireFlights(s: Shared, id: nat, s': Shared, a: int, cfg: Config, c: nat)
    requires FlightsOk(s, c) && Next(s, Expire(id), cfg, c) == Some(s')
    ensures FlightsOk(s', c) && Hits(s', a, cfg) == Hits(s, a, cfg) && Undecided(s', a, cfg) == Undecided(s, a, cfg)
  {
    assert s'.flight.Keys == s.flight.Keys - {id};
    assert |s'.flight.Keys| == |s.flight.Keys| - 1;
  }

  lemma ExpireKeeps(s: Shared, id: nat, s': Shared, a: int, lost: set<int>, cfg: Config, c: nat)
    requires Inv(s, a, lost, cfg, c) && Next(s, Expire(id), cfg, c) == Some(s')
    ensures Inv(s', a, lost, cfg, c)
  {
    ExpireFlights(s, id, s', a, cfg, c);
    if Open(s, a, cfg) {
      ExpireKeepsOpen(s, id, s', a, lost, cfg, c);
    }
  }

  lemma ExpireKeepsOpen(s: Shared, id: nat, s': Shared, a: int, lost: set<int>, cfg: Config, c: nat)
    requires FlightsOk(s, c) && lost <= Hits(s, a, cfg) && OpenInv(s, a, lost, cfg, c) && Next(s, Expire(id), cfg, c) == Some(s')
    ensures OpenInv(s', a, lost, cfg, c)
  {
    assert Hits(s', a, cfg) == Hits(s, a, cfg);
    forall x | x in Hits(s', a, cfg) - lost
      ensures x in s'.members || Pending(s', x)
    {
      if x !in s'.members {
        var k :| k in s.flight && s.flight[k].admitted && s.flight[k].at == x;
        assert k in s'.flight && s'.flight[k] == s.flight[k];
      }
    }
    if Stale(s', a, cfg) {
      // only before the window has begun, or when the command found no key
      assert s.members != {} ==> s.clock < a;
    }
  }

  // ----- runs -----

  lemma NextKeeps(s: Shared, e: Command, s': Shared, a: int, lost: set<int>, cfg: Config, c: nat) returns (lost': set<int>)
    requires Inv(s, a, lost, cfg, c) && Next(s, e, cfg, c) == Some(s') && cfg.window > 0 && cfg.max >= 0 && c >= 1
    ensures Inv(s', a, lost', cfg, c)
    ensures !ExpiresInFlight(s, e) && lost == {} ==> lost' == {}
  {
    lost' := lost;
    match e
    case Tick(d) =>
      lost' := LostAfterTick(s, d, a, lost, cfg);
      TickKeeps(s, d, s', a, lost, cfg, c);
    case Prune(id, at) => PruneKeeps(s, id, at, s', a, lost, cfg, c);
    case Card(id) => CardKeeps(s, id, s', a, lost, cfg, c);
    case Add(id) => AddKeeps(s, id, s', a, lost, cfg, c);
    case Expire(id) => ExpireKeeps(s, id, s', a, lost, cfg, c);
  }

  /** The key expires while a check is in flight. */
  predicate ExpiresInFlight(s: Shared, e: Command) {
    e.Tick? && s.flight != map[] && s.expiresAt.Some? && s.clock + e.duration >= s.expiresAt.value
  }

  lemma {:induction false} RunInv(ss: seq<Shared>, es: seq<Command>, a: int, cfg: Config, c: nat, n: nat) returns (lost: set<int>)
    requires Run(ss, es, cfg, c) && n < |ss| && cfg.window > 0 && cfg.max >= 0 && c >= 1
    ensures Inv(ss[n], a, lost, cfg, c)
    ensures (forall i :: 0 <= i < n ==> !ExpiresInFlight(ss[i], es[i])) ==> lost == {}
  {
    if n == 0 {
      lost := {};
      assert Hits(ss[0], a, cfg) == {} && Undecided(ss[0], a, cfg) == {};
    } else {
      lost := RunInv(ss, es, a, cfg, c, n - 1);
      assert Next(ss[n - 1], es[n - 1], cfg, c) == Some(ss[n - 1 + 1]);
      lost := NextKeeps(ss[n - 1], es[n - 1], ss[n], a, lost, cfg, c);
    }
  }

  /** With the key's expiry any half-open window has at most max + 2(c - 1) + c distinct admitted instants, and at
      most max + 2(c - 1) as long as the key never expires while a check is in flight. */
  lemma ExpiringBound(ss: seq<Shared>, es: seq<Command>, a: int, cfg: Config, c: nat, n: nat)
    requires Run(ss, es, cfg, c) && n < |ss| && cfg.window > 0 && cfg.max >= 0 && c >= 1
    ensures |Hits(ss[n], a, cfg)| <= cfg.max + 2 * (c - 1) + c
    ensures (forall i :: 0 <= i < n ==> !ExpiresInFlight(ss[i], es[i])) ==> |Hits(ss[n], a, cfg)| <= cfg.max + 2 * (c - 1)
  {
    var lost := RunInv(ss, es, a, cfg, c, n);
    var hits := Hits(ss[n], a, cfg);
    assert hits == (hits - lost) + lost && |hits| == |hits - lost| + |lost|;
  }

  // ----- a run that an expiry lets past max + 2(c - 1) -----

  ghost predicate Reachable(s: Shared, cfg: Config, c: nat) {
    exists ss, es :: Run(ss, es, cfg, c) && ss[|es|] == s
  }

  lemma Reach(s: Shared, e: Command, s': Shared, cfg: Config, c: nat)
    requires Reachable(s, cfg, c) && Next(s, e, cfg, c) == Some(s')
    ensures Reachable(s', cfg, c)
  {
    var ss, es :| Run(ss, es, cfg, c) && ss[|es|] == s;
    var ss', es' := ss + [s'], es + [e];
    forall i | 0 <= i < |es'|
      ensures Next(ss'[i], es'[i], cfg, c) == Some(ss'[i + 1])
    {
      if i < |es| {
        assert Next(ss[i], es[i], cfg, c) == Some(ss[i + 1]);
      }
    }
    assert Run(ss', es', cfg, c);
  }

  /** No check in flight. */
  function Quiet(members: set<int>, expiresAt: Option<int>, clock: int, latest: int, admitted: set<int>): Shared {
    Shared(members, expiresAt, clock, map[], latest, admitted)
  }

  function Alone(members: set<int>, expiresAt: Option<int>, clock: int, f: Flight, admitted: set<int>): Shared {
    Shared(members, expiresAt, clock, map[0 := f], f.at, admitted)
  }

  lemma PruneAndCount(z: set<int>, exp: Option<int>, clock: int, latest: int, adm: set<int>, at: int, cfg: Config)
    requires Reachable(Quiet(z, exp, clock, latest, adm), cfg, 1)
    requires latest <= at <= clock <= at + Slack(cfg) && Live(z, at, cfg) == z && (z == {} ==> exp == None) && |z| < cfg.max
    ensures Reachable(Alone(z, exp, clock, Flight(at, true, true, false), adm + {at}), cfg, 1)
  {
    var s0, s1 := Quiet(z, exp, clock, latest, adm), Alone(z, exp, clock, Flight(at, false, false, false), adm);
    assert s0.flight[0 := Flight(at, false, false, false)] == s1.flight;
    Reach(s0, Prune(0, at), s1, cfg, 1);
    var s2 := Alone(z, exp, clock, Flight(at, true, true, false), adm + {at});
    assert s1.flight[0 := Flight(at, true, true, false)] == s2.flight;
    Reach(s1, Card(0), s2, cfg, 1);
  }

  lemma Adds(z: set<int>, exp: Option<int>, clock: int, at: int, adm: set<int>, cfg: Config)
    requires Reachable(Alone(z, exp, clock, Flight(at, true, true, false), adm), cfg, 1)
    ensures Reachable(Alone(z + {at}, exp, clock, Flight(at, true, true, true), adm), cfg, 1)
  {
    var s0 := Alone(z, exp, clock, Flight(at, true, true, false), adm);
    var s1 := Alone(z + {at}, exp, clock, Flight(at, true, true, true), adm);
    assert s0.flight[0 := Flight(at, true, true, true)] == s1.flight;
    Reach(s0, Add(0), s1, cfg, 1);
  }

  lemma Expires(z: set<int>, exp: Option<int>, clock: int, at: int, adm: set<int>, cfg: Config)
    requires Reachable(Alone(z, exp, clock, Flight(at, true, true, true), adm), cfg, 1)
    ensures Reachable(Quiet(z, if z == {} then exp else Some(clock + TimeToLive(cfg)), clock, at, adm), cfg, 1)
  {
    var s0 := Alone(z, exp, clock, Flight(at, true, true, true), adm);
    assert s0.flight - {0} == map[];
    Reach(s0, Expire(0), Quiet(z, if z == {} then exp else Some(clock + TimeToLive(cfg)), clock, at, adm), cfg, 1);
  }

  /** One check from beginning to end, at one reading of Redis's clock. */
  lemma WholeCheck(z: set<int>, exp: Option<int>, clock: int, latest: int, adm: set<int>, at: int, cfg: Config)
    requires Reachable(Quiet(z, exp, clock, latest, adm), cfg, 1)
    requires latest <= at <= clock <= at + Slack(cfg) && Live(z, at, cfg) == z && (z == {} ==> exp == None) && |z| < cfg.max
    ensures Reachable(Quiet(z + {at}, Some(clock + TimeToLive(cfg)), clock, at, adm + {at}), cfg, 1)
  {
    PruneAndCount(z, exp, clock, latest, adm, at, cfg);
    Adds(z, exp, clock, at, adm + {at}, cfg);
    Expires(z + {at}, exp, clock, at, adm + {at}, cfg);
  }

  const PAIR := Config(2, 10)

  /** A check stalls before its add until the key is about to expire; the expiry takes its instant with it, and
      its own expire command finds no key. */
  lemma InstantIsLost()
    ensures Reachable(Quiet({}, None, SECOND, 9, {0, 9}), PAIR, 1)
  {
    assert Run([Init(0)], [], PAIR, 1);
    assert Reachable(Quiet({}, None, 0, 0, {}), PAIR, 1);
    WholeCheck({}, None, 0, 0, {}, 0, PAIR);
    assert {} + {0} == {0};
    var s1 := Quiet({0}, Some(SECOND), 0, 0, {0});
    Reach(s1, Tick(9), Quiet({0}, Some(SECOND), 9, 0, {0}), PAIR, 1);
    assert Live({0}, 9, PAIR) == {0};
    PruneAndCount({0}, Some(SECOND), 9, 0, {0}, 9, PAIR);
    assert {0} + {9} == {0, 9};
    var stalled := Flight(9, true, true, false);
    Reach(Alone({0}, Some(SECOND), 9, stalled, {0, 9}), Tick(SECOND - 10),
          Alone({0}, Some(SECOND), SECOND - 1, stalled, {0, 9}), PAIR, 1);
    Adds({0}, Some(SECOND), SECOND - 1, 9, {0, 9}, PAIR);
    var added := Flight(9, true, true, true);
    Reach(Alone({0, 9}, Some(SECOND), SECOND - 1, added, {0, 9}), Tick(1), Alone({}, None, SECOND, added, {0, 9}), PAIR, 1);
    Expires({}, None, SECOND, 9, {0, 9}, PAIR);
  }

  /** One check at a time and a limit of two, and still three instants of one window are admitted: the bound with
      expiry is attained, and the one without is not enough. */
  lemma ExpiryExceedsPlainBound() returns (ss: seq<Shared>, es: seq<Command>)
    ensures Run(ss, es, PAIR, 1) && |Hits(ss[|es|], 9, PAIR)| == PAIR.max + 2 * (1 - 1) + 1
  {
    InstantIsLost();
    WholeCheck({}, None, SECOND, 9, {0, 9}, 10, PAIR);
    assert {} + {10} == {10} && {0, 9} + {10} == {0, 9, 10};
    assert Live({10}, 11, PAIR) == {10};
    WholeCheck({10}, Some(SECOND + SECOND), SECOND, 10, {0, 9, 10}, 11, PAIR);
    var end := Quiet({10} + {11}, Some(SECOND + SECOND), SECOND, 11, {0, 9, 10} + {11});
    ss, es :| Run(ss, es, PAIR, 1) && ss[|es|] == end;
    assert Hits(end, 9, PAIR) == {9, 10, 11};
  }
}
