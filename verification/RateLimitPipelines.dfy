/** The limiter as Redis really runs it: a pipeline is not a transaction, so the commands of concurrent
    checks interleave. Up to `c` checks are between their prune and their add at once, and their
    timestamps do not decrease in the order the prunes reach Redis. The key itself never expires here;
    RateLimitExpiry has the expire command as well. */
module RateLimitPipelines {
  import opened RateLimit
  import opened Sets

  datatype Flight = Flight(at: int, counted: bool, admitted: bool)

  /** `latest` is the timestamp of the last prune, `admitted` the instants admitted so far. */
  datatype Shared = Shared(members: set<int>, flight: map<nat, Flight>, latest: int, admitted: set<int>)

  datatype Command = Prune(id: nat, at: int) | Card(id: nat) | Add(id: nat)

  datatype Result = Blocked | Ran(state: Shared)

  function Init(start: int): Shared {
    Shared({}, map[], start, {})
  }

  function Next(s: Shared, e: Command, cfg: Config, c: nat): Result {
    match e
    case Prune(id, at) =>
      if id in s.flight || |s.flight| >= c || at < s.latest then Blocked
      else Ran(Shared(Live(s.members, at, cfg), s.flight[id := Flight(at, false, false)], at, s.admitted))
    case Card(id) =>
      if id !in s.flight || s.flight[id].counted then Blocked
      else
        var f := s.flight[id];
        var ok := Decide(|s.members|, cfg).allowed;
        Ran(s.(flight := s.flight[id := Flight(f.at, true, ok)],
               admitted := if ok then s.admitted + {f.at} else s.admitted))
    case Add(id) =>
      if id !in s.flight || !s.flight[id].counted then Blocked
      else Ran(s.(members := s.members + {s.flight[id].at}, flight := s.flight - {id}))
  }

  ghost predicate Step(s: Shared, e: Command, s': Shared, cfg: Config, c: nat) {
    Next(s, e, cfg, c) == Ran(s')
  }

  ghost predicate Run(ss: seq<Shared>, es: seq<Command>, cfg: Config, c: nat) {
    && |ss| == |es| + 1 && ss[0] == Init(ss[0].latest)
    && forall i :: 0 <= i < |es| ==> Step(ss[i], es[i], ss[i + 1], cfg, c)
  }

  predicate InWindow(x: int, a: int, cfg: Config) {
    a <= x < a + cfg.window
  }

  /** The distinct instants admitted so far in the half-open window that starts at `a`. */
  function Hits(s: Shared, a: int, cfg: Config): set<int> {
    set x | x in s.admitted && InWindow(x, a, cfg)
  }

  /** Checks of the window that have pruned but not counted yet. */
  function Undecided(s: Shared, a: int, cfg: Config): set<nat> {
    set id | id in s.flight && !s.flight[id].counted && InWindow(s.flight[id].at, a, cfg)
  }

  predicate Pending(s: Shared, x: int) {
    exists id :: id in s.flight && s.flight[id].admitted && s.flight[id].at == x
  }

  /** Until a prune reaches past the window, every hit is in the set or about to be added; from then on
      only the checks that had already pruned can still be admitted to the window. */
  predicate Inv(s: Shared, a: int, cfg: Config, c: nat) {
    && |s.flight| <= c
    && (forall id :: id in s.flight ==> s.flight[id].at <= s.latest)
    && (s.latest < a + cfg.window ==>
          && |Hits(s, a, cfg)| <= cfg.max + c - 1
          && forall x :: x in Hits(s, a, cfg) ==> x in s.members || Pending(s, x))
    && (s.latest >= a + cfg.window ==> |Hits(s, a, cfg)| + |Undecided(s, a, cfg)| <= cfg.max + 2 * (c - 1))
  }

  predicate AdmittedWereCounted(s: Shared) {
    forall id :: id in s.flight && !s.flight[id].counted ==> !s.flight[id].admitted
  }

  function Instants(flight: map<nat, Flight>): set<int> {
    set id | id in flight :: flight[id].at
  }

  lemma {:induction false} FewInstants(flight: map<nat, Flight>)
    ensures |Instants(flight)| <= |flight|
    decreases |flight|
  {
    if flight.Keys == {} {
      assert Instants(flight) == {};
    } else {
      var id :| id in flight.Keys;
      var rest := flight - {id};
      assert flight.Keys == rest.Keys + {id};
      assert |flight.Keys| == |rest.Keys| + 1;
      FewInstants(rest);
      assert Instants(flight) <= Instants(rest) + {flight[id].at};
      SubsetSize(Instants(flight), Instants(rest) + {flight[id].at});
    }
  }

  lemma FewUndecided(s: Shared, a: int, cfg: Config)
    ensures |Undecided(s, a, cfg)| <= |s.flight|
  {
    assert Undecided(s, a, cfg) <= s.flight.Keys;
    SubsetSize(Undecided(s, a, cfg), s.flight.Keys);
    assert |s.flight.Keys| == |s.flight|;
  }

  lemma PruneKeeps(s: Shared, e: Command, s': Shared, a: int, cfg: Config, c: nat)
    requires Inv(s, a, cfg, c) && Step(s, e, s', cfg, c) && e.Prune? && cfg.window > 0
    ensures Inv(s', a, cfg, c)
  {
    assert s'.flight.Keys == s.flight.Keys + {e.id};
    assert |s'.flight.Keys| == |s.flight.Keys| + 1;
    assert Hits(s', a, cfg) == Hits(s, a, cfg);
    if e.at < a + cfg.window {
      forall x | x in Hits(s', a, cfg)
        ensures x in s'.members || Pending(s', x)
      {
        if x !in s.members {
          var id :| id in s.flight && s.flight[id].admitted && s.flight[id].at == x;
          assert id in s'.flight && s'.flight[id] == s.flight[id];
        }
      }
    } else {
      // the new check lies past the window; of the others at most c - 1 are still to count
      assert Undecided(s', a, cfg) == Undecided(s, a, cfg);
      FewUndecided(s, a, cfg);
    }
  }

  /** An admitting count sees every hit but those of the other checks in flight. */
  lemma AdmittingCount(s: Shared, id: nat, a: int, cfg: Config, c: nat)
    requires Inv(s, a, cfg, c) && s.latest < a + cfg.window && id in s.flight && !s.flight[id].counted
    requires |s.members| < cfg.max && !s.flight[id].admitted
    ensures |Hits(s, a, cfg)| <= cfg.max + c - 2
  {
    var others := s.flight - {id};
    assert s.flight.Keys == others.Keys + {id};
    assert |s.flight.Keys| == |others.Keys| + 1;
    FewInstants(others);
    forall x | x in Hits(s, a, cfg)
      ensures x in s.members + Instants(others)
    {
      if x !in s.members {
        var k :| k in s.flight && s.flight[k].admitted && s.flight[k].at == x;
        assert k in others && others[k].at == x;
      }
    }
    SubsetSize(Hits(s, a, cfg), s.members + Instants(others));
    assert |s.members + Instants(others)| <= |s.members| + |Instants(others)|;
  }

  lemma CountedHits(s: Shared, id: nat, s': Shared, a: int, cfg: Config, c: nat)
    requires Step(s, Card(id), s', cfg, c)
    ensures Hits(s', a, cfg) == Hits(s, a, cfg) || Hits(s', a, cfg) == Hits(s, a, cfg) + {s.flight[id].at}
    ensures Hits(s', a, cfg) != Hits(s, a, cfg) ==> |s.members| < cfg.max && InWindow(s.flight[id].at, a, cfg)
    ensures |Hits(s', a, cfg)| <= |Hits(s, a, cfg)| + 1
  {
    if !Decide(|s.members|, cfg).allowed || !InWindow(s.flight[id].at, a, cfg) {
      assert Hits(s', a, cfg) == Hits(s, a, cfg);
    } else {
      assert Hits(s', a, cfg) == Hits(s, a, cfg) + {s.flight[id].at};
    }
  }

  /** The count of a check while the window is still open to new prunes. */
  lemma CardKeepsOpen(s: Shared, id: nat, s': Shared, a: int, cfg: Config, c: nat)
    requires Inv(s, a, cfg, c) && Step(s, Card(id), s', cfg, c) && AdmittedWereCounted(s)
    requires s.latest < a + cfg.window
    ensures |Hits(s', a, cfg)| <= cfg.max + c - 1
    ensures forall x :: x in Hits(s', a, cfg) ==> x in s'.members || Pending(s', x)
  {
    CountedHits(s, id, s', a, cfg, c);
    if Hits(s', a, cfg) != Hits(s, a, cfg) {
      AdmittingCount(s, id, a, cfg, c);
    }
    forall x | x in Hits(s', a, cfg)
      ensures x in s'.members || Pending(s', x)
    {
      if x !in Hits(s, a, cfg) {
        assert s'.flight[id].admitted && s'.flight[id].at == x;
      } else if x !in s.members {
        var k :| k in s.flight && s.flight[k].admitted && s.flight[k].at == x;
        assert k in s'.flight && s'.flight[k].admitted && s'.flight[k].at == x;
      }
    }
  }

  /** The count of a check that had pruned before the window was passed. */
  lemma CardKeepsPassed(s: Shared, id: nat, s': Shared, a: int, cfg: Config, c: nat)
    requires Step(s, Card(id), s', cfg, c)
    ensures |Hits(s', a, cfg)| + |Undecided(s', a, cfg)| <= |Hits(s, a, cfg)| + |Undecided(s, a, cfg)|
  {
    CountedHits(s, id, s', a, cfg, c);
    assert Undecided(s', a, cfg) == Undecided(s, a, cfg) - {id};
    if Hits(s', a, cfg) != Hits(s, a, cfg) {
      assert id in Undecided(s, a, cfg);
    }
  }

  lemma CardKeeps(s: Shared, e: Command, s': Shared, a: int, cfg: Config, c: nat)
    requires Inv(s, a, cfg, c) && Step(s, e, s', cfg, c) && e.Card? && AdmittedWereCounted(s)
    ensures Inv(s', a, cfg, c)
  {
    assert s'.flight.Keys == s.flight.Keys && |s'.flight.Keys| == |s.flight.Keys|;
    if s.latest < a + cfg.window {
      CardKeepsOpen(s, e.id, s', a, cfg, c);
    } else {
      CardKeepsPassed(s, e.id, s', a, cfg, c);
    }
  }

  lemma AddKeeps(s: Shared, e: Command, s': Shared, a: int, cfg: Config, c: nat)
    requires Inv(s, a, cfg, c) && Step(s, e, s', cfg, c) && e.Add?
    ensures Inv(s', a, cfg, c)
  {
    assert s'.flight.Keys == s.flight.Keys - {e.id};
    assert |s'.flight.Keys| == |s.flight.Keys| - 1;
    assert Hits(s', a, cfg) == Hits(s, a, cfg);
    if s.latest < a + cfg.window {
      forall x | x in Hits(s', a, cfg)
        ensures x in s'.members || Pending(s', x)
      {
        if x !in s'.members {
          var id :| id in s.flight && s.flight[id].admitted && s.flight[id].at == x;
          assert id in s'.flight && s'.flight[id] == s.flight[id];
        }
      }
    } else {
      assert Undecided(s', a, cfg) == Undecided(s, a, cfg);
    }
  }

  lemma {:induction false} RunInv(ss: seq<Shared>, es: seq<Command>, a: int, cfg: Config, c: nat, n: nat)
    requires Run(ss, es, cfg, c) && n < |ss| && cfg.window > 0 && cfg.max >= 0 && c >= 1
    ensures Inv(ss[n], a, cfg, c) && AdmittedWereCounted(ss[n])
  {
    if n == 0 {
      assert Hits(ss[0], a, cfg) == {} && Undecided(ss[0], a, cfg) == {};
    } else {
      RunInv(ss, es, a, cfg, c, n - 1);
      var s, e, s' := ss[n - 1], es[n - 1], ss[n];
      assert Step(s, e, ss[n - 1 + 1], cfg, c);
      match e
      case Prune(_, _) => PruneKeeps(s, e, s', a, cfg, c);
      case Card(_) => CardKeeps(s, e, s', a, cfg, c);
      case Add(_) => AddKeeps(s, e, s', a, cfg, c);
    }
  }

  /** With c checks in flight, any half-open window has at most max + 2(c - 1) distinct admitted instants. */
  lemma InterleavedBound(ss: seq<Shared>, es: seq<Command>, a: int, cfg: Config, c: nat, n: nat)
    requires Run(ss, es, cfg, c) && n < |ss| && cfg.window > 0 && cfg.max >= 0 && c >= 1
    ensures |Hits(ss[n], a, cfg)| <= cfg.max + 2 * (c - 1)
  {
    RunInv(ss, es, a, cfg, c, n);
  }

  // ----- runs that attain the bound -----

  function Uncounted(at: int): Flight {
    Flight(at, false, false)
  }

  function Granted(at: int): Flight {
    Flight(at, true, true)
  }

  /** The instants 1 to n. */
  function Upto(n: nat): set<int> {
    if n == 0 then {} else Upto(n - 1) + {n}
  }

  lemma {:induction false} UptoIs(n: nat)
    ensures |Upto(n)| == n && forall x :: x in Upto(n) <==> 1 <= x <= n
  {
    if n == 0 {
    } else {
      UptoIs(n - 1);
    }
  }

  function Overlapping(id: nat, granted: nat, max: nat): Flight {
    if id <= granted then Granted(max - 1 + id) else Uncounted(max - 1 + id)
  }

  /** Checks `lo` to `hi` in flight, check `id` at instant max - 1 + id; those up to `granted` are admitted. */
  function Flights(lo: nat, hi: nat, granted: nat, max: nat): map<nat, Flight>
    decreases hi + 1 - lo
  {
    if lo > hi then map[] else Flights(lo + 1, hi, granted, max)[lo := Overlapping(lo, granted, max)]
  }

  lemma {:induction false} FlightsAre(lo: nat, hi: nat, granted: nat, max: nat)
    requires lo <= hi + 1
    ensures var f := Flights(lo, hi, granted, max);
      && |f| == hi + 1 - lo
      && (forall id :: id in f <==> lo <= id <= hi)
      && (forall id :: id in f ==> f[id] == Overlapping(id, granted, max))
    decreases hi + 1 - lo
  {
    if lo > hi {
    } else {
      FlightsAre(lo + 1, hi, granted, max);
    }
  }

  lemma OneMoreFlight(lo: nat, hi: nat, granted: nat, max: nat)
    requires lo <= hi + 1 && granted <= hi
    ensures hi + 1 !in Flights(lo, hi, granted, max) && |Flights(lo, hi, granted, max)| == hi + 1 - lo
    ensures Flights(lo, hi, granted, max)[hi + 1 := Uncounted(max + hi)] == Flights(lo, hi + 1, granted, max)
  {
    FlightsAre(lo, hi, granted, max);
    FlightsAre(lo, hi + 1, granted, max);
  }

  lemma FirstFlightLeaves(lo: nat, hi: nat, granted: nat, max: nat)
    requires lo <= hi && lo <= granted
    ensures lo in Flights(lo, hi, granted, max) && Flights(lo, hi, granted, max)[lo] == Granted(max - 1 + lo)
    ensures Flights(lo, hi, granted, max) - {lo} == Flights(lo + 1, hi, granted, max)
  {
    FlightsAre(lo, hi, granted, max);
    FlightsAre(lo + 1, hi, granted, max);
  }

  lemma NextFlightGranted(lo: nat, hi: nat, granted: nat, max: nat)
    requires lo <= granted + 1 <= hi
    ensures granted + 1 in Flights(lo, hi, granted, max)
    ensures Flights(lo, hi, granted, max)[granted + 1] == Uncounted(max + granted)
    ensures Flights(lo, hi, granted, max)[granted + 1 := Granted(max + granted)] == Flights(lo, hi, granted + 1, max)
  {
    FlightsAre(lo, hi, granted, max);
    FlightsAre(lo, hi, granted + 1, max);
  }

  ghost predicate Reachable(s: Shared, cfg: Config, c: nat) {
    exists ss, es :: Run(ss, es, cfg, c) && ss[|es|] == s
  }

  lemma Reach(s: Shared, e: Command, s': Shared, cfg: Config, c: nat)
    requires Reachable(s, cfg, c) && Step(s, e, s', cfg, c)
    ensures Reachable(s', cfg, c)
  {
    var ss, es :| Run(ss, es, cfg, c) && ss[|es|] == s;
    var ss', es' := ss + [s'], es + [e];
    forall i | 0 <= i < |es'|
      ensures Step(ss'[i], es'[i], ss'[i + 1], cfg, c)
    {
      if i < |es| {
        assert Step(ss[i], es[i], ss[i + 1], cfg, c);
      }
    }
    assert Run(ss', es', cfg, c);
  }

  /** A limit, a number of checks in flight, and a window long enough to hold all the instants used below. */
  predicate Roomy(cfg: Config, c: nat) {
    cfg.max >= 1 && c >= 1 && cfg.window >= cfg.max + 2 * (c - 1)
  }

  lemma NothingToPrune(n: nat, now: int, cfg: Config)
    requires now <= cfg.window
    ensures Live(Upto(n), now, cfg) == Upto(n)
  {
    UptoIs(n);
  }

  lemma PruneStep(s: Shared, id: nat, at: int, s': Shared, cfg: Config, c: nat)
    requires Reachable(s, cfg, c) && id !in s.flight && |s.flight| < c && s.latest <= at
    requires s' == Shared(Live(s.members, at, cfg), s.flight[id := Uncounted(at)], at, s.admitted)
    ensures Reachable(s', cfg, c)
  {
    Reach(s, Prune(id, at), s', cfg, c);
  }

  lemma CardStep(s: Shared, id: nat, at: int, s': Shared, cfg: Config, c: nat)
    requires Reachable(s, cfg, c) && id in s.flight && s.flight[id] == Uncounted(at) && |s.members| < cfg.max
    requires s' == Shared(s.members, s.flight[id := Granted(at)], s.latest, s.admitted + {at})
    ensures Reachable(s', cfg, c)
  {
    Reach(s, Card(id), s', cfg, c);
  }

  lemma AddStep(s: Shared, id: nat, at: int, s': Shared, cfg: Config, c: nat)
    requires Reachable(s, cfg, c) && id in s.flight && s.flight[id] == Granted(at)
    requires s' == Shared(s.members + {at}, s.flight - {id}, s.latest, s.admitted)
    ensures Reachable(s', cfg, c)
  {
    Reach(s, Add(id), s', cfg, c);
  }

  /** One check after the other, up to one below the limit. */
  function Separate(k: nat): Shared {
    Shared(Upto(k), map[], k, Upto(k))
  }

  lemma {:induction false} SeparateHits(k: nat, cfg: Config, c: nat)
    requires Roomy(cfg, c) && k < cfg.max
    ensures Reachable(Separate(k), cfg, c)
  {
    if k == 0 {
      assert Run([Init(0)], [], cfg, c);
    } else {
      SeparateHits(k - 1, cfg, c);
      UptoIs(k - 1);
      NothingToPrune(k - 1, k, cfg);
      OneHit(Upto(k - 1), k, cfg, c);
    }
  }

  lemma OneHit(z: set<int>, k: nat, cfg: Config, c: nat)
    requires k >= 1 && c >= 1 && Reachable(Shared(z, map[], k - 1, z), cfg, c) && |z| < cfg.max && Live(z, k, cfg) == z
    ensures Reachable(Shared(z + {k}, map[], k, z + {k}), cfg, c)
  {
    var s1 := Shared(z, map[0 := Uncounted(k)], k, z);
    var s2 := Shared(z, map[0 := Granted(k)], k, z + {k});
    PruneStep(Shared(z, map[], k - 1, z), 0, k, s1, cfg, c);
    assert s1.flight[0 := Granted(k)] == s2.flight;
    CardStep(s1, 0, k, s2, cfg, c);
    assert s2.flight - {0} == map[];
    AddStep(s2, 0, k, Shared(z + {k}, map[], k, z + {k}), cfg, c);
  }

  /** Then `m` of `c` checks have pruned. */
  function Pruned(m: nat, max: nat): Shared
    requires max >= 1
  {
    Shared(Upto(max - 1), Flights(1, m, 0, max), max - 1 + m, Upto(max - 1))
  }

  lemma {:induction false} Overlap(m: nat, cfg: Config, c: nat)
    requires Roomy(cfg, c) && m <= c
    ensures Reachable(Pruned(m, cfg.max), cfg, c)
  {
    if m == 0 {
      SeparateHits(cfg.max - 1, cfg, c);
      assert Pruned(0, cfg.max) == Separate(cfg.max - 1);
    } else {
      Overlap(m - 1, cfg, c);
      OneMoreFlight(1, m - 1, 0, cfg.max);
      NothingToPrune(cfg.max - 1, cfg.max - 1 + m, cfg);
      PruneStep(Pruned(m - 1, cfg.max), m, cfg.max - 1 + m, Pruned(m, cfg.max), cfg, c);
    }
  }

  /** All `c` have pruned and `m` of them have been admitted: none of them is in the set yet. */
  function Admissions(m: nat, max: nat, c: nat): Shared
    requires max >= 1
  {
    Shared(Upto(max - 1), Flights(1, c, m, max), max - 1 + c, Upto(max - 1 + m))
  }

  /** Counting check `id`, which pruned at `at`, makes `s'` of `s` and admits it. */
  predicate Admits(s: Shared, id: nat, at: int, s': Shared, cfg: Config) {
    && id in s.flight && s.flight[id] == Uncounted(at) && |s.members| < cfg.max
    && s' == Shared(s.members, s.flight[id := Granted(at)], s.latest, s.admitted + {at})
  }

  lemma AdmitStep(s: Shared, id: nat, at: int, s': Shared, cfg: Config, c: nat)
    requires Reachable(s, cfg, c) && Admits(s, id, at, s', cfg)
    ensures Reachable(s', cfg, c)
  {
    CardStep(s, id, at, s', cfg, c);
  }

  lemma NextAdmission(m: nat, cfg: Config, c: nat)
    requires cfg.max >= 1 && 1 <= m <= c
    ensures Admits(Admissions(m - 1, cfg.max, c), m, cfg.max - 1 + m, Admissions(m, cfg.max, c), cfg)
  {
    UptoSize(cfg.max - 1);
    NextFlightGranted(1, c, m - 1, cfg.max);
    assert Upto(cfg.max - 1 + m) == Upto(cfg.max - 1 + m - 1) + {cfg.max - 1 + m};
  }

  lemma UptoSize(n: nat)
    ensures |Upto(n)| == n
  {
    UptoIs(n);
  }

  lemma {:induction false} OverlapAdmitted(m: nat, cfg: Config, c: nat)
    requires Roomy(cfg, c) && m <= c
    ensures Reachable(Admissions(m, cfg.max, c), cfg, c)
  {
    if m == 0 {
      Overlap(c, cfg, c);
      assert Admissions(0, cfg.max, c) == Pruned(c, cfg.max);
    } else {
      OverlapAdmitted(m - 1, cfg, c);
      NextAdmission(m, cfg, c);
      AdmitStep(Admissions(m - 1, cfg.max, c), m, cfg.max - 1 + m, Admissions(m, cfg.max, c), cfg, c);
    }
  }

  /** One by one `m` of the admitted checks have added themselves, and after each a straggler has pruned. */
  function Straggling(m: nat, max: nat, c: nat): Shared
    requires max >= 1
  {
    Shared(Upto(max - 1 + m), Flights(m + 1, c + m, c, max), max - 1 + c + m, Upto(max - 1 + c))
  }

  /** The same when one more admitted check has added itself and made room for the next prune. */
  function Freed(m: nat, max: nat, c: nat): Shared
    requires max >= 1 && m + c >= 1
  {
    Shared(Upto(max - 1 + m), Flights(m + 1, c + m - 1, c, max), max - 2 + c + m, Upto(max - 1 + c))
  }

  lemma AddsItself(m: nat, cfg: Config, c: nat)
    requires Roomy(cfg, c) && 1 <= m <= c && Reachable(Straggling(m - 1, cfg.max, c), cfg, c)
    ensures Reachable(Freed(m, cfg.max, c), cfg, c)
  {
    FirstFlightLeaves(m, c + m - 1, c, cfg.max);
    var s, s' := Straggling(m - 1, cfg.max, c), Freed(m, cfg.max, c);
    assert s'.members == s.members + {cfg.max - 1 + m};
    assert s'.flight == s.flight - {m};
    AddStep(s, m, cfg.max - 1 + m, s', cfg, c);
  }

  lemma {:induction false} Stragglers(m: nat, cfg: Config, c: nat)
    requires Roomy(cfg, c) && m < c
    ensures Reachable(Straggling(m, cfg.max, c), cfg, c)
  {
    if m == 0 {
      OverlapAdmitted(c, cfg, c);
      assert Straggling(0, cfg.max, c) == Admissions(c, cfg.max, c);
    } else {
      Stragglers(m - 1, cfg, c);
      AddsItself(m, cfg, c);
      OneMoreFlight(m + 1, c + m - 1, c, cfg.max);
      NothingToPrune(cfg.max - 1 + m, cfg.max - 1 + c + m, cfg);
      PruneStep(Freed(m, cfg.max, c), c + m, cfg.max - 1 + c + m, Straggling(m, cfg.max, c), cfg, c);
    }
  }

  /** The instant of a check that prunes after the whole window has passed. */
  function Late(cfg: Config, c: nat): int {
    cfg.max + 2 * (c - 1) + cfg.window
  }

  /** That check has emptied the set, and then `m` stragglers have been admitted after all. */
  function Overtaken(m: nat, cfg: Config, c: nat): Shared
    requires Roomy(cfg, c)
  {
    Shared({}, Flights(c + 1, 2 * c - 1, c + m, cfg.max)[2 * c := Uncounted(Late(cfg, c))], Late(cfg, c),
           Upto(cfg.max - 1 + c + m))
  }

  /** Check `id`, pruning at `late`, makes `s'` of `s` and empties the set. */
  predicate Empties(s: Shared, id: nat, late: int, s': Shared, cfg: Config, c: nat) {
    && id !in s.flight && |s.flight| < c && s.latest <= late
    && (forall x :: x in s.members ==> x <= late - cfg.window)
    && s' == Shared({}, s.flight[id := Uncounted(late)], late, s.admitted)
  }

  lemma EmptyingStep(s: Shared, id: nat, late: int, s': Shared, cfg: Config, c: nat)
    requires Reachable(s, cfg, c) && Empties(s, id, late, s', cfg, c)
    ensures Reachable(s', cfg, c)
  {
    assert Live(s.members, late, cfg) == {};
    PruneStep(s, id, late, s', cfg, c);
  }

  lemma StragglersInFlight(max: nat, c: nat)
    requires c >= 1
    ensures var f := Flights(c + 1, 2 * c - 1, c, max); 2 * c !in f && |f| == c - 1
  {
    FlightsAre(c + 1, 2 * c - 1, c, max);
  }

  lemma UptoBounded(n: nat, bound: int)
    requires n <= bound
    ensures forall x :: x in Upto(n) ==> x <= bound
  {
    UptoIs(n);
  }

  lemma LateCheckEmpties(cfg: Config, c: nat)
    requires Roomy(cfg, c)
    ensures Empties(Freed(c, cfg.max, c), 2 * c, Late(cfg, c), Overtaken(0, cfg, c), cfg, c)
  {
    StragglersInFlight(cfg.max, c);
    UptoBounded(cfg.max - 1 + c, Late(cfg, c) - cfg.window);
  }

  lemma LateCheck(cfg: Config, c: nat)
    requires Roomy(cfg, c)
    ensures Reachable(Overtaken(0, cfg, c), cfg, c)
  {
    Stragglers(c - 1, cfg, c);
    AddsItself(c, cfg, c);
    LateCheckEmpties(cfg, c);
    EmptyingStep(Freed(c, cfg.max, c), 2 * c, Late(cfg, c), Overtaken(0, cfg, c), cfg, c);
  }

  lemma Swap<K, V>(f: map<K, V>, k: K, a: V, l: K, b: V)
    requires k != l
    ensures f[k := a][l := b] == f[l := b][k := a]
  {
  }

  lemma {:induction false} StragglersAdmitted(m: nat, cfg: Config, c: nat)
    requires Roomy(cfg, c) && m < c
    ensures Reachable(Overtaken(m, cfg, c), cfg, c)
  {
    if m == 0 {
      LateCheck(cfg, c);
    } else {
      StragglersAdmitted(m - 1, cfg, c);
      var f, at := Flights(c + 1, 2 * c - 1, c + m - 1, cfg.max), cfg.max - 1 + c + m;
      NextFlightGranted(c + 1, 2 * c - 1, c + m - 1, cfg.max);
      Swap(f, 2 * c, Uncounted(Late(cfg, c)), c + m, Granted(at));
      CardStep(Overtaken(m - 1, cfg, c), c + m, at, Overtaken(m, cfg, c), cfg, c);
    }
  }

  /** The bound is attained for every limit, every number of checks in flight and every window with that many
      microseconds. */
  lemma BoundIsReached(cfg: Config, c: nat) returns (ss: seq<Shared>, es: seq<Command>)
    requires cfg.max >= 1 && c >= 1 && cfg.window >= cfg.max + 2 * (c - 1)
    ensures Run(ss, es, cfg, c)
    ensures |Hits(ss[|es|], 1, cfg)| == cfg.max + 2 * (c - 1)
  {
    StragglersAdmitted(c - 1, cfg, c);
    var n := cfg.max + 2 * (c - 1);
    ss, es :| Run(ss, es, cfg, c) && ss[|es|] == Overtaken(c - 1, cfg, c);
    UptoIs(n);
    assert Hits(ss[|es|], 1, cfg) == Upto(n);
  }
}
