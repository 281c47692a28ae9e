/**
  `ModelRouter`: circuit breakers and the choice of routes.
 */
module Router {
  import opened Wrappers

  datatype Strategy = Priority | WeightedRoundRobin

  datatype Route = Route(provider: string, model: string, weight: nat, protocols: set<string>)

  datatype Circuit = Circuit(failures: nat, openedAt: Option<real>)

  datatype Alias = Alias(strategy: Strategy, routes: seq<Route>)

  datatype Settings = Settings(models: map<string, Alias>, enabled: set<string>, threshold: nat, cooldown: real)

  datatype Choice = Routes(routes: seq<Route>) | UnknownModel | UnsupportedProtocol | NoHealthyRoute

  predicate ValidSettings(cfg: Settings) {
    && cfg.threshold >= 1 && cfg.cooldown >= 0.0
    && forall m :: m in cfg.models ==>
         forall i :: 0 <= i < |cfg.models[m].routes| ==> cfg.models[m].routes[i].weight >= 1
  }

  type Circuits = map<string, Circuit>

  const CLOSED: Circuit := Circuit(0, None)

  function CircuitOf(circuits: Circuits, provider: string): Circuit {
    if provider in circuits then circuits[provider] else CLOSED
  }

  // ---------- circuit breakers ----------

  /** `_is_available`: open circuits close again after the cooldown. */
  predicate Available(cfg: Settings, circuits: Circuits, provider: string, now: real) {
    var c := CircuitOf(circuits, provider);
    c.openedAt.None? || now - c.openedAt.value >= cfg.cooldown
  }

  function Probed(cfg: Settings, circuits: Circuits, provider: string, now: real): Circuits {
    if provider in circuits && circuits[provider].openedAt.Some? && Available(cfg, circuits, provider, now)
    then circuits[provider := CLOSED] else circuits
  }

  /** Probing closes a circuit whose cooldown is over, and changes no answer at this time or later. */
  lemma ProbingKeepsAvailable(cfg: Settings, circuits: Circuits, provider: string, p: string, now: real, t: real)
    requires now <= t
    ensures Available(cfg, Probed(cfg, circuits, provider, now), p, t) == Available(cfg, circuits, p, t)
  {
  }

  function AfterFailure(cfg: Settings, circuits: Circuits, provider: string, now: real): Circuits {
    var failures := CircuitOf(circuits, provider).failures + 1;
    circuits[provider := Circuit(failures, if failures >= cfg.threshold then Some(now)
        else CircuitOf(circuits, provider).openedAt)]
  }

  /** A circuit is open exactly when the failures since it last closed reached the threshold. */
  predicate Consistent(cfg: Settings, circuits: Circuits) {
    forall p :: p in circuits ==> (circuits[p].openedAt.Some? <==> circuits[p].failures >= cfg.threshold)
  }

  lemma CircuitsStayConsistent(cfg: Settings, circuits: Circuits, provider: string, now: real)
    requires ValidSettings(cfg) && Consistent(cfg, circuits)
    ensures Consistent(cfg, AfterFailure(cfg, circuits, provider, now))
    ensures Consistent(cfg, circuits[provider := CLOSED])
    ensures Consistent(cfg, Probed(cfg, circuits, provider, now))
  {
  }

  /** `n` failures in a row, at one time each. */
  function AfterFailures(cfg: Settings, circuits: Circuits, provider: string, times: seq<real>): Circuits
    decreases |times|
  {
    if times == [] then circuits else AfterFailures(cfg, AfterFailure(cfg, circuits, provider, times[0]), provider,
        times[1..])
  }

  /**
    A provider that just answered is dropped after exactly `threshold` failures in a row, until the
    cooldown since the last of them is over; the other providers are not touched.
   */
  lemma {:induction false} FailuresOpenTheCircuit(cfg: Settings, circuits: Circuits, provider: string, times: seq<real>)
    requires ValidSettings(cfg) && Consistent(cfg, circuits)
    ensures var after := AfterFailures(cfg, circuits, provider, times);
            && CircuitOf(after, provider).failures == CircuitOf(circuits, provider).failures + |times|
            && (times != [] && CircuitOf(after, provider).failures >= cfg.threshold ==>
                  CircuitOf(after, provider).openedAt == Some(times[|times| - 1]))
            && (CircuitOf(after, provider).failures < cfg.threshold
                ==> forall now :: Available(cfg, after, provider, now))
            && (forall q :: q != provider ==>
                  (q in after <==> q in circuits) && CircuitOf(after, q) == CircuitOf(circuits, q))
    decreases |times|
  {
    if times != [] {
      CircuitsStayConsistent(cfg, circuits, provider, times[0]);
      FailuresOpenTheCircuit(cfg, AfterFailure(cfg, circuits, provider, times[0]), provider, times[1..]);
    }
  }

  /**
    A provider that just answered, or was never asked, is dropped by exactly `threshold` failures in a
    row, and only until the cooldown since the last of them is over.
   */
  lemma AnsweredProviderIsDropped(cfg: Settings, circuits: Circuits, provider: string, times: seq<real>, now: real)
    requires ValidSettings(cfg) && Consistent(cfg, circuits)
    requires provider in circuits ==> circuits[provider] == CLOSED
    ensures Available(cfg, AfterFailures(cfg, circuits, provider, times), provider, now)
            <==> |times| < cfg.threshold || times[|times| - 1] + cfg.cooldown <= now
    ensures CircuitOf(circuits[provider := CLOSED], provider).failures == 0
  {
    FailuresOpenTheCircuit(cfg, circuits, provider, times);
  }

  // ---------- choosing ----------

  function Matching(routes: seq<Route>, protocol: string): seq<Route> {
    if routes == [] then []
    else (if protocol in routes[0].protocols then [routes[0]] else []) + Matching(routes[1..], protocol)
  }

  predicate Usable(cfg: Settings, circuits: Circuits, route: Route, now: real) {
    route.provider in cfg.enabled && Available(cfg, circuits, route.provider, now)
  }

  function Healthy(cfg: Settings, circuits: Circuits, routes: seq<Route>, now: real): seq<Route> {
    if routes == [] then []
    else (if Usable(cfg, circuits, routes[0], now) then [routes[0]] else []) + Healthy(cfg, circuits, routes[1..], now)
  }

  /** Each route as often as it weighs. */
  function Weighted(routes: seq<Route>): seq<Route> {
    if routes == [] then [] else seq(routes[0].weight, _ => routes[0]) + Weighted(routes[1..])
  }

  function Without(routes: seq<Route>, primary: Route): seq<Route> {
    if routes == [] then []
    else (if routes[0] == primary then [] else [routes[0]]) + Without(routes[1..], primary)
  }

  /** The answer number `n` for one list of available routes. */
  function Ordered(available: seq<Route>, n: nat): seq<Route>
    requires Weighted(available) != []
  {
    var weighted := Weighted(available);
    var primary := weighted[n % |weighted|];
    [primary] + Without(available, primary)
  }

  predicate Weighty(routes: seq<Route>) {
    forall i :: 0 <= i < |routes| ==> routes[i].weight >= 1
  }

  lemma WeightedNotEmpty(routes: seq<Route>)
    requires routes != [] && Weighty(routes)
    ensures Weighted(routes) != []
  {
  }

  lemma {:induction false} SelectionKeepsWeights(cfg: Settings, circuits: Circuits, routes: seq<Route>,
      protocol: string, now: real)
    requires Weighty(routes)
    ensures Weighty(Matching(routes, protocol)) && Weighty(Healthy(cfg, circuits, routes, now))
    decreases |routes|
  {
    hide Usable;
    if routes != [] {
      SelectionKeepsWeights(cfg, circuits, routes[1..], protocol, now);
    }
  }

  /** The route speaks the protocol, its provider is switched on, and is not cooling down. */
  predicate Offered(cfg: Settings, circuits: Circuits, r: Route, protocol: string, now: real) {
    && protocol in r.protocols && r.provider in cfg.enabled
    && (r.provider in circuits && circuits[r.provider].openedAt.Some? ==>
          circuits[r.provider].openedAt.value + cfg.cooldown <= now)
  }

  lemma {:induction false} MatchesInOrder(a: seq<Route>, b: seq<Route>, protocol: string)
    ensures Matching(a + b, protocol) == Matching(a, protocol) + Matching(b, protocol)
    decreases |a|
  {
    if a == [] {
      assert a + b == b;
    } else {
      assert (a + b)[1..] == a[1..] + b;
      MatchesInOrder(a[1..], b, protocol);
    }
  }

  lemma {:induction false} HealthyInOrder(cfg: Settings, circuits: Circuits, a: seq<Route>, b: seq<Route>, now: real)
    ensures Healthy(cfg, circuits, a + b, now) == Healthy(cfg, circuits, a, now) + Healthy(cfg, circuits, b, now)
    decreases |a|
  {
    hide Usable;
    if a == [] {
      assert a + b == b;
    } else {
      assert (a + b)[1..] == a[1..] + b;
      HealthyInOrder(cfg, circuits, a[1..], b, now);
    }
  }

  /** Selecting looks at one route at a time, and keeps their order. */
  lemma SelectsInOrder(cfg: Settings, circuits: Circuits, a: seq<Route>, b: seq<Route>, protocol: string, now: real)
    ensures Matching(a + b, protocol) == Matching(a, protocol) + Matching(b, protocol)
    ensures Healthy(cfg, circuits, Matching(a + b, protocol), now)
         == Healthy(cfg, circuits, Matching(a, protocol), now) + Healthy(cfg, circuits, Matching(b, protocol), now)
  {
    hide Matching, Healthy;
    MatchesInOrder(a, b, protocol);
    HealthyInOrder(cfg, circuits, Matching(a, protocol), Matching(b, protocol), now);
  }

  lemma SelectsOne(cfg: Settings, circuits: Circuits, r: Route, protocol: string, now: real)
    ensures Matching([r], protocol) == if protocol in r.protocols then [r] else []
    ensures Healthy(cfg, circuits, Matching([r], protocol), now)
         == if Offered(cfg, circuits, r, protocol, now) then [r] else []
  {
    assert [r][1..] == [];
  }

  /** No route is left exactly if none is offered, and no match exactly if none speaks the protocol. */
  lemma {:induction false} SelectsExactly(cfg: Settings, circuits: Circuits, routes: seq<Route>, protocol: string,
                                          now: real)
    ensures Matching(routes, protocol) == [] <==> forall r :: r in routes ==> protocol !in r.protocols
    ensures forall r :: r in Healthy(cfg, circuits, Matching(routes, protocol), now)
                        <==> r in routes && Offered(cfg, circuits, r, protocol, now)
    decreases |routes|
  {
    hide Offered, Healthy;
    if routes == [] {
      NoneHealthy(cfg, circuits, now);
    } else {
      var first, rest := [routes[0]], routes[1..];
      assert routes == first + rest;
      SelectsExactly(cfg, circuits, rest, protocol, now);
      SelectsOne(cfg, circuits, routes[0], protocol, now);
      SelectsInOrder(cfg, circuits, first, rest, protocol, now);
    }
  }

  lemma NoneHealthy(cfg: Settings, circuits: Circuits, now: real)
    ensures Healthy(cfg, circuits, [], now) == []
  {
  }

  class ModelRouter {
    const cfg: Settings
    var circuits: Circuits
    var counters: map<string, nat>

    constructor (cfg: Settings)
      ensures this.cfg == cfg && circuits == map[] && counters == map[]
    {
      this.cfg := cfg;
      circuits := map[];
      counters := map[];
    }

    method RecordSuccess(provider: string)
      modifies this`circuits
      ensures circuits == old(circuits)[provider := CLOSED]
    {
      circuits := circuits[provider := CLOSED];
    }

    method RecordFailure(provider: string, now: real)
      modifies this`circuits
      ensures circuits == AfterFailure(cfg, old(circuits), provider, now)
    {
      var state := CircuitOf(circuits, provider);
      var failures := state.failures + 1;
      var openedAt := state.openedAt;
      if failures >= cfg.threshold {
        openedAt := Some(now);
      }
      circuits := circuits[provider := Circuit(failures, openedAt)];
    }

    method IsAvailable(provider: string, now: real) returns (ok: bool)
      modifies this`circuits
      ensures ok == Available(cfg, old(circuits), provider, now)
      ensures circuits == Probed(cfg, old(circuits), provider, now)
    {
      if provider !in circuits || circuits[provider].openedAt.None? {
        return true;
      }
      if now - circuits[provider].openedAt.value >= cfg.cooldown {
        circuits := circuits[provider := CLOSED];
        return true;
      }
      return false;
    }

    /** The availability filter; it probes the circuits as it goes. */
    method Filter(matching: seq<Route>, now: real) returns (available: seq<Route>)
      modifies this`circuits
      ensures available == Healthy(cfg, old(circuits), matching, now)
      ensures forall p, t :: now <= t ==> Available(cfg, circuits, p, t) == Available(cfg, old(circuits), p, t)
    {
      hide Available, Probed;
      available := [];
      ghost var start := circuits;
      var i := 0;
      while i < |matching|
        invariant 0 <= i <= |matching|
        invariant available + Healthy(cfg, start, matching[i..], now) == Healthy(cfg, start, matching, now)
        invariant forall p, t :: now <= t ==> Available(cfg, circuits, p, t) == Available(cfg, start, p, t)
      {
        var route := matching[i];
        ghost var before := circuits;
        assert matching[i..][1..] == matching[i + 1..];
        if route.provider in cfg.enabled {
          var ok := IsAvailable(route.provider, now);
          forall p, t | now <= t ensures Available(cfg, circuits, p, t) == Available(cfg, before, p, t) {
            ProbingKeepsAvailable(cfg, before, route.provider, p, now, t);
          }
          if ok {
            available := available + [route];
          }
        }
        i := i + 1;
      }
      assert available + [] == available;
    }

    /** `candidates`. */
    method Candidates(model: string, protocol: string, now: real) returns (r: Choice)
      requires ValidSettings(cfg)
      modifies this
      ensures r.UnknownModel? <==> model !in cfg.models
      ensures model in cfg.models ==>
                var matching := Matching(cfg.models[model].routes, protocol);
                var available := Healthy(cfg, old(circuits), matching, now);
                var n := if model in old(counters) then old(counters)[model] else 0;
                if matching == [] then r == UnsupportedProtocol && counters == old(counters)
                else if available == [] then r == NoHealthyRoute && counters == old(counters)
                else if cfg.models[model].strategy.Priority? then r == Routes(available) && counters == old(counters)
                else && Weighted(available) != [] && r == Routes(Ordered(available, n))
                     && counters == old(counters)[model := n + 1]
      ensures forall p, t :: now <= t ==> Available(cfg, circuits, p, t) == Available(cfg, old(circuits), p, t)
    {
      hide Available;
      if model !in cfg.models {
        return UnknownModel;
      }
      var alias := cfg.models[model];
      var matching := Matching(alias.routes, protocol);
      if matching == [] {
        return UnsupportedProtocol;
      }
      var available := Filter(matching, now);
      if available == [] {
        return NoHealthyRoute;
      }
      if alias.strategy.Priority? {
        return Routes(available);
      }
      SelectionKeepsWeights(cfg, old(circuits), alias.routes, protocol, now);
      SelectionKeepsWeights(cfg, old(circuits), matching, protocol, now);
      WeightedNotEmpty(available);
      var weighted := Weighted(available);
      var n := if model in counters then counters[model] else 0;
      counters := counters[model := n + 1];
      var primary := weighted[n % |weighted|];
      return Routes([primary] + Without(available, primary));
    }
  }

  // ---------- fairness ----------

  predicate Distinct(routes: seq<Route>) {
    forall i, j :: 0 <= i < j < |routes| ==> routes[i] != routes[j]
  }

  function TotalWeight(routes: seq<Route>): nat {
    if routes == [] then 0 else routes[0].weight + TotalWeight(routes[1..])
  }

  /** Who comes first in `count` consecutive answers from number `n` on. */
  function Firsts(weighted: seq<Route>, n: nat, count: nat): seq<Route>
    requires weighted != []
  {
    seq(count, k => weighted[(n + k) % |weighted|])
  }

  lemma {:induction false} RepeatedCount(r: Route, s: Route, n: nat)
    ensures multiset(seq(n, _ => r))[s] == if r == s then n else 0
    decreases n
  {
    var all := seq(n, _ => r);
    if n > 0 {
      assert all == seq(n - 1, _ => r) + [r];
      RepeatedCount(r, s, n - 1);
    } else {
      assert all == [];
    }
  }

  lemma {:induction false} WeightedCounts(routes: seq<Route>, r: Route)
    requires Distinct(routes)
    ensures |Weighted(routes)| == TotalWeight(routes)
    ensures multiset(Weighted(routes))[r] == if r in routes then r.weight else 0
    decreases |routes|
  {
    if routes != [] {
      var first, rest := routes[0], routes[1..];
      RepeatedCount(first, r, first.weight);
      WeightedCounts(rest, r);
      assert r in routes <==> r == first || r in rest;
      NotAgain(routes);
    }
  }

  /** Once round: consecutive answers go through the weighted list from some point and wrap. */
  lemma FirstsRotate(weighted: seq<Route>, n: nat)
    requires weighted != []
    ensures Firsts(weighted, n, |weighted|) == weighted[n % |weighted|..] + weighted[..n % |weighted|]
  {
    var w, firsts := |weighted|, Firsts(weighted, n, |weighted|);
    var m := n % w;
    var rotated := weighted[m..] + weighted[..m];
    forall k | 0 <= k < w ensures firsts[k] == rotated[k] {
      WrapAround(n, k, w);
    }
  }

  lemma WrapAround(n: nat, k: nat, w: nat)
    requires k < w
    ensures (n + k) % w == if n % w + k < w then n % w + k else n % w + k - w
  {
    var q, m := n / w, n % w;
    assert n == q * w + m;
    if m + k < w {
      Remainder(n + k, q, m + k, w);
    } else {
      assert (q + 1) * w == q * w + w;
      Remainder(n + k, q + 1, m + k - w, w);
    }
  }

  lemma Remainder(x: nat, q: nat, r: nat, w: nat)
    requires r < w && x == q * w + r
    ensures x % w == r
  {
    var q', r' := x / w, x % w;
    assert x == q' * w + r';
    if q > q' {
      assert (q - q') * w == q * w - q' * w;
      AtLeastOnce(q - q', w);
    } else if q' > q {
      assert (q' - q) * w == q' * w - q * w;
      AtLeastOnce(q' - q, w);
    }
  }

  lemma AtLeastOnce(d: nat, w: nat)
    requires d >= 1
    ensures d * w >= w
  {
    assert d * w == (d - 1) * w + w;
  }

  lemma FirstsAreAnswers(available: seq<Route>, n: nat, count: nat)
    requires Weighted(available) != []
    ensures forall k :: 0 <= k < count ==> Firsts(Weighted(available), n, count)[k] == Ordered(available, n + k)[0]
  {
    hide Without, Weighted;
  }

  /**
    Over any full round of answers with the same available routes, each route is first exactly as
    often as it weighs.
   */
  lemma FirstExactlyByWeight(available: seq<Route>, n: nat, r: Route)
    requires Distinct(available) && Weighted(available) != []
    ensures |Weighted(available)| == TotalWeight(available)
    ensures multiset(Firsts(Weighted(available), n, TotalWeight(available)))[r] == if r in available then r.weight
            else 0
    ensures forall k :: 0 <= k < TotalWeight(available) ==>
              Firsts(Weighted(available), n, TotalWeight(available))[k] == Ordered(available, n + k)[0]
  {
    FirstsAreAnswers(available, n, TotalWeight(available));
    hide Firsts;
    var weighted := Weighted(available);
    var m := n % |weighted|;
    WeightedCounts(available, r);
    FirstsRotate(weighted, n);
    assert weighted == weighted[..m] + weighted[m..];
  }

  lemma {:induction false} WithoutOnce(routes: seq<Route>, primary: Route)
    requires Distinct(routes)
    ensures multiset(Without(routes, primary)) == multiset(routes) - multiset{primary}
    ensures primary !in Without(routes, primary)
    decreases |routes|
  {
    if routes != [] {
      WithoutOnce(routes[1..], primary);
      assert routes == [routes[0]] + routes[1..];
      if routes[0] == primary {
        NotAgain(routes);
      }
    }
  }

  lemma NotAgain(routes: seq<Route>)
    requires routes != [] && Distinct(routes)
    ensures routes[0] !in routes[1..]
    ensures multiset(routes[1..])[routes[0]] == 0
  {
    forall j | 0 <= j < |routes[1..]| ensures routes[1..][j] != routes[0] {
      assert routes[1..][j] == routes[j + 1];
    }
  }

  lemma {:induction false} WeightedComesFrom(routes: seq<Route>, i: nat)
    requires i < |Weighted(routes)|
    ensures Weighted(routes)[i] in routes
    decreases |routes|
  {
    if i >= routes[0].weight {
      WeightedComesFrom(routes[1..], i - routes[0].weight);
    }
  }

  lemma FrontPlusRest(available: seq<Route>, primary: Route)
    requires Distinct(available) && primary in available
    ensures multiset([primary] + Without(available, primary)) == multiset(available)
  {
    hide Without, Distinct;
    WithoutOnce(available, primary);
    assert primary in multiset(available);
    var rest := Without(available, primary);
    assert multiset([primary] + rest) == multiset{primary} + multiset(rest);
  }

  lemma FirstsOne(weighted: seq<Route>, n: nat)
    requires weighted != []
    ensures Firsts(weighted, n, 1) == [weighted[n % |weighted|]]
  {
  }

  /** Every answer is a permutation of the available routes, with the chosen one first. */
  lemma AnswersArePermutations(available: seq<Route>, n: nat)
    requires Distinct(available) && Weighted(available) != []
    ensures multiset(Ordered(available, n)) == multiset(available)
    ensures Ordered(available, n)[0] == Firsts(Weighted(available), n, 1)[0]
  {
    hide Without, Weighted, Distinct, Firsts;
    var weighted := Weighted(available);
    WeightedComesFrom(available, n % |weighted|);
    FrontPlusRest(available, weighted[n % |weighted|]);
    FirstsOne(weighted, n);
  }

  /** The others follow in the order in which they are configured. */
  lemma FallbacksKeepTheirOrder(available: seq<Route>, n: nat)
    requires Distinct(available) && Weighted(available) != []
    ensures exists i :: 0 <= i < |available|
                        && Ordered(available, n) == [available[i]] + available[..i] + available[i + 1..]
  {
    hide Weighted, Distinct, Without;
    var weighted := Weighted(available);
    var primary := weighted[n % |weighted|];
    WeightedComesFrom(available, n % |weighted|);
    var i :| 0 <= i < |available| && available[i] == primary;
    WithoutKeepsOrder(available, i);
    assert Ordered(available, n) == [available[i]] + available[..i] + available[i + 1..];
  }

  lemma {:induction false} WithoutKeepsOrder(routes: seq<Route>, i: nat)
    requires Distinct(routes) && i < |routes|
    ensures Without(routes, routes[i]) == routes[..i] + routes[i + 1..]
    decreases |routes|
  {
    if i == 0 {
      NotAgain(routes);
      WithoutAbsent(routes[1..], routes[0]);
    } else {
      assert routes[1..][i - 1] == routes[i];
      WithoutKeepsOrder(routes[1..], i - 1);
      assert routes[0] != routes[i];
      assert [routes[0]] + (routes[1..][..i - 1] + routes[1..][i..]) == routes[..i] + routes[i + 1..];
    }
  }

  lemma {:induction false} WithoutAbsent(routes: seq<Route>, r: Route)
    requires r !in routes
    ensures Without(routes, r) == routes
    decreases |routes|
  {
    if routes != [] {
      WithoutAbsent(routes[1..], r);
    }
  }

  // ---------- a full round of calls ----------

  lemma {:induction false} HealthySame(cfg: Settings, a: Circuits, b: Circuits, routes: seq<Route>, t: real)
    requires forall p :: Available(cfg, a, p, t) == Available(cfg, b, p, t)
    ensures Healthy(cfg, a, routes, t) == Healthy(cfg, b, routes, t)
    decreases |routes|
  {
    if routes != [] {
      HealthySame(cfg, a, b, routes[1..], t);
    }
  }

  /** The provider that each answer puts first. */
  function FirstOf(answers: seq<seq<Route>>): seq<Route>
    requires forall k :: 0 <= k < |answers| ==> answers[k] != []
  {
    seq(|answers|, k requires 0 <= k < |answers| => answers[k][0])
  }

  /**
    A caller that asks for candidates as often as the available routes weigh, while these stay the
    same, gets every answer, each a permutation of them, and each route first exactly as often as it
    weighs, wherever the rotation was.
   */
  method AskAround(router: ModelRouter, model: string, protocol: string, times: seq<real>, ghost available: seq<Route>)
    returns (answers: seq<seq<Route>>)
    requires var cfg := router.cfg;
             && ValidSettings(cfg) && model in cfg.models && cfg.models[model].strategy.WeightedRoundRobin?
             && available != [] && Distinct(available) && 0 < |times| == TotalWeight(available)
             && (forall i, j :: 0 <= i < j < |times| ==> times[i] <= times[j])
             && forall i :: 0 <= i < |times| ==>
                  Healthy(cfg, router.circuits, Matching(cfg.models[model].routes, protocol), times[i]) == available
    modifies router
    ensures |answers| == TotalWeight(available)
    ensures forall k :: 0 <= k < |answers| ==> answers[k] != [] && multiset(answers[k]) == multiset(available)
    ensures forall r :: multiset(FirstOf(answers))[r] == if r in available then r.weight else 0
  {
    hide Available, Healthy, Matching, Ordered, Weighted, Firsts, TotalWeight;
    ghost var cfg, start := router.cfg, router.circuits;
    ghost var matching := Matching(cfg.models[model].routes, protocol);
    ghost var n := if model in router.counters then router.counters[model] else 0;
    HealthyWeighs(cfg, start, cfg.models[model].routes, protocol, times, available);
    assert matching != [] by { NothingHealthy(cfg, start, matching, times, available); }
    answers := [];
    for k := 0 to |times|
      invariant |answers| == k
      invariant (if model in router.counters then router.counters[model] else 0) == n + k
      invariant forall p, t :: 0 < k && times[k - 1] <= t ==>
                  Available(cfg, router.circuits, p, t) == Available(cfg, start, p, t)
      invariant k == 0 ==> router.circuits == start
      invariant forall i :: 0 <= i < k ==> answers[i] == Ordered(available, n + i)
    {
      HealthySame(cfg, router.circuits, start, matching, times[k]);
      var choice := router.Candidates(model, protocol, times[k]);
      answers := answers + [choice.routes];
    }
    forall k | 0 <= k < |answers| ensures answers[k] != [] && multiset(answers[k]) == multiset(available) {
      AnswersArePermutations(available, n + k);
      OrderedNotEmpty(available, n + k);
    }
    forall r: Route ensures multiset(FirstOf(answers))[r] == if r in available then r.weight else 0 {
      FirstExactlyByWeight(available, n, r);
      FirstsLength(Weighted(available), n, TotalWeight(available));
      assert FirstOf(answers) == Firsts(Weighted(available), n, TotalWeight(available));
    }
  }

  lemma FirstsLength(weighted: seq<Route>, n: nat, count: nat)
    requires weighted != []
    ensures |Firsts(weighted, n, count)| == count
  {
  }

  lemma OrderedNotEmpty(available: seq<Route>, n: nat)
    requires Weighted(available) != []
    ensures Ordered(available, n) != []
  {
  }

  lemma HealthyWeighs(cfg: Settings, circuits: Circuits, routes: seq<Route>, protocol: string, times: seq<real>,
      available: seq<Route>)
    requires Weighty(routes) && available != []
    requires times != []
    requires forall i :: 0 <= i < |times| ==> Healthy(cfg, circuits, Matching(routes, protocol), times[i]) == available
    ensures Weighted(available) != []
  {
    SelectionKeepsWeights(cfg, circuits, routes, protocol, times[0]);
    SelectionKeepsWeights(cfg, circuits, Matching(routes, protocol), protocol, times[0]);
    WeightedNotEmpty(available);
  }

  lemma NothingHealthy(cfg: Settings, circuits: Circuits, matching: seq<Route>, times: seq<real>, available: seq<Route>)
    requires times != [] && available != [] && Healthy(cfg, circuits, matching, times[0]) == available
    ensures matching != []
  {
  }
}
