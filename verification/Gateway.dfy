/**
  `GatewayService.complete` and `GatewayService.stream`: one retry budget shared by nested loops over
  repairs, routes and tries.

  The upstream is an arbitrary function from the number of the call to its reply; what the router
  offers in each repair round is an arbitrary function of the round.
 */
module Gateway {
  import opened Capture
  import opened Wrappers

  /** `buildable`: the adapter can express the request for this route. */
  datatype Route = Route(name: nat, buildable: bool)

  datatype Failure = Failure(code: nat, retryable: bool)

  datatype Settings = Settings(perRequest: nat, perRoute: nat, repairs: nat, structured: bool)

  // ---------- the budget ----------

  class RetryBudget {
    const maxRetries: nat
    var attempts: nat

    constructor (maxRetries: nat)
      ensures this.maxRetries == maxRetries && attempts == 0
    {
      this.maxRetries := maxRetries;
      attempts := 0;
    }

    predicate Exhausted()
      reads this
    {
      attempts >= maxRetries + 1
    }

    method ConsumeAttempt() returns (ok: bool)
      modifies this
      ensures ok == !old(Exhausted())
      ensures attempts == old(attempts) + if ok then 1 else 0
    {
      if Exhausted() {
        return false;
      }
      attempts := attempts + 1;
      return true;
    }
  }

  // ---------- complete ----------

  /** Does the content satisfy the requested format?  `Unreadable`: its parser fails in another way. */
  datatype Content = Fits | Misfits | Unreadable

  datatype Reply = Body(raw: nat, content: Content) | Refused(failure: Failure)

  datatype Error = NoRoute | BadRequest | AllFailed(last: Option<Failure>) | InvalidContent | BadReply

  /** One upstream call: the repair round it was made in, and the place of its route in that round. */
  datatype Call = Call(round: nat, route: nat)

  /** How a request ends, after which upstream calls, and how many retries on a route and repairs. */
  datatype Completion = Completion(outcome: Outcome, calls: seq<Call>, retries: nat, repairs: nat)

  datatype Outcome = Completed(raw: nat) | Failed(error: Error)

  predicate Acceptable(cfg: Settings, reply: Reply) {
    reply.Body? && (cfg.structured ==> reply.content.Fits?)
  }

  /** May the same route be tried again after a failure of upstream call `k`? */
  predicate TriesAgain(cfg: Settings, failure: Failure, k: nat, tries: nat) {
    failure.retryable && tries < cfg.perRoute && k + 1 <= cfg.perRequest
  }

  /**
    The request as a flat machine: after the calls in `made`, the next one is try `tries` of route
    `route` in repair round `round`.  There are no loops here; only the budget limits it.
   */
  function Serve(cfg: Settings, candidates: nat -> Option<seq<Route>>, upstream: nat -> Reply,
                 made: seq<Call>, round: nat, route: nat, tries: nat, last: Option<Failure>, retries: nat): Completion
    decreases cfg.perRequest + 1 - |made|
  {
    var k, next := |made|, made + [Call(round, route)];
    if candidates(round).None? then Completion(Failed(NoRoute), made, retries, round)
    else
      var routes := candidates(round).value;
      if route >= |routes| || k > cfg.perRequest then Completion(Failed(AllFailed(last)), made, retries, round)
      else if tries == 0 && !routes[route].buildable then Completion(Failed(BadRequest), made, retries, round)
      else
        match upstream(k)
        case Refused(f) =>
          if TriesAgain(cfg, f, k, tries)
          then Serve(cfg, candidates, upstream, next, round, route, tries + 1, Some(f), retries + 1)
          else Serve(cfg, candidates, upstream, next, round, route + 1, 0, Some(f), retries)
        case Body(raw, content) =>
          if !cfg.structured || content.Fits? then Completion(Completed(raw), next, retries, round)
          else if content.Unreadable? then Completion(Failed(BadReply), next, retries, round)
          else if round >= cfg.repairs || k + 1 > cfg.perRequest
              then Completion(Failed(InvalidContent), next, retries, round)
          else Serve(cfg, candidates, upstream, next, round + 1, 0, 0, None, retries)
  }

  /** The nested loops of `complete` are that machine; they end for every upstream. */
  method Complete(cfg: Settings, candidates: nat -> Option<seq<Route>>, upstream: nat -> Reply) returns (r: Completion)
    ensures r == Serve(cfg, candidates, upstream, [], 0, 0, 0, None, 0)
  {
    ghost var whole := Serve(cfg, candidates, upstream, [], 0, 0, 0, None, 0);
    var budget := new RetryBudget(cfg.perRequest);
    var last: Option<Failure> := None;
    var made: seq<Call> := [];
    var round, retries := 0, 0;
    while true
      invariant fresh(budget) && budget.maxRetries == cfg.perRequest && |made| == budget.attempts <= cfg.perRequest + 1
      invariant whole == Serve(cfg, candidates, upstream, made, round, 0, 0, last, retries)
      decreases cfg.perRequest + 1 - budget.attempts
    {
      ghost var before := budget.attempts;
      var offered := candidates(round);
      if offered.None? {
        return Completion(Failed(NoRoute), made, retries, round);
      }
      var routes := offered.value;
      var raw: Option<Reply> := None;
      var index := 0;
      while index < |routes|
        invariant fresh(budget) && budget.maxRetries == cfg.perRequest
        invariant before <= |made| == budget.attempts <= cfg.perRequest + 1
        invariant 0 <= index <= |routes| && raw.None?
        invariant whole == Serve(cfg, candidates, upstream, made, round, index, 0, last, retries)
      {
        if budget.Exhausted() {
          break;
        }
        if !routes[index].buildable {
          return Completion(Failed(BadRequest), made, retries, round);
        }
        var tries := 0;
        while true
          invariant fresh(budget) && budget.maxRetries == cfg.perRequest
          invariant before <= |made| == budget.attempts <= cfg.perRequest
          invariant raw.None?
          invariant whole == Serve(cfg, candidates, upstream, made, round, index, tries, last, retries)
          decreases cfg.perRequest + 1 - budget.attempts
        {
          var ok := budget.ConsumeAttempt();
          if !ok {
            break;
          }
          var reply := upstream(|made|);
          made := made + [Call(round, index)];
          if reply.Refused? {
            last := Some(reply.failure);
            if reply.failure.retryable && tries < cfg.perRoute && !budget.Exhausted() {
              retries := retries + 1;
              tries := tries + 1;
              continue;
            }
            break;
          }
          raw := Some(reply);
          break;
        }
        if raw.Some? {
          break;
        }
        index := index + 1;
      }
      if raw.None? {
        return Completion(Failed(AllFailed(last)), made, retries, round);
      }
      if !cfg.structured || raw.value.content.Fits? {
        return Completion(Completed(raw.value.raw), made, retries, round);
      }
      if raw.value.content.Unreadable? {
        return Completion(Failed(BadReply), made, retries, round);
      }
      if round >= cfg.repairs || budget.Exhausted() {
        return Completion(Failed(InvalidContent), made, retries, round);
      }
      round := round + 1;
      last := None;
    }
  }

  /** Where the machine goes on after one more call, if it does. */
  predicate GoesOn(cfg: Settings, candidates: nat -> Option<seq<Route>>, k: nat, round: nat, route: nat, tries: nat) {
    && candidates(round).Some? && route < |candidates(round).value| && k <= cfg.perRequest
    && !(tries == 0 && !candidates(round).value[route].buildable)
  }

  /**
    Whatever the upstream does: the budget bounds all upstream calls together, across routes,
    retries and repairs; an answer is the last reply and the first acceptable one; only content that
    misfits is repaired; and every call but the first is a retry, a repair or a new route.
   */
  lemma {:induction false} ServeStaysInBudget(
      cfg: Settings, candidates: nat -> Option<seq<Route>>, upstream: nat -> Reply,
      made: seq<Call>, round: nat, route: nat, tries: nat, last: Option<Failure>, retries: nat)
    requires |made| <= cfg.perRequest + 1 && round <= cfg.repairs && retries + round <= |made|
    ensures var r := Serve(cfg, candidates, upstream, made, round, route, tries, last, retries);
            var n := |r.calls|;
            && |made| <= n <= cfg.perRequest + 1
            && round <= r.repairs <= cfg.repairs && r.retries + r.repairs <= n
            && (r.outcome.Completed? ==>
                  |made| < n && Acceptable(cfg, upstream(n - 1)) && upstream(n - 1).raw == r.outcome.raw)
            && (forall j :: |made| <= j < n - 1 ==> !Acceptable(cfg, upstream(j)))
            && (!r.outcome.Completed? && |made| < n ==> !Acceptable(cfg, upstream(n - 1)))
            && (r.outcome == Failed(BadReply) ==>
                  |made| < n && upstream(n - 1).Body? && upstream(n - 1).content.Unreadable?)
            && (forall j :: |made| <= j < n - 1 && upstream(j).Body? ==> upstream(j).content.Misfits?)
    decreases cfg.perRequest + 1 - |made|
  {
    var k, next := |made|, made + [Call(round, route)];
    if GoesOn(cfg, candidates, k, round, route, tries) {
      match upstream(k)
      case Refused(f) =>
        if TriesAgain(cfg, f, k, tries) {
          ServeStaysInBudget(cfg, candidates, upstream, next, round, route, tries + 1, Some(f), retries + 1);
        } else {
          ServeStaysInBudget(cfg, candidates, upstream, next, round, route + 1, 0, Some(f), retries);
        }
      case Body(raw, content) =>
        if cfg.structured && content.Misfits? && round < cfg.repairs && k + 1 <= cfg.perRequest {
          ServeStaysInBudget(cfg, candidates, upstream, next, round + 1, 0, 0, None, retries);
        }
    }
  }

  /** Route `i` of round `round` was called after the first `from` calls. */
  predicate Called(calls: seq<Call>, from: nat, round: nat, i: nat) {
    exists j :: from <= j < |calls| && calls[j] == Call(round, i)
  }

  /** Of the routes from `route` on, which the machine has still to call in the last round. */
  ghost predicate AllCalled(r: Completion, from: nat, count: nat, route: nat) {
    forall i :: route <= i < count ==> Called(r.calls, from, r.repairs, i)
  }

  lemma AllCalledEarlier(r: Completion, from: nat, count: nat, route: nat)
    requires AllCalled(r, from + 1, count, route)
    ensures AllCalled(r, from, count, route)
  {
    forall i | route <= i < count ensures Called(r.calls, from, r.repairs, i) {
      assert Called(r.calls, from + 1, r.repairs, i);
    }
  }

  lemma OneMoreCalled(r: Completion, from: nat, count: nat, route: nat)
    requires AllCalled(r, from, count, route + 1) && Called(r.calls, from, r.repairs, route)
    ensures AllCalled(r, from, count, route)
  {
  }

  /**
    It does not give up early: it reports that all routes failed with budget left only after a call
    to every route of the last round, and it calls only routes that the round offered.
   */
  lemma {:induction false} ServeTriesEveryRoute(
      cfg: Settings, candidates: nat -> Option<seq<Route>>, upstream: nat -> Reply,
      made: seq<Call>, round: nat, route: nat, tries: nat, last: Option<Failure>, retries: nat)
    ensures var r := Serve(cfg, candidates, upstream, made, round, route, tries, last, retries);
            && made <= r.calls && round <= r.repairs
            && (forall j :: |made| <= j < |r.calls| ==>
                  var call := r.calls[j];
                  candidates(call.round).Some? && call.route < |candidates(call.round).value|)
            && (r.outcome.Failed? && r.outcome.error.AllFailed? ==>
                  && candidates(r.repairs).Some?
                  && (|r.calls| <= cfg.perRequest ==>
                        AllCalled(r, |made|, |candidates(r.repairs).value|,
                                  if r.repairs > round then 0 else if tries == 0 then route else route + 1)))
    decreases cfg.perRequest + 1 - |made|
  {
    var k, next := |made|, made + [Call(round, route)];
    var r := Serve(cfg, candidates, upstream, made, round, route, tries, last, retries);
    if GoesOn(cfg, candidates, k, round, route, tries) {
      match upstream(k) {
      case Refused(f) =>
        if TriesAgain(cfg, f, k, tries) {
          ServeTriesEveryRoute(cfg, candidates, upstream, next, round, route, tries + 1, Some(f), retries + 1);
        } else {
          ServeTriesEveryRoute(cfg, candidates, upstream, next, round, route + 1, 0, Some(f), retries);
        }
      case Body(raw, content) =>
        if cfg.structured && content.Misfits? && round < cfg.repairs && k + 1 <= cfg.perRequest {
          ServeTriesEveryRoute(cfg, candidates, upstream, next, round + 1, 0, 0, None, retries);
        }
      }
      if |made| < |r.calls| <= cfg.perRequest && r.outcome.Failed? && r.outcome.error.AllFailed? {
        var count, at := |candidates(r.repairs).value|, if r.repairs > round then 0 else route + 1;
        assert r.calls[k] == next[k];
        AllCalledEarlier(r, k, count, at);
        if r.repairs == round {
          OneMoreCalled(r, k, count, route);
        }
      }
    }
  }

  // ---------- what is tried again ----------

  /** How often `call` was made in a row at the end of `calls`. */
  function Trailing(calls: seq<Call>, call: Call): nat {
    if calls == [] || calls[|calls| - 1] != call then 0 else 1 + Trailing(calls[..|calls| - 1], call)
  }

  /** How often call `j` had been made just before: its number as a try of its route. */
  function Tries(calls: seq<Call>, j: nat): nat
    requires j < |calls|
  {
    Trailing(calls[..j], calls[j])
  }

  /** A failure of call `j` that may be retried on the spot, while the route and the budget allow it. */
  predicate Retriable(cfg: Settings, calls: seq<Call>, failures: nat -> Option<Failure>, j: nat)
    requires j < |calls|
  {
    failures(j).Some? && failures(j).value.retryable && Tries(calls, j) < cfg.perRoute && j + 1 <= cfg.perRequest
  }

  /** A failed call is made again at once exactly when it may be; otherwise the next route of the round follows. */
  ghost predicate RetriedRightly(cfg: Settings, calls: seq<Call>, failures: nat -> Option<Failure>, j: nat)
    requires j < |calls|
  {
    && (Retriable(cfg, calls, failures, j) <==> j + 1 < |calls| && calls[j + 1] == calls[j])
    && (j + 1 < |calls| && !Retriable(cfg, calls, failures, j) ==>
          calls[j + 1] == if failures(j).Some? then Call(calls[j].round, calls[j].route + 1)
              else Call(calls[j].round + 1, 0))
    && Tries(calls, j) <= cfg.perRoute
  }

  /** Neighbouring calls that are the same. */
  function Repeats(calls: seq<Call>): nat {
    if |calls| < 2 then 0
    else (if calls[|calls| - 1] == calls[|calls| - 2] then 1 else 0) + Repeats(calls[..|calls| - 1])
  }

  /** The failure of the last call, if it was made in this round. */
  function LastFailure(calls: seq<Call>, failures: nat -> Option<Failure>, round: nat): Option<Failure> {
    if calls == [] || calls[|calls| - 1].round != round then None else failures(|calls| - 1)
  }

  lemma OneMoreCall(calls: seq<Call>, call: Call)
    ensures (calls + [call])[..|calls|] == calls
    ensures Tries(calls + [call], |calls|) == Trailing(calls, call)
    ensures Trailing(calls + [call], call) == Trailing(calls, call) + 1
    ensures forall other :: other != call ==> Trailing(calls + [call], other) == 0
    ensures Repeats(calls + [call]) == Repeats(calls) + (if Trailing(calls, call) > 0 then 1 else 0)
  {
    var longer := calls + [call];
    assert longer[..|longer| - 1] == calls;
  }

  /** What the trace says of a call depends only on the calls up to it and the next one. */
  lemma TriesOfPrefix(calls: seq<Call>, longer: seq<Call>, j: nat)
    requires j < |calls| && calls <= longer
    ensures Tries(longer, j) == Tries(calls, j) && longer[j] == calls[j]
  {
    assert longer[..j] == calls[..j];
  }

  /** The machine is where its trace says it is. */
  ghost predicate Consistent(calls: seq<Call>, failures: nat -> Option<Failure>, call: Call, tries: nat,
      last: Option<Failure>) {
    && Trailing(calls, call) == tries && last == LastFailure(calls, failures, call.round)
    && (calls != [] ==> calls[|calls| - 1].round <= call.round)
    && (tries == 0 && calls != [] && calls[|calls| - 1].round == call.round ==> calls[|calls| - 1].route < call.route)
  }

  lemma ConsistentAfter(calls: seq<Call>, failures: nat -> Option<Failure>, call: Call, tries: nat,
      last: Option<Failure>)
    requires Consistent(calls, failures, call, tries, last)
    ensures failures(|calls|).Some? ==>
              && Consistent(calls + [call], failures, call, tries + 1, failures(|calls|))
              && Consistent(calls + [call], failures, Call(call.round, call.route + 1), 0, failures(|calls|))
    ensures Consistent(calls + [call], failures, Call(call.round + 1, 0), 0, None)
  {
    OneMoreCall(calls, call);
  }

  function RefusalOf(reply: Reply): Option<Failure> {
    if reply.Refused? then Some(reply.failure) else None
  }

  function Refusals(upstream: nat -> Reply): nat -> Option<Failure> {
    (k: nat) => RefusalOf(upstream(k))
  }

  /** The machine makes the call it is about to make, or none any more. */
  lemma ServeCalls(cfg: Settings, candidates: nat -> Option<seq<Route>>, upstream: nat -> Reply,
                   made: seq<Call>, round: nat, route: nat, tries: nat, last: Option<Failure>, retries: nat)
    ensures var calls := Serve(cfg, candidates, upstream, made, round, route, tries, last, retries).calls;
            if GoesOn(cfg, candidates, |made|, round, route, tries) then made + [Call(round, route)] <= calls
            else calls == made
  {
    if GoesOn(cfg, candidates, |made|, round, route, tries) {
      var next := made + [Call(round, route)];
      match upstream(|made|)
      case Refused(f) =>
        if TriesAgain(cfg, f, |made|, tries) {
          ServeTriesEveryRoute(cfg, candidates, upstream, next, round, route, tries + 1, Some(f), retries + 1);
        } else {
          ServeTriesEveryRoute(cfg, candidates, upstream, next, round, route + 1, 0, Some(f), retries);
        }
      case Body(raw, content) =>
        if cfg.structured && content.Misfits? && round < cfg.repairs && |made| + 1 <= cfg.perRequest {
          ServeTriesEveryRoute(cfg, candidates, upstream, next, round + 1, 0, 0, None, retries);
        }
    }
  }

  /** The rule for one call, from what comes after it. */
  lemma RetriedHere(cfg: Settings, failures: nat -> Option<Failure>, made: seq<Call>, call: Call, calls: seq<Call>,
      tries: nat)
    requires made + [call] <= calls && Trailing(made, call) == tries <= cfg.perRoute
    requires var k := |made|;
             var again := failures(k).Some? && failures(k).value.retryable && tries < cfg.perRoute
                 && k + 1 <= cfg.perRequest;
             var other := if failures(k).Some? then Call(call.round, call.route + 1) else Call(call.round + 1, 0);
             if again then made + [call] + [call] <= calls else k + 1 < |calls| ==> calls[k + 1] == other
    ensures RetriedRightly(cfg, calls, failures, |made|)
  {
    OneMoreCall(made, call);
    TriesOfPrefix(made + [call], calls, |made|);
    assert made + [call] + [call] <= calls ==> calls[|made| + 1] == (made + [call] + [call])[|made| + 1];
  }

  /** The calls of a finished request keep the rules from `from` on, and its counters are those of its calls. */
  ghost predicate WellTraced(cfg: Settings, failures: nat -> Option<Failure>, r: Completion, from: nat) {
    && (forall j :: from <= j < |r.calls| ==> RetriedRightly(cfg, r.calls, failures, j))
    && r.retries == Repeats(r.calls)
    && (r.outcome.Failed? && r.outcome.error.AllFailed? ==>
          r.outcome.error.last == LastFailure(r.calls, failures, r.repairs))
  }

  lemma TracedFromHere(cfg: Settings, failures: nat -> Option<Failure>, r: Completion, from: nat)
    requires WellTraced(cfg, failures, r, from + 1)
    requires from < |r.calls| ==> RetriedRightly(cfg, r.calls, failures, from)
    ensures WellTraced(cfg, failures, r, from)
  {
    hide RetriedRightly;
  }

  /**
    Whatever the upstream does: a call is made again on its route exactly after a failure that is
    retryable, while that route was tried less often than allowed and budget is left; every other
    failure leads to the next route, and content that misfits to the next round.  The reported
    retries are these repetitions, and the reported failure is that of the last call of the round.
   */
  lemma {:induction false} ServeRetriesRightly(
      cfg: Settings, candidates: nat -> Option<seq<Route>>, upstream: nat -> Reply,
      made: seq<Call>, round: nat, route: nat, tries: nat, last: Option<Failure>, retries: nat)
    requires tries <= cfg.perRoute
    requires tries > 0 ==> |made| <= cfg.perRequest && GoesOn(cfg, candidates, |made|, round, route, tries)
    requires Consistent(made, Refusals(upstream), Call(round, route), tries, last)
    requires retries == Repeats(made) + (if tries > 0 then 1 else 0)
    ensures WellTraced(cfg, Refusals(upstream), Serve(cfg, candidates, upstream, made, round, route, tries, last,
            retries), |made|)
    decreases cfg.perRequest + 1 - |made|
  {
    hide RetriedRightly, Trailing, Repeats, Consistent, LastFailure;
    var failures, k, call := Refusals(upstream), |made|, Call(round, route);
    var next := made + [call];
    var r := Serve(cfg, candidates, upstream, made, round, route, tries, last, retries);
    ConsistentMeans(made, failures, call, tries, last);
    ServeCalls(cfg, candidates, upstream, made, round, route, tries, last, retries);
    if GoesOn(cfg, candidates, k, round, route, tries) {
      OneMoreCall(made, call);
      ConsistentAfter(made, failures, call, tries, last);
      match upstream(k) {
        case Refused(f) =>
          if TriesAgain(cfg, f, k, tries) {
            ServeCalls(cfg, candidates, upstream, next, round, route, tries + 1, Some(f), retries + 1);
            ServeRetriesRightly(cfg, candidates, upstream, next, round, route, tries + 1, Some(f), retries + 1);
          } else {
            ServeCalls(cfg, candidates, upstream, next, round, route + 1, 0, Some(f), retries);
            ServeRetriesRightly(cfg, candidates, upstream, next, round, route + 1, 0, Some(f), retries);
          }
        case Body(raw, content) =>
          if cfg.structured && content.Misfits? && round < cfg.repairs && k + 1 <= cfg.perRequest {
            ServeCalls(cfg, candidates, upstream, next, round + 1, 0, 0, None, retries);
            ServeRetriesRightly(cfg, candidates, upstream, next, round + 1, 0, 0, None, retries);
          }
      }
      RetriedHere(cfg, failures, made, call, r.calls, tries);
      TracedFromHere(cfg, failures, r, k);
    }
  }

  lemma ConsistentMeans(calls: seq<Call>, failures: nat -> Option<Failure>, call: Call, tries: nat,
      last: Option<Failure>)
    requires Consistent(calls, failures, call, tries, last)
    ensures Trailing(calls, call) == tries && last == LastFailure(calls, failures, call.round)
  {
  }

  predicate Before(a: Call, b: Call) {
    a.round < b.round || (a.round == b.round && a.route < b.route)
  }

  /** Calls go on to later routes and rounds, and stay on a route without interruption. */
  lemma {:induction false} CallsGoOn(cfg: Settings, calls: seq<Call>, failures: nat -> Option<Failure>, j: nat, l: nat)
    requires j <= l < |calls| && forall i :: 0 <= i < |calls| ==> RetriedRightly(cfg, calls, failures, i)
    ensures Before(calls[j], calls[l]) || (calls[l] == calls[j] && Trailing(calls[..l], calls[l]) >= l - j)
    decreases l
  {
    hide Retriable, Tries, Trailing;
    if j < l {
      CallsGoOn(cfg, calls, failures, j, l - 1);
      assert RetriedRightly(cfg, calls, failures, l - 1);
      if calls[l] == calls[l - 1] {
        assert calls[..l] == calls[..l - 1] + [calls[l - 1]];
        OneMoreCall(calls[..l - 1], calls[l - 1]);
      }
    }
  }

  /** So no route of a round is called more often than once and `perRoute` times again. */
  lemma RouteIsCalledSeldom(cfg: Settings, calls: seq<Call>, failures: nat -> Option<Failure>, j: nat, l: nat)
    requires j <= l < |calls| && forall i :: 0 <= i < |calls| ==> RetriedRightly(cfg, calls, failures, i)
    requires calls[j] == calls[l]
    ensures l - j <= cfg.perRoute
  {
    hide Trailing, Retriable;
    CallsGoOn(cfg, calls, failures, j, l);
    assert RetriedRightly(cfg, calls, failures, l);
  }

  /**
    A whole request: its trace keeps the rules, and equal calls are never further apart than the
    retries of a route.
   */
  lemma CompleteRetriesRightly(cfg: Settings, candidates: nat -> Option<seq<Route>>, upstream: nat -> Reply)
    ensures var r := Serve(cfg, candidates, upstream, [], 0, 0, 0, None, 0);
            && WellTraced(cfg, Refusals(upstream), r, 0)
            && forall j, l :: 0 <= j <= l < |r.calls| && r.calls[j] == r.calls[l] ==> l - j <= cfg.perRoute
  {
    hide RetriedRightly;
    ServeRetriesRightly(cfg, candidates, upstream, [], 0, 0, 0, None, 0);
    var r := Serve(cfg, candidates, upstream, [], 0, 0, 0, None, 0);
    forall j, l | 0 <= j <= l < |r.calls| && r.calls[j] == r.calls[l] ensures l - j <= cfg.perRoute {
      RouteIsCalledSeldom(cfg, r.calls, Refusals(upstream), j, l);
    }
  }

  /** The route that would be called next after these calls, if there is one. */
  function NextRoute(calls: seq<Call>, round: nat): nat {
    if calls == [] || calls[|calls| - 1].round != round then 0 else calls[|calls| - 1].route + 1
  }

  predicate Offered(candidates: nat -> Option<seq<Route>>, round: nat, route: nat) {
    candidates(round).Some? && route < |candidates(round).value|
  }

  /** Why a request fails, read off its calls. */
  predicate FailsBecause(cfg: Settings, candidates: nat -> Option<seq<Route>>, upstream: nat -> Reply, r: Completion)
    requires r.outcome.Failed?
  {
    var n := |r.calls|;
    match r.outcome.error
    case NoRoute => candidates(r.repairs).None?
    case BadRequest =>
      && n <= cfg.perRequest && Offered(candidates, r.repairs, NextRoute(r.calls, r.repairs))
      && !candidates(r.repairs).value[NextRoute(r.calls, r.repairs)].buildable
    case AllFailed(_) =>
      candidates(r.repairs).Some? && (n > cfg.perRequest
          || NextRoute(r.calls, r.repairs) >= |candidates(r.repairs).value|)
    case InvalidContent =>
      && n > 0 && upstream(n - 1).Body? && upstream(n - 1).content.Misfits? && cfg.structured
      && (r.repairs >= cfg.repairs || n > cfg.perRequest)
    case BadReply => n > 0 && upstream(n - 1).Body? && upstream(n - 1).content.Unreadable? && cfg.structured
  }

  /** Only routes that can express the request are called, and each way to fail has its own reason. */
  lemma {:induction false} ServeEndsRightly(
      cfg: Settings, candidates: nat -> Option<seq<Route>>, upstream: nat -> Reply,
      made: seq<Call>, round: nat, route: nat, tries: nat, last: Option<Failure>, retries: nat)
    requires NextRoute(made, round) == if tries > 0 then route + 1 else route
    requires tries > 0 ==> Offered(candidates, round, route) && candidates(round).value[route].buildable
    requires tries > 0 ==> |made| <= cfg.perRequest
    ensures var r := Serve(cfg, candidates, upstream, made, round, route, tries, last, retries);
            && (forall j :: |made| <= j < |r.calls| ==>
                  && Offered(candidates, r.calls[j].round, r.calls[j].route)
                  && candidates(r.calls[j].round).value[r.calls[j].route].buildable)
            && (r.outcome.Failed? ==> FailsBecause(cfg, candidates, upstream, r))
    decreases cfg.perRequest + 1 - |made|
  {
    var k, next := |made|, made + [Call(round, route)];
    var r := Serve(cfg, candidates, upstream, made, round, route, tries, last, retries);
    if GoesOn(cfg, candidates, k, round, route, tries) {
      ServeCalls(cfg, candidates, upstream, made, round, route, tries, last, retries);
      assert r.calls[k] == next[k];
      match upstream(k) {
        case Refused(f) =>
          if TriesAgain(cfg, f, k, tries) {
            ServeEndsRightly(cfg, candidates, upstream, next, round, route, tries + 1, Some(f), retries + 1);
          } else {
            ServeEndsRightly(cfg, candidates, upstream, next, round, route + 1, 0, Some(f), retries);
          }
        case Body(raw, content) =>
          if cfg.structured && content.Misfits? && round < cfg.repairs && k + 1 <= cfg.perRequest {
            ServeEndsRightly(cfg, candidates, upstream, next, round + 1, 0, 0, None, retries);
          }
      }
    }
  }

  // ---------- stream ----------

  /** An opened stream yields its chunks and then ends, or breaks. */
  datatype Opening = Opened(chunks: seq<Bytes>, broken: Option<Failure>) | NotOpened(failure: Failure)

  datatype Ending = Finished | Cancelled | Interrupted(failure: Failure) | GaveUp(last: Option<Failure>) | Rejected

  /** What the client got of upstream bytes, from which of the upstream calls, and how it ended. */
  datatype Streamed = Streamed(sent: seq<Bytes>, ending: Ending, calls: seq<Call>, source: Option<nat>)

  datatype Forwarded = Forwarded(sent: seq<Bytes>, cancelled: bool)

  /** The chunks of upstream call `k` from `i` on, until the client leaves; empty ones are not sent. */
  function Forward(chunks: seq<Bytes>, k: nat, leaves: (nat, nat) -> bool, i: nat): Forwarded
    requires i <= |chunks|
    decreases |chunks| - i
  {
    if i == |chunks| then Forwarded([], false)
    else if leaves(k, i) then Forwarded([], true)
    else
      var rest := Forward(chunks, k, leaves, i + 1);
      if chunks[i] == [] then rest else rest.(sent := [chunks[i]] + rest.sent)
  }

  /** The generator as a flat machine, after the calls in `made`; there is one round. */
  function Relay(cfg: Settings, routes: seq<Route>, upstream: nat -> Opening, leaves: (nat, nat) -> bool,
                 made: seq<Call>, route: nat, tries: nat, last: Option<Failure>): Streamed
    decreases cfg.perRequest + 1 - |made|
  {
    var k, next := |made|, made + [Call(0, route)];
    if route >= |routes| || k > cfg.perRequest then Streamed([], GaveUp(last), made, None)
    else if tries == 0 && !routes[route].buildable then Streamed([], Rejected, made, None)
    else
      match upstream(k)
      case NotOpened(f) =>
        if TriesAgain(cfg, f, k, tries) then Relay(cfg, routes, upstream, leaves, next, route, tries + 1, Some(f))
        else Relay(cfg, routes, upstream, leaves, next, route + 1, 0, Some(f))
      case Opened(chunks, broken) =>
        var part := Forward(chunks, k, leaves, 0);
        if part.cancelled then Streamed(part.sent, Cancelled, next, Some(k))
        else if broken.None? then Streamed(part.sent, Finished, next, Some(k))
        else if part.sent != [] then Streamed(part.sent, Interrupted(broken.value), next, Some(k))
        else if TriesAgain(cfg, broken.value, k, tries)
            then Relay(cfg, routes, upstream, leaves, next, route, tries + 1, broken)
        else Relay(cfg, routes, upstream, leaves, next, route + 1, 0, broken)
  }

  lemma ForwardStep(chunks: seq<Bytes>, k: nat, leaves: (nat, nat) -> bool, i: nat, sent: seq<Bytes>)
    requires i < |chunks| && !leaves(k, i)
    ensures var sent' := if chunks[i] == [] then sent else sent + [chunks[i]];
            && sent + Forward(chunks, k, leaves, i).sent == sent' + Forward(chunks, k, leaves, i + 1).sent
            && Forward(chunks, k, leaves, i).cancelled == Forward(chunks, k, leaves, i + 1).cancelled
  {
  }

  /** The innermost loop: one opened stream, chunk by chunk. */
  method SendChunks(chunks: seq<Bytes>, k: nat, leaves: (nat, nat) -> bool) returns (part: Forwarded)
    ensures part == Forward(chunks, k, leaves, 0)
  {
    var sent: seq<Bytes> := [];
    ghost var whole := Forward(chunks, k, leaves, 0);
    var i := 0;
    while i < |chunks|
      invariant 0 <= i <= |chunks|
      invariant whole == Forwarded(sent + Forward(chunks, k, leaves, i).sent, Forward(chunks, k, leaves, i).cancelled)
    {
      if leaves(k, i) {
        return Forwarded(sent, true);
      }
      ForwardStep(chunks, k, leaves, i, sent);
      if chunks[i] != [] {
        sent := sent + [chunks[i]];
      }
      i := i + 1;
    }
    part := Forwarded(sent, false);
  }

  /** The generator of `stream`: bytes leave in order, and once one has left no other route is tried. */
  method Stream(cfg: Settings, routes: seq<Route>, upstream: nat -> Opening, leaves: (nat, nat) -> bool)
      returns (r: Streamed)
    ensures r == Relay(cfg, routes, upstream, leaves, [], 0, 0, None)
  {
    ghost var whole := Relay(cfg, routes, upstream, leaves, [], 0, 0, None);
    var budget := new RetryBudget(cfg.perRequest);
    var last: Option<Failure> := None;
    var made: seq<Call> := [];
    var index := 0;
    while index < |routes|
      invariant fresh(budget) && budget.maxRetries == cfg.perRequest && |made| == budget.attempts <= cfg.perRequest + 1
      invariant 0 <= index <= |routes|
      invariant whole == Relay(cfg, routes, upstream, leaves, made, index, 0, last)
    {
      if budget.Exhausted() {
        break;
      }
      if !routes[index].buildable {
        return Streamed([], Rejected, made, None);
      }
      var tries := 0;
      while true
        invariant fresh(budget) && budget.maxRetries == cfg.perRequest && |made| == budget.attempts <= cfg.perRequest
        invariant whole == Relay(cfg, routes, upstream, leaves, made, index, tries, last)
        decreases cfg.perRequest + 1 - budget.attempts
      {
        var ok := budget.ConsumeAttempt();
        if !ok {
          break;
        }
        var k := |made|;
        made := made + [Call(0, index)];
        var answer := upstream(k);
        var failure: Failure;
        if answer.NotOpened? {
          failure := answer.failure;
        } else {
          var part := SendChunks(answer.chunks, k, leaves);
          if part.cancelled {
            return Streamed(part.sent, Cancelled, made, Some(k));
          }
          if answer.broken.None? {
            return Streamed(part.sent, Finished, made, Some(k));
          }
          failure := answer.broken.value;
          if part.sent != [] {
            return Streamed(part.sent, Interrupted(failure), made, Some(k));
          }
        }
        last := Some(failure);
        if failure.retryable && tries < cfg.perRoute && !budget.Exhausted() {
          tries := tries + 1;
          continue;
        }
        break;
      }
      index := index + 1;
    }
    r := Streamed([], GaveUp(last), made, None);
  }

  lemma {:induction false} ForwardIsPrefix(chunks: seq<Bytes>, k: nat, leaves: (nat, nat) -> bool, i: nat)
    requires i <= |chunks|
    ensures Concat(Forward(chunks, k, leaves, i).sent) <= Concat(chunks[i..])
    ensures !Forward(chunks, k, leaves, i).cancelled
            ==> Concat(Forward(chunks, k, leaves, i).sent) == Concat(chunks[i..])
    decreases |chunks| - i
  {
    if i < |chunks| {
      ForwardIsPrefix(chunks, k, leaves, i + 1);
      assert chunks[i..][1..] == chunks[i + 1..];
      if !leaves(k, i) && chunks[i] != [] {
        var rest := Forward(chunks, k, leaves, i + 1).sent;
        assert ([chunks[i]] + rest)[1..] == rest;
      }
    }
  }

  /** A stream that fails before its first byte has left: not opened, or broken with nothing sent. */
  function SilentFailure(opening: Opening, k: nat, leaves: (nat, nat) -> bool): Option<Failure> {
    match opening
    case NotOpened(f) => Some(f)
    case Opened(chunks, broken) =>
      var part := Forward(chunks, k, leaves, 0);
      if !part.cancelled && part.sent == [] then broken else None
  }

  function SilentFailures(upstream: nat -> Opening, leaves: (nat, nat) -> bool): nat -> Option<Failure> {
    (k: nat) => SilentFailure(upstream(k), k, leaves)
  }

  /** Where the generator goes on after one more call, if it makes one. */
  predicate RelayGoesOn(cfg: Settings, routes: seq<Route>, k: nat, route: nat, tries: nat) {
    route < |routes| && k <= cfg.perRequest && !(tries == 0 && !routes[route].buildable)
  }

  /** After a silent failure the machine goes on by the one rule for retries; after anything else it is done. */
  lemma RelayStep(cfg: Settings, routes: seq<Route>, upstream: nat -> Opening, leaves: (nat, nat) -> bool,
                  made: seq<Call>, route: nat, tries: nat, last: Option<Failure>)
    requires RelayGoesOn(cfg, routes, |made|, route, tries)
    ensures var k, next := |made|, made + [Call(0, route)];
            var r := Relay(cfg, routes, upstream, leaves, made, route, tries, last);
            match SilentFailure(upstream(k), k, leaves)
            case None => r.calls == next && r.source == Some(k) && upstream(k).Opened? && !r.ending.GaveUp?
            case Some(f) =>
              r == if TriesAgain(cfg, f, k, tries)
                  then Relay(cfg, routes, upstream, leaves, next, route, tries + 1, Some(f))
                   else Relay(cfg, routes, upstream, leaves, next, route + 1, 0, Some(f))
  {
    hide Forward;
  }

  lemma {:induction false} RelayKeepsCalls(cfg: Settings, routes: seq<Route>, upstream: nat -> Opening,
                                           leaves: (nat, nat) -> bool, made: seq<Call>, route: nat, tries: nat,
                                           last: Option<Failure>)
    ensures var calls := Relay(cfg, routes, upstream, leaves, made, route, tries, last).calls;
            if RelayGoesOn(cfg, routes, |made|, route, tries) then made + [Call(0, route)] <= calls else calls == made
    decreases cfg.perRequest + 1 - |made|
  {
    var k, next := |made|, made + [Call(0, route)];
    if RelayGoesOn(cfg, routes, k, route, tries) {
      RelayStep(cfg, routes, upstream, leaves, made, route, tries, last);
      var failure := SilentFailure(upstream(k), k, leaves);
      hide Relay, SilentFailure;
      if failure.Some? {
        if TriesAgain(cfg, failure.value, k, tries) {
          RelayKeepsCalls(cfg, routes, upstream, leaves, next, route, tries + 1, failure);
        } else {
          RelayKeepsCalls(cfg, routes, upstream, leaves, next, route + 1, 0, failure);
        }
      }
    }
  }

  /** The calls of a stream keep the rules for retries, and giving up reports the failure of the last one. */
  ghost predicate StreamTraced(cfg: Settings, failures: nat -> Option<Failure>, r: Streamed, from: nat) {
    && (forall j :: from <= j < |r.calls| ==> RetriedRightly(cfg, r.calls, failures, j))
    && (r.ending.GaveUp? ==> r.ending.last == LastFailure(r.calls, failures, 0))
  }

  /** A stream is opened again by the same rule as a request, also when it breaks before its first byte. */
  lemma {:induction false} RelayRetriesRightly(cfg: Settings, routes: seq<Route>, upstream: nat -> Opening,
                                               leaves: (nat, nat) -> bool, made: seq<Call>, route: nat, tries: nat,
                                               last: Option<Failure>)
    requires tries <= cfg.perRoute && (tries > 0 ==> RelayGoesOn(cfg, routes, |made|, route, tries))
    requires Consistent(made, SilentFailures(upstream, leaves), Call(0, route), tries, last)
    ensures StreamTraced(cfg, SilentFailures(upstream, leaves),
                         Relay(cfg, routes, upstream, leaves, made, route, tries, last), |made|)
    decreases cfg.perRequest + 1 - |made|
  {
    hide RetriedRightly, Trailing, Consistent, LastFailure, SilentFailure;
    var failures, k, call := SilentFailures(upstream, leaves), |made|, Call(0, route);
    var next := made + [call];
    var r := Relay(cfg, routes, upstream, leaves, made, route, tries, last);
    ConsistentMeans(made, failures, call, tries, last);
    RelayKeepsCalls(cfg, routes, upstream, leaves, made, route, tries, last);
    if RelayGoesOn(cfg, routes, k, route, tries) {
      RelayStep(cfg, routes, upstream, leaves, made, route, tries, last);
      hide Relay;
      ConsistentAfter(made, failures, call, tries, last);
      var failure := failures(k);
      if failure.Some? {
        if TriesAgain(cfg, failure.value, k, tries) {
          RelayKeepsCalls(cfg, routes, upstream, leaves, next, route, tries + 1, failure);
          RelayRetriesRightly(cfg, routes, upstream, leaves, next, route, tries + 1, failure);
        } else {
          RelayKeepsCalls(cfg, routes, upstream, leaves, next, route + 1, 0, failure);
          RelayRetriesRightly(cfg, routes, upstream, leaves, next, route + 1, 0, failure);
        }
      }
      RetriedHere(cfg, failures, made, call, r.calls, tries);
    }
  }

  /** A whole stream. */
  lemma StreamRetriesRightly(cfg: Settings, routes: seq<Route>, upstream: nat -> Opening, leaves: (nat, nat) -> bool)
    ensures var r := Relay(cfg, routes, upstream, leaves, [], 0, 0, None);
            && StreamTraced(cfg, SilentFailures(upstream, leaves), r, 0)
            && forall j, l :: 0 <= j <= l < |r.calls| && r.calls[j] == r.calls[l] ==> l - j <= cfg.perRoute
  {
    hide RetriedRightly;
    RelayRetriesRightly(cfg, routes, upstream, leaves, [], 0, 0, None);
    var r := Relay(cfg, routes, upstream, leaves, [], 0, 0, None);
    forall j, l | 0 <= j <= l < |r.calls| && r.calls[j] == r.calls[l] ensures l - j <= cfg.perRoute {
      RouteIsCalledSeldom(cfg, r.calls, SilentFailures(upstream, leaves), j, l);
    }
  }

  /** Why a stream ends without a response, read off its calls. */
  predicate StreamFailsBecause(cfg: Settings, routes: seq<Route>, r: Streamed) {
    && (r.ending.GaveUp? ==> |r.calls| > cfg.perRequest || NextRoute(r.calls, 0) >= |routes|)
    && (r.ending.Rejected? ==>
          |r.calls| <= cfg.perRequest && NextRoute(r.calls, 0) < |routes| && !routes[NextRoute(r.calls, 0)].buildable)
  }

  lemma {:induction false} RelayEndsRightly(cfg: Settings, routes: seq<Route>, upstream: nat -> Opening,
                                            leaves: (nat, nat) -> bool, made: seq<Call>, route: nat, tries: nat,
                                            last: Option<Failure>)
    requires NextRoute(made, 0) == if tries > 0 then route + 1 else route
    requires tries > 0 ==> route < |routes| && routes[route].buildable && |made| <= cfg.perRequest
    ensures var r := Relay(cfg, routes, upstream, leaves, made, route, tries, last);
            && (forall j :: |made| <= j < |r.calls| ==>
                  r.calls[j].route < |routes| && routes[r.calls[j].route].buildable)
            && StreamFailsBecause(cfg, routes, r)
    decreases cfg.perRequest + 1 - |made|
  {
    var k, next := |made|, made + [Call(0, route)];
    var r := Relay(cfg, routes, upstream, leaves, made, route, tries, last);
    if RelayGoesOn(cfg, routes, k, route, tries) {
      RelayKeepsCalls(cfg, routes, upstream, leaves, made, route, tries, last);
      RelayStep(cfg, routes, upstream, leaves, made, route, tries, last);
      if SilentFailure(upstream(k), k, leaves).None? {
        EndsWithItsCall(cfg, routes, upstream, leaves, made, route, tries, last);
      }
      var failure := SilentFailure(upstream(k), k, leaves);
      hide Relay, SilentFailure;
      assert r.calls[k] == next[k];
      if failure.Some? {
        if TriesAgain(cfg, failure.value, k, tries) {
          RelayEndsRightly(cfg, routes, upstream, leaves, next, route, tries + 1, failure);
        } else {
          RelayEndsRightly(cfg, routes, upstream, leaves, next, route + 1, 0, failure);
        }
      }
    }
  }

  /** How a stream that opened and sent something, or all it had, ends. */
  lemma EndsWithItsCall(cfg: Settings, routes: seq<Route>, upstream: nat -> Opening, leaves: (nat, nat) -> bool,
                        made: seq<Call>, route: nat, tries: nat, last: Option<Failure>)
    requires RelayGoesOn(cfg, routes, |made|, route, tries) && SilentFailure(upstream(|made|), |made|, leaves).None?
    ensures var r := Relay(cfg, routes, upstream, leaves, made, route, tries, last);
            var opening, part := upstream(|made|), Forward(upstream(|made|).chunks, |made|, leaves, 0);
            && r.sent == part.sent
            && (r.ending.Cancelled? <==> part.cancelled)
            && (r.ending.Finished? <==> !part.cancelled && opening.broken.None?)
            && (r.ending.Interrupted? <==> !part.cancelled && opening.broken.Some?)
            && (r.ending.Interrupted? ==> r.ending.failure == opening.broken.value)
  {
    hide Forward;
  }

  /** Of the routes from `route` on, every one is called before the stream gives up with budget left. */
  lemma {:induction false} RelayTriesEveryRoute(cfg: Settings, routes: seq<Route>, upstream: nat -> Opening,
                                                leaves: (nat, nat) -> bool, made: seq<Call>, route: nat, tries: nat,
                                                last: Option<Failure>)
    ensures var r := Relay(cfg, routes, upstream, leaves, made, route, tries, last);
            r.ending.GaveUp? && |r.calls| <= cfg.perRequest ==>
              forall i :: (if tries == 0 then route else route + 1) <= i < |routes| ==> Called(r.calls, |made|, 0, i)
    decreases cfg.perRequest + 1 - |made|
  {
    var k, next := |made|, made + [Call(0, route)];
    var r := Relay(cfg, routes, upstream, leaves, made, route, tries, last);
    RelayKeepsCalls(cfg, routes, upstream, leaves, made, route, tries, last);
    if RelayGoesOn(cfg, routes, k, route, tries) {
      RelayStep(cfg, routes, upstream, leaves, made, route, tries, last);
      var failure := SilentFailure(upstream(k), k, leaves);
      hide Relay, SilentFailure;
      if failure.Some? {
        if TriesAgain(cfg, failure.value, k, tries) {
          RelayTriesEveryRoute(cfg, routes, upstream, leaves, next, route, tries + 1, failure);
        } else {
          RelayTriesEveryRoute(cfg, routes, upstream, leaves, next, route + 1, 0, failure);
        }
        if r.ending.GaveUp? && |r.calls| <= cfg.perRequest {
          assert r.calls[k] == next[k];
          forall i | route <= i < |routes| ensures Called(r.calls, k, 0, i) {
            if i > route {
              assert Called(r.calls, k + 1, 0, i);
            }
          }
        }
      }
    }
  }

  /**
    Whatever the upstream does: no more upstream calls than the budget, and the upstream bytes the
    client gets are a prefix of one single upstream response, that of the last call; they are all of
    it when the stream finished.
   */
  lemma {:induction false} RelaysOneResponse(cfg: Settings, routes: seq<Route>, upstream: nat -> Opening,
      leaves: (nat, nat) -> bool,
                                             made: seq<Call>, route: nat, tries: nat, last: Option<Failure>)
    requires |made| <= cfg.perRequest + 1
    ensures var r := Relay(cfg, routes, upstream, leaves, made, route, tries, last);
            && |made| <= |r.calls| <= cfg.perRequest + 1
            && (r.source.None? ==> r.sent == [])
            && (r.source.Some? ==>
                  && |made| < |r.calls| && r.source.value == |r.calls| - 1 && upstream(r.source.value).Opened?
                  && Concat(r.sent) <= Concat(upstream(r.source.value).chunks))
            && (r.ending.Finished? ==>
                  r.source.Some? && upstream(r.source.value).broken.None?
                  && Concat(r.sent) == Concat(upstream(r.source.value).chunks))
            && (r.ending.Interrupted? ==> r.sent != [])
    decreases cfg.perRequest + 1 - |made|
  {
    hide Concat, Forward;
    var k, next := |made|, made + [Call(0, route)];
    if route < |routes| && k <= cfg.perRequest && !(tries == 0 && !routes[route].buildable) {
      match upstream(k)
      case NotOpened(f) =>
        if TriesAgain(cfg, f, k, tries) {
          RelaysOneResponse(cfg, routes, upstream, leaves, next, route, tries + 1, Some(f));
        } else {
          RelaysOneResponse(cfg, routes, upstream, leaves, next, route + 1, 0, Some(f));
        }
      case Opened(chunks, broken) =>
        ForwardIsPrefix(chunks, k, leaves, 0);
        assert chunks[0..] == chunks;
        var part := Forward(chunks, k, leaves, 0);
        if !part.cancelled && broken.Some? && part.sent == [] {
          if TriesAgain(cfg, broken.value, k, tries) {
            RelaysOneResponse(cfg, routes, upstream, leaves, next, route, tries + 1, broken);
          } else {
            RelaysOneResponse(cfg, routes, upstream, leaves, next, route + 1, 0, broken);
          }
        }
    }
  }

  // ---------- which chunks leave ----------

  /** The chunks that are not empty. */
  function Filled(chunks: seq<Bytes>): seq<Bytes> {
    if chunks == [] then [] else (if chunks[0] == [] then [] else [chunks[0]]) + Filled(chunks[1..])
  }

  /** The client of call `k` stays for exactly the first `n` chunks. */
  predicate StaysFor(chunks: seq<Bytes>, k: nat, leaves: (nat, nat) -> bool, from: nat, n: nat) {
    from <= n <= |chunks| && (forall j :: from <= j < n ==> !leaves(k, j)) && (n < |chunks| ==> leaves(k, n))
  }

  lemma {:induction false} ForwardsWhileStaying(chunks: seq<Bytes>, k: nat, leaves: (nat, nat) -> bool, i: nat)
      returns (n: nat)
    requires i <= |chunks|
    ensures StaysFor(chunks, k, leaves, i, n)
    ensures Forward(chunks, k, leaves, i) == Forwarded(Filled(chunks[i..n]), n < |chunks|)
    decreases |chunks| - i
  {
    if i == |chunks| || leaves(k, i) {
      n := i;
      assert chunks[i..n] == [];
    } else {
      n := ForwardsWhileStaying(chunks, k, leaves, i + 1);
      assert chunks[i..n][1..] == chunks[i + 1..n];
    }
  }

  /**
    The client was sent the chunks, empty ones left out, for which it stayed; and it left exactly if
    there were more.
   */
  predicate SentWhileStaying(r: Streamed, chunks: seq<Bytes>, k: nat, leaves: (nat, nat) -> bool, n: nat) {
    StaysFor(chunks, k, leaves, 0, n) && r.sent == Filled(chunks[..n]) && (r.ending.Cancelled? <==> n < |chunks|)
  }

  /** What leaves are exactly the non-empty chunks of the last call up to the one at which the client left. */
  lemma {:induction false} RelaysWhileStaying(cfg: Settings, routes: seq<Route>, upstream: nat -> Opening,
                                              leaves: (nat, nat) -> bool, made: seq<Call>, route: nat, tries: nat,
                                              last: Option<Failure>)
    ensures var r := Relay(cfg, routes, upstream, leaves, made, route, tries, last);
            r.source.Some? ==>
              && upstream(r.source.value).Opened?
              && exists n :: SentWhileStaying(r, upstream(r.source.value).chunks, r.source.value, leaves, n)
    decreases cfg.perRequest + 1 - |made|
  {
    hide Forward, Filled, StaysFor;
    var k, next := |made|, made + [Call(0, route)];
    var r := Relay(cfg, routes, upstream, leaves, made, route, tries, last);
    if RelayGoesOn(cfg, routes, k, route, tries) {
      match upstream(k)
      case NotOpened(f) =>
        if TriesAgain(cfg, f, k, tries) {
          RelaysWhileStaying(cfg, routes, upstream, leaves, next, route, tries + 1, Some(f));
        } else {
          RelaysWhileStaying(cfg, routes, upstream, leaves, next, route + 1, 0, Some(f));
        }
      case Opened(chunks, broken) =>
        var part := Forward(chunks, k, leaves, 0);
        if !part.cancelled && broken.Some? && part.sent == [] {
          if TriesAgain(cfg, broken.value, k, tries) {
            RelaysWhileStaying(cfg, routes, upstream, leaves, next, route, tries + 1, broken);
          } else {
            RelaysWhileStaying(cfg, routes, upstream, leaves, next, route + 1, 0, broken);
          }
        } else {
          var n := ForwardsWhileStaying(chunks, k, leaves, 0);
          StaysWithin(chunks, k, leaves, n);
          assert chunks[0..n] == chunks[..n];
          assert SentWhileStaying(r, chunks, k, leaves, n);
        }
    }
  }

  lemma StaysWithin(chunks: seq<Bytes>, k: nat, leaves: (nat, nat) -> bool, n: nat)
    requires StaysFor(chunks, k, leaves, 0, n)
    ensures n <= |chunks|
  {
  }
}
