/**
  When the result of a handler can be stored, and what alone can lose one in a run.
 */
module Results {
  import opened Domain
  import opened Wrappers
  import opened StateStore
  import opened ApprovalStore
  import opened Gate
  import opened Protocol
  import opened Execution
  import opened ApprovalEffects
  import opened StepEffects
  import opened Approvals
  import opened Coupling

  /** A claim that a known result of `c` can spend. */
  predicate Spendable(db: Db, c: CallId) {
    && c in db.approvals && db.approvals[c].status.Claimed? && db.approvals[c].intent == Some(c)
    && db.run.status.Running?
  }

  /** Same calls, approvals, run status and lease. */
  predicate SameStanding(a: Db, b: Db) {
    b.calls == a.calls && b.approvals == a.approvals && b.run.status == a.run.status && b.lease == a.lease
  }

  lemma FactSucceeds(db: Db, u: Unit, fact: Evidence)
    requires HoldsLease(db, u)
    requires fact.call.Some? ==> fact.call.value in db.calls && !TerminalCall(db.calls[fact.call.value].status)
    ensures AddEvidence(db, u, fact).Ok? && SameStanding(db, AddEvidence(db, u, fact).value)
  {
    hide Quiet, Evolves;
  }

  lemma {:induction false} FactsSucceed(db: Db, u: Unit, c: CallId, facts: seq<Fact>)
    requires HoldsLease(db, u) && c in db.calls && !TerminalCall(db.calls[c].status)
    ensures AddFacts(db, u, c, facts).Ok? && SameStanding(db, AddFacts(db, u, c, facts).value)
    decreases |facts|
  {
    hide Quiet, Evolves, AddEvidence;
    if facts != [] {
      var fact := Evidence(Some(c), facts[0].kind, facts[0].path, facts[0].content, u.now, true);
      FactSucceeds(db, u, fact);
      FactsSucceed(AddEvidence(db, u, fact).value, u, c, facts[1..]);
    }
  }

  /** What the Gate makes of any handler outcome keeps to the rules of the store for that status. */
  lemma ConfirmedOutcomeFits(db: Db, u: Unit, c: CallId, o: Outcome)
    requires HoldsLease(db, u) && c in db.calls && db.calls[c].status.Started?
    ensures var confirmed := Confirm(o);
            var target := MapOutcome(confirmed, db.calls[c].idempotent);
            var r := TransitionInvocation(db, u, c, InvocationStatus.Started, db.calls[c].revision, target,
                confirmed.error);
            && r.Ok? && r.value.approvals == db.approvals && r.value.run.status == db.run.status
                && r.value.lease == db.lease
            && c in r.value.calls && r.value.calls[c].status == target
  {
    hide Quiet, Evolves;
  }

  lemma SpendSucceeds(db: Db, u: Unit, c: CallId, result: InvocationStatus, code: Option<ErrorCode>)
    requires HoldsLease(db, u) && c in db.calls && db.calls[c].status == result && Deterministic(result)
    ensures (Load(db, u, c).Ok? && c in Load(db, u, c).value.approvals
             && Consume(Load(db, u, c).value, u, c, Load(db, u, c).value.approvals[c].revision, c, result, code).Ok?)
            <==> Spendable(db, c)
  {
    hide Quiet, Evolves, Expire;
    if c in db.approvals && Due(db.approvals[c], u.now) && Expire(db, u, c).Ok? {
      ExpireEffect(db, u, c);
    }
  }

  /**
    The owner of a STARTED call can store whatever its handler reported, unless the result is known,
    the call was approved, and the claim or the RUNNING run it needs is gone.
   */
  lemma ResultCommitsExactly(db: Db, u: Unit, pass: Pass, o: Outcome)
    requires var c := pass.req.call;
             HoldsLease(db, u) && c in db.calls && db.calls[c].status.Started?
                 && db.calls[c].idempotent == pass.spec.idempotent
    ensures PersistResult(db, u, pass, Confirm(o)).Ok? <==>
              (pass.approved && Deterministic(MapOutcome(Confirm(o), pass.spec.idempotent)) ==>
                 Spendable(db, pass.req.call))
  {
    hide Quiet, Evolves, AddFacts, TransitionInvocation, Load, Consume, Confirm, MapOutcome;
    var c, confirmed := pass.req.call, Confirm(o);
    var target := MapOutcome(confirmed, pass.spec.idempotent);
    FactsSucceed(db, u, c, confirmed.facts);
    var noted := AddFacts(db, u, c, confirmed.facts).value;
    ConfirmedOutcomeFits(noted, u, c, o);
    var moved := TransitionInvocation(noted, u, c, InvocationStatus.Started, noted.calls[c].revision, target,
        confirmed.error).value;
    assert Spendable(moved, c) <==> Spendable(db, c);
    if pass.approved && Deterministic(target) {
      SpendSucceeds(moved, u, c, target, confirmed.error);
      if Load(moved, u, c).Ok? {
        LoadEffect(moved, u, c);
      }
    }
  }

  // ---------- whole runs ----------

  function SpecOf(cfg: Config, tool: Tool): Option<ToolSpec> {
    if tool in cfg.registry then Some(cfg.registry[tool])
    else if tool in cfg.internal then Some(cfg.internal[tool])
    else None
  }

  /** What a call row says about repeating it is what its tool says. */
  predicate Described(cfg: Config, i: Invocation) {
    SpecOf(cfg, i.tool).Some? && i.idempotent == SpecOf(cfg, i.tool).value.idempotent
  }

  /** A Gate works with the definition of its tool, and reports nothing it has not confirmed. */
  predicate Briefed(cfg: Config, g: Gate) {
    && (g.OpeningApproval? || Passing(g) ==> SpecOf(cfg, g.pass.req.tool) == Some(g.pass.spec))
    && (g.Persisting? ==> ValidOutcome(g.outcome))
  }

  ghost predicate Faithful(cfg: Config, s: System) {
    && ValidConfig(cfg)
    && (forall c :: c in s.db.calls ==> Described(cfg, s.db.calls[c]))
    && (forall t: Token :: Briefed(cfg, GateOf(s, t)))
  }

  lemma DecisionsBrief(cfg: Config, db: Db, u: Unit, req: Request, allowed: set<RunStatus>, readOnly: bool)
    requires ValidConfig(cfg)
    ensures Briefed(cfg, DecideInvoke(cfg, db, u, req))
    ensures Briefed(cfg, DecideReentry(cfg, db, u, req))
    ensures Briefed(cfg, DecideInternal(cfg, db, u, req, allowed, readOnly))
  {
    hide Equivalent, WriteReplay, RepeatFault, RequestFault, DuplicateCode, ApprovalCode, BudgetSpent,
         RecoveryBudgetSpent, HoldsLease;
  }

  lemma TurnBriefs(cfg: Config, g: Gate, db: Db, now: Time, t: Token, outcome: Outcome)
    requires ValidConfig(cfg) && Briefed(cfg, g)
    ensures Briefed(cfg, TakeTurn(cfg, g, db, now, t, outcome).gate)
  {
    hide Quiet, Evolves, OpenApproval, PollApproval, ClaimAndAllow, PrepareAndAllow, RecordRecoveryAllow,
         ResumeOrClaim, MarkStarted, PersistResult, LogDenial, DecideInvoke, DecideReentry, DecideInternal, SpecOf,
         DecideLoad;
    match g
    case Snapshotting(req) => DecisionsBrief(cfg, db, Unit(now, t, req.actor), req, {}, false);
    case SnapshottingReentry(req) => DecisionsBrief(cfg, db, Unit(now, t, req.actor), req, {}, false);
    case SnapshottingInternal(req, allowed, readOnly) =>
      DecisionsBrief(cfg, db, Unit(now, t, req.actor), req, allowed, readOnly);
    case Loading(req) => LoadBriefs(cfg, db, Unit(now, t, req.actor), req);
    case _ =>
  }

  lemma LoadBriefs(cfg: Config, db: Db, u: Unit, req: Request)
    ensures Briefed(cfg, DecideLoad(db, u, req))
  {
  }

  /** The row an approval request creates takes the tool's own answer. */
  lemma OpeningDescribes(cfg: Config, db: Db, u: Unit, pass: Pass, existing: bool)
    requires OpenApproval(cfg, db, u, pass, existing).Ok? && pass.req.call !in db.calls
    ensures var b := OpenApproval(cfg, db, u, pass, existing).value;
            && pass.req.call in b.calls && b.calls[pass.req.call].tool == pass.req.tool
            && b.calls[pass.req.call].idempotent == pass.spec.idempotent
  {
    hide Evolves, ApprovalStore.Create, CreateInvocation;
    var prepared :=
      if existing then db
      else CreateInvocation(db, u, pass.req.call, NewInvocation(pass, u.now), db.run.revision).value;
    var ask := Ask(pass.req.call, pass.digest, pass.req.actor, cfg.approvalRoles, cfg.approvalTtl);
    CreateNeedsCall(prepared, u, ask);
    var asked := ApprovalStore.Create(prepared, u, ask).value;
    var b := OpenApproval(cfg, db, u, pass, existing).value;
    SameCallAfter(prepared, asked, pass.req.call);
    assert b.calls == asked.calls;
  }

  lemma CreateNeedsCall(db: Db, u: Unit, ask: Ask)
    requires ApprovalStore.Create(db, u, ask).Ok?
    ensures ask.call in db.calls
  {
    hide Quiet, Evolves;
  }

  lemma SameCallAfter(a: Db, b: Db, c: CallId)
    requires Quiet(a, b) && c in a.calls
    ensures c in b.calls && b.calls[c].tool == a.calls[c].tool && b.calls[c].idempotent == a.calls[c].idempotent
  {
  }

  /** Only two kinds of step add a call. */
  lemma NewCallKind(cfg: Config, a: Db, b: Db, now: Time, k: Kind, c: CallId)
    requires Shows(cfg, a, b, now, k) && c in b.calls && c !in a.calls
    ensures (k.Creation? || k.Opening?) && k.pass.req.call == c
    ensures k.Creation? ==> b.calls[c] == NewInvocation(k.pass, now)
  {
    hide Evolves, HarnessMove, FreshRow, Recovers;
    if k.Recovering? {
      RecoversAddsNoCall(a, b, now);
    }
  }

  lemma RecoversAddsNoCall(a: Db, b: Db, now: Time)
    requires Recovers(a, b, now)
    ensures b.calls.Keys == a.calls.Keys
  {
  }

  lemma NewCallDescribed(cfg: Config, s: System, step: Step, c: CallId)
    requires Faithful(cfg, s) && s.db.approvals.Keys <= s.db.calls.Keys
    requires c in Next(cfg, s, step).db.calls && c !in s.db.calls
    ensures Described(cfg, Next(cfg, s, step).db.calls[c])
  {
    hide Quiet, Evolves, StoreStep, Shows, SpecOf, OpenApproval, DecideInvoke, DecideReentry, DecideInternal;
    var k := StepKind(cfg, s, step);
    NewCallKind(cfg, s.db, Next(cfg, s, step).db, s.now, k, c);
    assert step.Advance?;
    assert Briefed(cfg, GateOf(s, step.token));
    if k.Opening? {
      OpeningDescribes(cfg, s.db, Unit(s.now, step.token, k.actor), k.pass, k.existing);
    }
  }

  lemma FaithfulNext(cfg: Config, s: System, step: Step)
    requires Faithful(cfg, s) && s.db.approvals.Keys <= s.db.calls.Keys
    ensures Faithful(cfg, Next(cfg, s, step))
  {
    hide Evolves, StoreStep, Described, TakeTurn;
    var s' := Next(cfg, s, step);
    NextEvolves(cfg, s, step);
    forall c | c in s'.db.calls ensures Described(cfg, s'.db.calls[c]) {
      if c in s.db.calls {
        DescribedStays(cfg, s.db, s'.db, c);
      } else {
        NewCallDescribed(cfg, s, step, c);
      }
    }
    forall t: Token ensures Briefed(cfg, GateOf(s', t)) {
      assert Briefed(cfg, GateOf(s, t));
      if step.Advance? && step.token == t {
        TurnBriefs(cfg, GateOf(s, t), s.db, s.now, t, step.outcome);
      }
    }
  }

  lemma DescribedStays(cfg: Config, a: Db, b: Db, c: CallId)
    requires Evolves(a, b) && c in a.calls && Described(cfg, a.calls[c])
    ensures c in b.calls && Described(cfg, b.calls[c])
  {
  }

  lemma {:induction false} StandingExec(cfg: Config, s: System, steps: seq<Step>)
    requires Governed(cfg, s) && Faithful(cfg, s)
    ensures Governed(cfg, Exec(cfg, s, steps)) && Faithful(cfg, Exec(cfg, s, steps))
    decreases |steps|
  {
    hide Governed, Faithful, Next;
    if steps != [] {
      GovernedMeans(cfg, s);
      GovernedNext(cfg, s, steps[0]);
      FaithfulNext(cfg, s, steps[0]);
      StandingExec(cfg, Next(cfg, s, steps[0]), steps[1..]);
    }
  }

  /** The claim that a known result spends still stands, in a run that still runs. */
  predicate ClaimStands(db: Db, c: CallId) {
    c in db.approvals && db.approvals[c].status.Claimed? && db.run.status.Running?
  }

  /** What a Gate about to store a result may rely on. */
  lemma StandingMeans(cfg: Config, s: System, t: Token)
    requires Governed(cfg, s) && Faithful(cfg, s) && GateOf(s, t).Persisting?
    requires GateOf(s, t).pass.req.call in s.db.calls
    ensures var g, c := GateOf(s, t), GateOf(s, t).pass.req.call;
            && Confirm(g.outcome) == g.outcome
            && s.db.calls[c].idempotent == g.pass.spec.idempotent
            && (Spendable(s.db, c) <==> ClaimStands(s.db, c))
  {
    hide Evolves, Authorized, TermsHold;
    var g, c := GateOf(s, t), GateOf(s, t).pass.req.call;
    assert Briefed(cfg, g) && LaneOk(cfg, s.db, g) && Described(cfg, s.db.calls[c]);
    if c in s.db.approvals {
      assert HistoryHolds(s.db.audit, s.db.approvals[c], c, s.now);
    }
  }

  /** A known result of an approved call, whose claim was withdrawn or whose run left RUNNING. */
  predicate ResultLost(g: Gate, db: Db)
    requires g.Persisting?
  {
    g.pass.approved && Deterministic(MapOutcome(g.outcome, g.pass.spec.idempotent)) && !ClaimStands(db, g.pass.req.call)
  }

  /** The call has its result, and a known one has spent the approval; or the result is lost and nothing is written. */
  predicate StoredUnlessLost(g: Gate, a: Db, b: Db)
    requires g.Persisting?
  {
    var c, target := g.pass.req.call, MapOutcome(g.outcome, g.pass.spec.idempotent);
    if ResultLost(g, a) then b == a
    else
      && c in b.calls && b.calls[c].status == target
      && (g.pass.approved && Deterministic(target) ==> c in b.approvals && b.approvals[c].status.Consumed?)
  }

  /** The Gate of `t` holds the lease and comes with a result of its STARTED call. */
  predicate BringsResult(s: System, t: Token) {
    var g := GateOf(s, t);
    && g.Persisting? && HoldsLease(s.db, Unit(s.now, t, g.pass.req.actor))
    && g.pass.req.call in s.db.calls && s.db.calls[g.pass.req.call].status.Started?
  }

  /**
    In every run a Gate that still holds the lease stores the result of its STARTED call.  All that
    can lose a result is that it is known, the call was approved, and meanwhile the claim was
    withdrawn or the run left RUNNING; then nothing at all is written.
   */
  lemma ResultsAreStored(cfg: Config, start: System, steps: seq<Step>, t: Token, outcome: Outcome)
    requires Initial(cfg, start) && BringsResult(Exec(cfg, start, steps), t)
    ensures var s := Exec(cfg, start, steps);
            StoredUnlessLost(GateOf(s, t), s.db, Next(cfg, s, Advance(t, outcome)).db)
  {
    hide Exec, Next, Governed, Faithful, Evolves, PersistResult, Confirm, MapOutcome, Spendable, Initial;
    InitialGoverned(cfg, start);
    InitialFaithful(cfg, start);
    StandingExec(cfg, start, steps);
    var s := Exec(cfg, start, steps);
    StandingMeans(cfg, s, t);
    PersistingStep(cfg, s, t, outcome);
  }

  /** In careful runs the claim still stands, so a result is lost only if the run left RUNNING. */
  lemma CarefulRunsKeepTheClaim(cfg: Config, start: System, steps: seq<Step>, t: Token)
    requires Initial(cfg, start) && CarefulRun(cfg, start, steps) && BringsResult(Exec(cfg, start, steps), t)
    ensures var s := Exec(cfg, start, steps);
            ResultLost(GateOf(s, t), s.db) ==> !s.db.run.status.Running?
  {
    hide Exec, Next, CarefulRun, Governed, Faithful, Evolves, MapOutcome, Initial;
    InitialGoverned(cfg, start);
    InitialFaithful(cfg, start);
    StandingExec(cfg, start, steps);
    var s := Exec(cfg, start, steps);
    ApprovedHasRow(cfg, s, t);
    if GateOf(s, t).pass.req.call in s.db.approvals {
      ApprovalsFollowCalls(cfg, start, steps, GateOf(s, t).pass.req.call);
    }
  }

  lemma ApprovedHasRow(cfg: Config, s: System, t: Token)
    requires Governed(cfg, s) && GateOf(s, t).Persisting?
    ensures GateOf(s, t).pass.approved ==> GateOf(s, t).pass.req.call in s.db.approvals
  {
    assert LaneOk(cfg, s.db, GateOf(s, t));
  }

  /**
    After its handler a Gate comes to store the result, unless it fails on the output itself.  In both
    cases this turn writes no row; in the second it denies the call, which stays STARTED until a
    recovery marks it.
   */
  lemma HandlerLeadsToResult(cfg: Config, s: System, t: Token, outcome: Outcome)
    requires GateOf(s, t).Executing?
    ensures var pass, after := GateOf(s, t).pass, Next(cfg, s, Advance(t, outcome));
            && after.db == s.db && after.executed == s.executed + [pass.req.call]
            && (if outcome.breaks then GateOf(after, t) == Denying(pass.req, GateInternal)
                else GateOf(after, t) == Persisting(pass, Confirm(outcome)))
            && (outcome.breaks ==>
                  var denied := Next(cfg, after, Advance(t, outcome));
                  GateOf(denied, t).Idle? && denied.db.calls == s.db.calls && denied.executed == after.executed)
  {
    hide Quiet, Evolves, StoreStep;
  }

  lemma PersistingStep(cfg: Config, s: System, t: Token, outcome: Outcome)
    requires BringsResult(s, t)
    requires var g, c := GateOf(s, t), GateOf(s, t).pass.req.call;
             && Confirm(g.outcome) == g.outcome && s.db.calls[c].idempotent == g.pass.spec.idempotent
             && (Spendable(s.db, c) <==> ClaimStands(s.db, c))
    ensures StoredUnlessLost(GateOf(s, t), s.db, Next(cfg, s, Advance(t, outcome)).db)
  {
    hide Evolves, Quiet, PersistResult, Confirm, MapOutcome, Spendable;
    var g := GateOf(s, t);
    var u := Unit(s.now, t, g.pass.req.actor);
    ResultCommitsExactly(s.db, u, g.pass, g.outcome);
    if PersistResult(s.db, u, g.pass, g.outcome).Ok? {
      PersistEffect(s.db, u, g.pass, g.outcome);
      PersistStatus(s.db, u, g.pass, g.outcome);
    }
  }

  lemma PersistStatus(db: Db, u: Unit, pass: Pass, outcome: Outcome)
    requires PersistResult(db, u, pass, outcome).Ok?
    ensures var b := PersistResult(db, u, pass, outcome).value;
            pass.req.call in b.calls && b.calls[pass.req.call].status == MapOutcome(outcome, pass.spec.idempotent)
  {
    hide Quiet, Evolves, AddFacts, Load, Consume, TransitionInvocation, MapOutcome;
    var c, target := pass.req.call, MapOutcome(outcome, pass.spec.idempotent);
    var noted := AddFacts(db, u, c, outcome.facts).value;
    var moved := TransitionInvocation(noted, u, c, InvocationStatus.Started, noted.calls[c].revision, target,
        outcome.error).value;
    if pass.approved && Deterministic(target) {
      var loaded := Load(moved, u, c).value;
      LoadEffect(moved, u, c);
      ConsumeEffect(loaded, u, c, loaded.approvals[c].revision, c, target, outcome.error);
    }
  }

  lemma InitialFaithful(cfg: Config, s: System)
    requires Initial(cfg, s)
    ensures Faithful(cfg, s)
  {
  }
}
