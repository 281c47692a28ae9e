/**
  Which calls the Gate lets through: what every call that goes on has been checked for, and exactly
  when an undisturbed call reaches its handler or comes to wait for an approval.
 */
module Admission {
  import opened Domain
  import opened Wrappers
  import opened StateStore
  import opened ApprovalStore
  import opened Gate
  import opened Protocol
  import opened Execution
  import opened ApprovalEffects
  import opened StepEffects
  import opened Approvals
  import opened RecoveryPlans
  import Results

  // ---------- what every call has been checked for ----------

  predicate HoldsPass(g: Gate) {
    g.OpeningApproval? || Passing(g)
  }

  /** A call that passes was asked for in its own run's context, with the arguments whose digest it carries. */
  predicate Vetted(cfg: Config, g: Gate) {
    HoldsPass(g) ==>
      && g.pass.req.contextMatches && g.pass.req.digest == Some(g.pass.digest)
      && if g.pass.internal then g.pass.req.tool in cfg.internal
         else g.pass.req.tool in cfg.registry && g.pass.req.tool in cfg.visible && g.pass.req.admitted
  }

  /** A tool that the model can see, or one of the verifier's own. */
  predicate Open(cfg: Config, tool: Tool) {
    (tool in cfg.registry && tool in cfg.visible) || tool in cfg.internal
  }

  ghost predicate AllVetted(cfg: Config, s: System) {
    && (forall t: Token :: Vetted(cfg, GateOf(s, t)))
    && (forall c :: c in s.db.calls ==> Open(cfg, s.db.calls[c].tool))
  }

  lemma DecisionsVet(cfg: Config, db: Db, u: Unit, req: Request, allowed: set<RunStatus>, readOnly: bool)
    ensures Vetted(cfg, DecideInvoke(cfg, db, u, req))
    ensures Vetted(cfg, DecideReentry(cfg, db, u, req))
    ensures Vetted(cfg, DecideInternal(cfg, db, u, req, allowed, readOnly))
    ensures Vetted(cfg, DecideLoad(db, u, req))
  {
    hide Equivalent, WriteReplay, RepeatFault, DuplicateCode, ApprovalCode, BudgetSpent, RecoveryBudgetSpent,
        HoldsLease,
         RequiresApproval;
  }

  lemma TurnVets(cfg: Config, g: Gate, db: Db, now: Time, t: Token, outcome: Outcome)
    requires Vetted(cfg, g)
    ensures Vetted(cfg, TakeTurn(cfg, g, db, now, t, outcome).gate)
  {
    hide Quiet, Evolves, OpenApproval, PollApproval, ClaimAndAllow, PrepareAndAllow, RecordRecoveryAllow, ResumeOrClaim,
         MarkStarted, PersistResult, LogDenial, DecideInvoke, DecideReentry, DecideInternal, DecideLoad;
    match g
    case Snapshotting(req) => DecisionsVet(cfg, db, Unit(now, t, req.actor), req, {}, false);
    case SnapshottingReentry(req) => DecisionsVet(cfg, db, Unit(now, t, req.actor), req, {}, false);
    case SnapshottingInternal(req, allowed, readOnly) =>
      DecisionsVet(cfg, db, Unit(now, t, req.actor), req, allowed, readOnly);
    case Loading(req) => DecisionsVet(cfg, db, Unit(now, t, req.actor), req, {}, false);
    case _ =>
  }

  lemma NewCallIsOpen(cfg: Config, s: System, step: Step, c: CallId)
    requires AllVetted(cfg, s) && s.db.approvals.Keys <= s.db.calls.Keys
    requires c in Next(cfg, s, step).db.calls && c !in s.db.calls
    ensures Open(cfg, Next(cfg, s, step).db.calls[c].tool)
  {
    hide Quiet, Evolves, StoreStep, TakeTurn, Shows;
    var k := StepKind(cfg, s, step);
    Results.NewCallKind(cfg, s.db, Next(cfg, s, step).db, s.now, k, c);
    NewCallsTool(cfg, s.db, Next(cfg, s, step).db, s.now, k);
    assert step.Advance?;
    assert Vetted(cfg, GateOf(s, step.token));
  }

  lemma NewCallsTool(cfg: Config, a: Db, b: Db, now: Time, k: Kind)
    requires Shows(cfg, a, b, now, k) && (k.Creation? || k.Opening?) && k.pass.req.call !in a.calls
    ensures k.pass.req.call in b.calls && b.calls[k.pass.req.call].tool == k.pass.req.tool
  {
    hide FreshRow;
  }

  lemma AllVettedNext(cfg: Config, s: System, step: Step)
    requires AllVetted(cfg, s) && s.db.approvals.Keys <= s.db.calls.Keys
    ensures AllVetted(cfg, Next(cfg, s, step))
  {
    hide Evolves, StoreStep, TakeTurn, Open;
    var s' := Next(cfg, s, step);
    NextEvolves(cfg, s, step);
    forall c | c in s'.db.calls ensures Open(cfg, s'.db.calls[c].tool) {
      if c in s.db.calls {
        SameTool(s.db, s'.db, c);
      } else {
        NewCallIsOpen(cfg, s, step, c);
      }
    }
    forall t: Token ensures Vetted(cfg, GateOf(s', t)) {
      assert Vetted(cfg, GateOf(s, t));
      if step.Advance? && step.token == t {
        TurnVets(cfg, GateOf(s, t), s.db, s.now, t, step.outcome);
      }
    }
  }

  lemma {:induction false} AllVettedExec(cfg: Config, s: System, steps: seq<Step>)
    requires Governed(cfg, s) && AllVetted(cfg, s)
    ensures AllVetted(cfg, Exec(cfg, s, steps))
    decreases |steps|
  {
    hide Governed, AllVetted, Next;
    if steps != [] {
      GovernedMeans(cfg, s);
      GovernedNext(cfg, s, steps[0]);
      AllVettedNext(cfg, s, steps[0]);
      AllVettedExec(cfg, Next(cfg, s, steps[0]), steps[1..]);
    }
  }

  /**
    In every run a Gate that goes on with a model's call has found its tool registered and visible,
    its context right, its caller admitted and its arguments to be those it carries; a verifier's call
    uses a verifier's tool.  No other tool has a call at all, so no handler of one ever runs.
   */
  lemma OnlyVettedCallsGoOn(cfg: Config, s: System, steps: seq<Step>, t: Token)
    requires Initial(cfg, s)
    ensures var e := Exec(cfg, s, steps);
            && Vetted(cfg, GateOf(e, t))
            && (forall c :: c in e.db.calls ==> Open(cfg, e.db.calls[c].tool))
            && (forall c :: c in e.executed ==> c in e.db.calls && Open(cfg, e.db.calls[c].tool))
  {
    hide Exec, Vetted, Open;
    InitialGoverned(cfg, s);
    InitialVetted(cfg, s);
    AllVettedExec(cfg, s, steps);
    AtMostOnce(cfg, s, steps);
  }

  lemma InitialVetted(cfg: Config, s: System)
    requires Initial(cfg, s)
    ensures AllVetted(cfg, s)
  {
  }

  // ---------- what the log says of a call ----------

  /** The Gate has logged that it lets the call through. */
  predicate AllowanceLogged(db: Db, c: CallId) {
    exists i :: 0 <= i < |db.audit| && db.audit[i].entry.event == GateAllowed(c)
  }

  predicate LetThrough(g: Gate) {
    g.Starting? || g.Executing? || g.Persisting?
  }

  ghost predicate AllLogged(s: System) {
    && (forall t: Token :: LetThrough(GateOf(s, t)) ==> AllowanceLogged(s.db, GateOf(s, t).pass.req.call))
    && (forall c :: c in s.executed ==> AllowanceLogged(s.db, c))
  }

  lemma LoggedLater(a: Db, b: Db, c: CallId)
    requires a.audit <= b.audit && AllowanceLogged(a, c)
    ensures AllowanceLogged(b, c)
  {
    var i :| 0 <= i < |a.audit| && a.audit[i].entry.event == GateAllowed(c);
    assert b.audit[i] == a.audit[i];
  }

  lemma AllowanceIsLogged(db: Db, u: Unit, c: CallId)
    ensures AllowanceLogged(Log(db, u, GateAllowed(c)), c)
  {
    var b := Log(db, u, GateAllowed(c));
    assert b.audit[|db.audit|].entry.event == GateAllowed(c);
  }

  lemma TurnLogs(cfg: Config, g: Gate, db: Db, now: Time, t: Token, outcome: Outcome)
    requires LetThrough(g) ==> AllowanceLogged(db, g.pass.req.call)
    ensures var turn := TakeTurn(cfg, g, db, now, t, outcome);
            && (LetThrough(turn.gate) ==> AllowanceLogged(turn.db, turn.gate.pass.req.call))
            && (turn.ran.Some? ==> AllowanceLogged(turn.db, turn.ran.value))
  {
    hide Quiet, Evolves, OpenApproval, PollApproval, ClaimTransaction, CreateInvocation, RecordBudgetDelta, Load,
         ResumeClaim, MarkStarted, PersistResult, LogDenial, DecideInvoke, DecideReentry, DecideInternal, DecideLoad,
         AllowanceLogged, Log;
    if g.ClaimingApproval? || g.PreparingCall? || g.RecordingReentry? || g.ResumingClaim? {
      CommitLogs(cfg, g, db, now, t, outcome);
    } else if g.Starting? {
      var u := Unit(now, t, g.pass.req.actor);
      StartKeepsLog(db, u, g.pass.req.call);
      if MarkStarted(db, u, g.pass.req.call).Ok? {
        LoggedLater(db, MarkStarted(db, u, g.pass.req.call).value, g.pass.req.call);
      }
    } else {
      DecisionsLetNothingThrough(cfg, db, Unit(now, t, if g.Idle? then "" else ActorOf(g)), g);
    }
  }

  function ActorOf(g: Gate): Actor
    requires !g.Idle?
  {
    if HoldsPass(g) then g.pass.req.actor else g.req.actor
  }

  lemma DecisionsLetNothingThrough(cfg: Config, db: Db, u: Unit, g: Gate)
    ensures g.Snapshotting? ==> !LetThrough(DecideInvoke(cfg, db, u, g.req))
    ensures g.SnapshottingReentry? ==> !LetThrough(DecideReentry(cfg, db, u, g.req))
    ensures g.SnapshottingInternal? ==> !LetThrough(DecideInternal(cfg, db, u, g.req, g.allowed, g.readOnly))
    ensures g.Loading? ==> !LetThrough(DecideLoad(db, u, g.req))
  {
    hide Equivalent, WriteReplay, RepeatFault, DuplicateCode, ApprovalCode, BudgetSpent, RecoveryBudgetSpent,
        HoldsLease,
         RequiresApproval;
  }

  lemma StartKeepsLog(db: Db, u: Unit, c: CallId)
    ensures MarkStarted(db, u, c).Ok? ==> db.audit <= MarkStarted(db, u, c).value.audit
  {
    hide Quiet, TransitionInvocation;
  }

  lemma CommitLogs(cfg: Config, g: Gate, db: Db, now: Time, t: Token, outcome: Outcome)
    requires g.ClaimingApproval? || g.PreparingCall? || g.RecordingReentry? || g.ResumingClaim?
    ensures var turn := TakeTurn(cfg, g, db, now, t, outcome);
            && (LetThrough(turn.gate) ==> AllowanceLogged(turn.db, turn.gate.pass.req.call)) && turn.ran.None?
  {
    hide Quiet, Evolves, ClaimTransaction, CreateInvocation, RecordBudgetDelta, Load, ResumeClaim, AllowanceLogged, Log;
    var u, c := Unit(now, t, g.pass.req.actor), g.pass.req.call;
    if TakeTurn(cfg, g, db, now, t, outcome).gate.Starting? {
      var before := TheLogged(cfg, g, db, u, outcome);
      AllowanceIsLogged(before, u, c);
    }
  }

  /** What the allowance was appended to. */
  lemma TheLogged(cfg: Config, g: Gate, db: Db, u: Unit, outcome: Outcome) returns (before: Db)
    requires g.ClaimingApproval? || g.PreparingCall? || g.RecordingReentry? || g.ResumingClaim?
    requires TakeTurn(cfg, g, db, u.now, u.token, outcome).gate.Starting? && u.actor == g.pass.req.actor
    ensures TakeTurn(cfg, g, db, u.now, u.token, outcome).db == Log(before, u, GateAllowed(g.pass.req.call))
  {
    hide Quiet, Evolves, ClaimTransaction, CreateInvocation, RecordBudgetDelta, Load, ResumeClaim, Log;
    var c := g.pass.req.call;
    match g {
      case ClaimingApproval(pass) => before := ClaimTransaction(db, u, c).value;
      case PreparingCall(pass) =>
        var prepared := CreateInvocation(db, u, c, NewInvocation(pass, u.now), db.run.revision).value;
        before := if pass.internal then prepared else RecordToolBudget(prepared, u, c).value;
      case RecordingReentry(pass) => before := db;
      case ResumingClaim(pass) =>
        LoadEffect(db, u, c);
        var loaded := Load(db, u, c).value;
        before := if loaded.approvals[c].status.Claimed?
                  then ResumeClaim(loaded, u, c, loaded.approvals[c].revision, c).value
                  else ClaimTransaction(loaded, u, c).value;
    }
  }

  lemma AllLoggedNext(cfg: Config, s: System, step: Step)
    requires AllLogged(s)
    ensures AllLogged(Next(cfg, s, step))
  {
    hide StoreStep, TakeTurn, AllowanceLogged, Evolves, Quiet;
    var s' := Next(cfg, s, step);
    NextEvolves(cfg, s, step);
    LogGrows(s.db, s'.db);
    if step.Advance? {
      TurnLogs(cfg, GateOf(s, step.token), s.db, s.now, step.token, step.outcome);
    }
    forall c | AllowanceLogged(s.db, c) ensures AllowanceLogged(s'.db, c) {
      LoggedLater(s.db, s'.db, c);
    }
    forall t: Token | LetThrough(GateOf(s', t)) ensures AllowanceLogged(s'.db, GateOf(s', t).pass.req.call) {
      assert LetThrough(GateOf(s, t)) ==> AllowanceLogged(s.db, GateOf(s, t).pass.req.call);
    }
  }

  lemma LogGrows(a: Db, b: Db)
    requires Evolves(a, b)
    ensures a.audit <= b.audit
  {
  }

  lemma {:induction false} AllLoggedExec(cfg: Config, s: System, steps: seq<Step>)
    requires AllLogged(s)
    ensures AllLogged(Exec(cfg, s, steps))
    decreases |steps|
  {
    hide AllLogged, Next;
    if steps != [] {
      AllLoggedNext(cfg, s, steps[0]);
      AllLoggedExec(cfg, Next(cfg, s, steps[0]), steps[1..]);
    }
  }

  /** In every run, no handler runs without the Gate having logged that it lets the call through. */
  lemma HandlersAreLogged(cfg: Config, s: System, steps: seq<Step>, c: CallId)
    requires Initial(cfg, s) && c in Exec(cfg, s, steps).executed
    ensures AllowanceLogged(Exec(cfg, s, steps).db, c)
  {
    hide Exec, AllowanceLogged;
    AllLoggedExec(cfg, s, steps);
  }

  /** A denial ends the call, and is logged by whoever still holds the lease. */
  lemma DenialsAreLogged(cfg: Config, s: System, t: Token, outcome: Outcome)
    requires GateOf(s, t).Denying?
    ensures var g, e := GateOf(s, t), Next(cfg, s, Advance(t, outcome));
            var u := Unit(s.now, t, g.req.actor);
            && GateOf(e, t).Idle? && e.executed == s.executed
            && e.db == if HoldsLease(s.db, u) then Log(s.db, u, GateDenied(g.req.call, g.code)) else s.db
  {
    hide Quiet, Evolves, StoreStep, Log;
  }

  // ---------- what a call needs ----------

  /** The request itself, in the order of its checks. */
  predicate AskedRightly(cfg: Config, req: Request) {
    && req.tool in cfg.registry && req.contextMatches
    && req.tool in cfg.visible && req.digest.Some? && req.admitted
  }

  /** Calls of the same tool with the same arguments that have been started. */
  function StartedAlike(calls: map<CallId, Invocation>, tool: Tool, digest: nat): set<CallId> {
    set c | c in calls && calls[c].tool == tool && calls[c].digest == digest && !calls[c].status.Prepared?
  }

  /** A write is made once at most; a read as often as the configuration says. */
  predicate NotRepeated(cfg: Config, calls: map<CallId, Invocation>, spec: ToolSpec, tool: Tool, digest: nat) {
    if spec.risk.Read? then |StartedAlike(calls, tool, digest)| < cfg.readLimit
    else StartedAlike(calls, tool, digest) == {} && 0 < cfg.writeLimit
  }

  predicate TimeLeft(run: Run, now: Time) {
    run.startedAt.Some? && run.startedAt.value <= now ==> now < run.startedAt.value + run.limits.wallTime
  }

  predicate BudgetLeft(run: Run, now: Time) {
    && run.used.steps < run.limits.steps && run.used.toolCalls < run.limits.toolCalls
    && run.used.tokenCost < run.limits.tokenCost && TimeLeft(run, now)
  }

  predicate Live(run: Run) {
    run.status.Running? || run.status.WaitingApproval?
  }

  lemma RepeatMeans(cfg: Config, calls: map<CallId, Invocation>, spec: ToolSpec, tool: Tool, digest: nat)
    ensures RepeatFault(cfg, calls, spec, tool, digest).None? <==> NotRepeated(cfg, calls, spec, tool, digest)
    ensures WriteReplay(calls, tool, digest).Some? <==> StartedAlike(calls, tool, digest) != {}
    ensures !spec.risk.Read? && WriteReplay(calls, tool, digest).Some?
            ==> RepeatFault(cfg, calls, spec, tool, digest).Some?
  {
    assert Equivalent(calls, tool, digest) == StartedAlike(calls, tool, digest);
  }

  lemma BudgetMeans(run: Run, now: Time)
    ensures BudgetSpent(run, now) <==> !BudgetLeft(run, now)
  {
  }

  // ---------- one undisturbed call ----------

  /** A request, its decision, its transaction and its start, with nothing in between. */
  function Undisturbed(t: Token, entry: Gate, outcome: Outcome): seq<Step> {
    [Submit(t, entry), Advance(t, outcome), Advance(t, outcome), Advance(t, outcome)]
  }

  lemma UndisturbedSteps(cfg: Config, s: System, t: Token, entry: Gate, outcome: Outcome)
    requires t < s.db.nextToken && GateOf(s, t).Idle? && EntersGate(entry)
    ensures var entered := s.(gates := s.gates[t := entry]);
            var adv := Advance(t, outcome);
            Exec(cfg, s, Undisturbed(t, entry, outcome)) == Next(cfg, Next(cfg, Next(cfg, entered, adv), adv), adv)
  {
    var adv := Advance(t, outcome);
    assert Next(cfg, s, Submit(t, entry)) == s.(gates := s.gates[t := entry]);
    hide Next;
    assert Undisturbed(t, entry, outcome)[1..] == [adv, adv, adv];
    assert [adv, adv, adv][1..] == [adv, adv] && [adv, adv][1..] == [adv] && [adv][1..] == [];
    var s1 := Next(cfg, s, Submit(t, entry));
    var s2 := Next(cfg, s1, adv);
    var s3 := Next(cfg, s2, adv);
    assert Exec(cfg, s3, [adv]) == Next(cfg, s3, adv);
    assert Exec(cfg, s2, [adv, adv]) == Exec(cfg, s3, [adv]);
    assert Exec(cfg, s1, [adv, adv, adv]) == Exec(cfg, s2, [adv, adv]);
  }

  /** From the state after the decision: the handler is reached exactly if the transaction commits. */
  lemma DecidedCallRuns(cfg: Config, s: System, t: Token, outcome: Outcome)
    requires GateOf(s, t).PreparingCall? || GateOf(s, t).ClaimingApproval?
    requires var g, s' := GateOf(s, t), Next(cfg, s, Advance(t, outcome));
             GateOf(s', t) == Gate.Starting(g.pass) ==>
               && HoldsLease(s'.db, Unit(s'.now, t, g.pass.req.actor))
               && g.pass.req.call in s'.db.calls && s'.db.calls[g.pass.req.call].status.Prepared?
    ensures var g, s' := GateOf(s, t), Next(cfg, s, Advance(t, outcome));
            GateOf(Next(cfg, s', Advance(t, outcome)), t)
            == if GateOf(s', t) == Gate.Starting(g.pass) then Executing(g.pass) else Idle
  {
    hide Next;
    var s' := Next(cfg, s, Advance(t, outcome));
    CommitsOrDenies(cfg, s, t, outcome);
    if GateOf(s', t).Starting? {
      StartTurn(cfg, s', t, outcome);
    } else {
      DeniedTurn(cfg, s', t, outcome);
    }
  }

  lemma CommitsOrDenies(cfg: Config, s: System, t: Token, outcome: Outcome)
    requires GateOf(s, t).PreparingCall? || GateOf(s, t).ClaimingApproval?
    ensures var g, s' := GateOf(s, t), Next(cfg, s, Advance(t, outcome));
            && (GateOf(s', t) == Gate.Starting(g.pass) || GateOf(s', t).Denying?)
            && (GateOf(s', t).Starting? <==>
                  if g.PreparingCall? then PrepareAndAllow(s.db, Unit(s.now, t, g.pass.req.actor), g.pass).Ok?
                  else ClaimAndAllow(s.db, Unit(s.now, t, g.pass.req.actor), g.pass).Ok?)
            && s'.now == s.now
            && (g.PreparingCall? && GateOf(s', t).Starting? ==>
                  s'.db == PrepareAndAllow(s.db, Unit(s.now, t, g.pass.req.actor), g.pass).value)
            && (g.ClaimingApproval? && GateOf(s', t).Starting? ==>
                  s'.db == ClaimAndAllow(s.db, Unit(s.now, t, g.pass.req.actor), g.pass).value)
  {
    hide Quiet, Evolves, PrepareAndAllow, ClaimAndAllow;
  }

  // ---------- a new call ----------

  /** A new call of a tool that needs no approval may be prepared. */
  predicate MayPrepare(cfg: Config, db: Db, req: Request, now: Time) {
    && AskedRightly(cfg, req) && Live(db.run) && !RequiresApproval(cfg, req.tool)
    && NotRepeated(cfg, db.calls, cfg.registry[req.tool], req.tool, req.digest.value) && BudgetLeft(db.run, now)
  }

  /** ... of one that needs an approval, may ask for it; reads and budgets are looked at once it is granted. */
  predicate MayAsk(cfg: Config, db: Db, req: Request) {
    && AskedRightly(cfg, req) && Live(db.run) && RequiresApproval(cfg, req.tool) && cfg.approvalRoles != {}
    && (!cfg.registry[req.tool].risk.Read? ==> StartedAlike(db.calls, req.tool, req.digest.value) == {})
  }

  lemma NewCallDecides(cfg: Config, db: Db, u: Unit, req: Request)
    requires HoldsLease(db, u) && req.call !in db.calls && req.call !in db.approvals
    ensures var g := DecideInvoke(cfg, db, u, req);
            && (g.PreparingCall? <==> MayPrepare(cfg, db, req, u.now))
            && (g.OpeningApproval? <==> MayAsk(cfg, db, req))
            && (g.PreparingCall? || g.OpeningApproval? || g.Denying?)
            && (!g.Denying? ==> g.pass.req == req && !g.pass.internal && g.pass.digest == req.digest.value)
            && (g.OpeningApproval? ==> !g.existing)
  {
    hide Equivalent, WriteReplay, RepeatFault, BudgetSpent, BudgetLeft, NotRepeated, StartedAlike, DuplicateCode,
         ApprovalCode, RequiresApproval;
    if req.tool in cfg.registry && req.digest.Some? {
      RepeatMeans(cfg, db.calls, cfg.registry[req.tool], req.tool, req.digest.value);
    }
    BudgetMeans(db.run, u.now);
  }

  lemma PreparesExactly(db: Db, u: Unit, pass: Pass)
    requires HoldsLease(db, u) && pass.req.call !in db.calls && !pass.internal && Live(db.run)
    ensures PrepareAndAllow(db, u, pass).Ok? <==> pass.req.step in db.steps && ChargeFits(db, pass.req.call)
    ensures PrepareAndAllow(db, u, pass).Ok? ==>
              var b := PrepareAndAllow(db, u, pass).value;
              b.lease == db.lease && pass.req.call in b.calls && b.calls[pass.req.call].status.Prepared?
  {
    hide Quiet, Evolves;
  }

  lemma DecisionTurn(cfg: Config, s: System, t: Token, req: Request, outcome: Outcome)
    requires GateOf(s, t) == Snapshotting(req)
    ensures Next(cfg, s, Advance(t, outcome))
         == s.(gates := s.gates[t := DecideInvoke(cfg, s.db, Unit(s.now, t, req.actor), req)])
  {
    hide DecideInvoke;
  }

  /** A state in which a token is ready to call, for a call that nobody has heard of. */
  predicate NewCall(s: System, t: Token, req: Request) {
    && t < s.db.nextToken && GateOf(s, t).Idle? && HoldsLease(s.db, Unit(s.now, t, req.actor))
    && req.call !in s.db.calls && req.call !in s.db.approvals
  }

  /**
    An undisturbed new call reaches its handler exactly when it is asked for rightly in a live run,
    needs no approval, repeats no call that blocks it, has budget left, and names a step of the run.
   */
  lemma NewCallRunsExactly(cfg: Config, s: System, t: Token, req: Request, outcome: Outcome)
    requires NewCall(s, t, req)
    ensures var e := Exec(cfg, s, Undisturbed(t, Snapshotting(req), outcome));
            GateOf(e, t).Executing? && GateOf(e, t).pass.req == req
            <==> MayPrepare(cfg, s.db, req, s.now) && req.step in s.db.steps && ChargeFits(s.db, req.call)
  {
    hide Next, Exec, DecideInvoke, MayPrepare, MayAsk, ChargeFits, PrepareAndAllow, OpenApproval;
    var adv, u := Advance(t, outcome), Unit(s.now, t, req.actor);
    UndisturbedSteps(cfg, s, t, Snapshotting(req), outcome);
    var s1 := s.(gates := s.gates[t := Snapshotting(req)]);
    DecisionTurn(cfg, s1, t, req, outcome);
    var s2 := Next(cfg, s1, adv);
    NewCallDecides(cfg, s.db, u, req);
    var s3 := Next(cfg, s2, adv);
    if GateOf(s2, t).PreparingCall? {
      MayPrepareMeans(cfg, s.db, req, s.now);
      PreparesExactly(s.db, u, GateOf(s2, t).pass);
      CommitsOrDenies(cfg, s2, t, outcome);
      DecidedCallRuns(cfg, s2, t, outcome);
    } else if GateOf(s2, t).OpeningApproval? {
      MayAskMeans(cfg, s.db, req, s.now);
      OpeningEnds(cfg, s2, t, outcome);
      DeniedTurn(cfg, s3, t, outcome);
    } else {
      DeniedTurn(cfg, s2, t, outcome);
      DeniedTurn(cfg, s3, t, outcome);
    }
  }

  lemma MayPrepareMeans(cfg: Config, db: Db, req: Request, now: Time)
    requires MayPrepare(cfg, db, req, now)
    ensures Live(db.run)
  {
  }

  lemma MayAskMeans(cfg: Config, db: Db, req: Request, now: Time)
    requires MayAsk(cfg, db, req)
    ensures !MayPrepare(cfg, db, req, now) && Live(db.run)
  {
  }

  lemma OpeningEnds(cfg: Config, s: System, t: Token, outcome: Outcome)
    requires GateOf(s, t).OpeningApproval?
    ensures var g, s' := GateOf(s, t), Next(cfg, s, Advance(t, outcome));
            var r := OpenApproval(cfg, s.db, Unit(s.now, t, g.pass.req.actor), g.pass, g.existing);
            && s'.now == s.now
            && if r.Ok? then GateOf(s', t).Idle? && s'.db == r.value else GateOf(s', t).Denying? && s'.db == s.db
  {
    hide Quiet, Evolves, OpenApproval;
  }

  // ---------- ... that has to wait ----------

  lemma OpensExactly(cfg: Config, db: Db, u: Unit, pass: Pass)
    requires HoldsLease(db, u) && pass.req.call !in db.calls && pass.req.call !in db.approvals
    requires Live(db.run) && u.actor == pass.req.actor
    ensures OpenApproval(cfg, db, u, pass, false).Ok? <==> db.run.status.Running? && pass.req.step in db.steps
  {
    hide Quiet, Evolves, CreateInvocation, ApprovalStore.Create, TransitionRun;
    var c, i := pass.req.call, NewInvocation(pass, u.now);
    CreatesCallExactly(db, u, c, i);
    if CreateInvocation(db, u, c, i, db.run.revision).Ok? {
      var prepared := CreateInvocation(db, u, c, i, db.run.revision).value;
      var ask := Ask(c, pass.digest, pass.req.actor, cfg.approvalRoles, cfg.approvalTtl);
      CreatesApprovalExactly(prepared, u, ask);
      if ApprovalStore.Create(prepared, u, ask).Ok? {
        WaitsExactly(ApprovalStore.Create(prepared, u, ask).value, u);
      }
    }
  }

  lemma CreatesCallExactly(db: Db, u: Unit, c: CallId, i: Invocation)
    requires HoldsLease(db, u) && c !in db.calls && i.status.Prepared? && Live(db.run)
    ensures CreateInvocation(db, u, c, i, db.run.revision).Ok? <==> i.step in db.steps
    ensures CreateInvocation(db, u, c, i, db.run.revision).Ok? ==>
              var b := CreateInvocation(db, u, c, i, db.run.revision).value;
              && b.calls == db.calls[c := i] && b.approvals == db.approvals && b.lease == db.lease
              && b.run == db.run.(revision := b.run.revision)
  {
    hide Quiet, Evolves;
  }

  /**
    A first approval is opened exactly for a PREPARED call of a RUNNING run, with its own arguments,
    by its own actor.
   */
  lemma CreatesApprovalExactly(db: Db, u: Unit, ask: Ask)
    requires HoldsLease(db, u) && ask.call !in db.approvals
    ensures ApprovalStore.Create(db, u, ask).Ok? <==>
              && ask.requestedBy == u.actor && ask.call in db.calls && ask.digest == db.calls[ask.call].digest
              && db.calls[ask.call].status.Prepared? && db.calls[ask.call].approval.None? && db.run.status.Running?
    ensures ApprovalStore.Create(db, u, ask).Ok? ==>
              && ApprovalStore.Create(db, u, ask).value.run == db.run
              && ApprovalStore.Create(db, u, ask).value.lease == db.lease
  {
    hide Quiet, Evolves, BindingOf, BindingHolds;
  }

  lemma WaitsExactly(db: Db, u: Unit)
    requires HoldsLease(db, u)
    ensures TransitionRun(db, u, Running, db.run.revision, WaitingApproval, None, None).Ok? <==> db.run.status.Running?
  {
    hide Quiet, Evolves;
  }

  /**
    An undisturbed new call comes to wait for an approval exactly when it is asked for rightly in a
    RUNNING run, needs an approval that somebody can give, does not repeat a write, and names a step.
   */
  lemma NewCallWaitsExactly(cfg: Config, s: System, t: Token, req: Request, outcome: Outcome)
    requires NewCall(s, t, req) && s.db.approvals.Keys <= s.db.calls.Keys
    ensures var e := Exec(cfg, s, Undisturbed(t, Snapshotting(req), outcome));
            && (req.call in e.db.approvals
                <==> MayAsk(cfg, s.db, req) && s.db.run.status.Running? && req.step in s.db.steps)
            && (req.call in e.db.approvals ==>
                  && e.db.run.status.WaitingApproval? && e.db.approvals[req.call].status.Pending?
                  && req.call in e.db.calls && e.db.calls[req.call].status.Prepared? && GateOf(e, t).Idle?)
  {
    hide Next, Exec, DecideInvoke, MayPrepare, MayAsk, PrepareAndAllow, OpenApproval, FreshRow;
    var adv, u := Advance(t, outcome), Unit(s.now, t, req.actor);
    UndisturbedSteps(cfg, s, t, Snapshotting(req), outcome);
    var s1 := s.(gates := s.gates[t := Snapshotting(req)]);
    DecisionTurn(cfg, s1, t, req, outcome);
    var s2 := Next(cfg, s1, adv);
    NewCallDecides(cfg, s.db, u, req);
    var s3 := Next(cfg, s2, adv);
    var e := Next(cfg, s3, adv);
    if GateOf(s2, t).OpeningApproval? {
      var pass := GateOf(s2, t).pass;
      MayAskMeans(cfg, s.db, req, s.now);
      OpensExactly(cfg, s.db, u, pass);
      OpeningEnds(cfg, s2, t, outcome);
      if OpenApproval(cfg, s.db, u, pass, false).Ok? {
        OpenApprovalEffect(cfg, s.db, u, pass, false);
        OpenedIsFresh(cfg, s.db, s3.db, u, pass);
      }
      QuietTurn(cfg, s3, t, outcome);
    } else {
      OtherDecision(cfg, s2, t, outcome, req.call);
    }
  }

  lemma OpenedIsFresh(cfg: Config, a: Db, b: Db, u: Unit, pass: Pass)
    requires pass.req.call !in a.approvals
    requires Passive(a, b) || Opens(cfg, a, b, u, pass, false)
    requires OpenApproval(cfg, a, u, pass, false).Ok? && b == OpenApproval(cfg, a, u, pass, false).value
    ensures b.run.status.WaitingApproval? && pass.req.call in b.approvals && b.approvals[pass.req.call].status.Pending?
    ensures pass.req.call in b.calls && b.calls[pass.req.call].status.Prepared?
  {
    hide OpenApproval, Opens;
    OpenedHasApproval(cfg, a, u, pass);
    assert !Passive(a, b);
    OpensMeans(cfg, a, b, u, pass);
  }

  lemma OpenedHasApproval(cfg: Config, db: Db, u: Unit, pass: Pass)
    requires OpenApproval(cfg, db, u, pass, false).Ok?
    ensures pass.req.call in OpenApproval(cfg, db, u, pass, false).value.approvals
  {
    hide Quiet, Evolves, CreateInvocation, BindingOf, BindingHolds;
  }

  lemma OpensMeans(cfg: Config, a: Db, b: Db, u: Unit, pass: Pass)
    requires Opens(cfg, a, b, u, pass, false)
    ensures b.run.status.WaitingApproval? && pass.req.call in b.approvals && b.approvals[pass.req.call].status.Pending?
    ensures pass.req.call in b.calls && b.calls[pass.req.call].status.Prepared?
  {
  }

  lemma DenialIsQuiet(db: Db, u: Unit, req: Request, code: ErrorCode)
    ensures var b := LogDenial(db, u, req, code);
            b.approvals == db.approvals && b.calls == db.calls && b.run == db.run
  {
    hide Quiet, Evolves;
  }

  /** An idle or denying Gate changes no row. */
  lemma QuietTurn(cfg: Config, s: System, t: Token, outcome: Outcome)
    requires GateOf(s, t).Idle? || GateOf(s, t).Denying?
    ensures var e := Next(cfg, s, Advance(t, outcome));
            && e.db.approvals == s.db.approvals && e.db.calls == s.db.calls && e.db.run == s.db.run
            && GateOf(e, t).Idle?
  {
    hide Quiet, Evolves, LogDenial, StoreStep;
    var g := GateOf(s, t);
    if g.Denying? {
      DenialIsQuiet(s.db, Unit(s.now, t, g.req.actor), g.req, g.code);
    }
  }

  /** The other decisions open no approval. */
  lemma OtherDecision(cfg: Config, s: System, t: Token, outcome: Outcome, c: CallId)
    requires GateOf(s, t).PreparingCall? || GateOf(s, t).Denying?
    requires c !in s.db.approvals
    ensures c !in Next(cfg, Next(cfg, s, Advance(t, outcome)), Advance(t, outcome)).db.approvals
  {
    hide Next, PrepareAndAllow;
    var s' := Next(cfg, s, Advance(t, outcome));
    if GateOf(s, t).Denying? {
      QuietTurn(cfg, s, t, outcome);
      QuietTurn(cfg, s', t, outcome);
    } else {
      var pass := GateOf(s, t).pass;
      CommitsOrDenies(cfg, s, t, outcome);
      PreparingTurn(cfg, s, t, outcome);
      if GateOf(s', t).Starting? {
        PrepareEffect(s.db, Unit(s.now, t, pass.req.actor), pass);
        HandlersOrDenial(cfg, s', t, outcome);
      } else {
        QuietTurn(cfg, s', t, outcome);
      }
    }
  }

  lemma PreparingTurn(cfg: Config, s: System, t: Token, outcome: Outcome)
    requires GateOf(s, t).PreparingCall?
    ensures var s' := Next(cfg, s, Advance(t, outcome)); GateOf(s', t).Denying? ==> s'.db == s.db
  {
    hide Quiet, Evolves, PrepareAndAllow;
  }

  lemma HandlersOrDenial(cfg: Config, s: System, t: Token, outcome: Outcome)
    requires GateOf(s, t).Starting?
    ensures Next(cfg, s, Advance(t, outcome)).db.approvals == s.db.approvals
  {
    hide Evolves, TakeTurn, StoreStep;
    StartingTurn(cfg, GateOf(s, t), s.db, s.now, t, outcome);
  }

  // ---------- an approved call ----------

  /** The call waits PREPARED, and its approval has been granted and is not due. */
  predicate ApprovedCall(s: System, t: Token, req: Request) {
    && t < s.db.nextToken && GateOf(s, t).Idle? && HoldsLease(s.db, Unit(s.now, t, req.actor))
    && req.call in s.db.calls && s.db.calls[req.call].status.Prepared?
    && req.call in s.db.approvals && s.db.approvals[req.call].status.Approved?
    && s.now < s.db.approvals[req.call].expiresAt && BindingHolds(s.db, req.call)
  }

  predicate MayClaim(cfg: Config, db: Db, req: Request, now: Time)
    requires req.call in db.calls
  {
    && AskedRightly(cfg, req) && db.run.status.WaitingApproval?
    && req.tool == db.calls[req.call].tool && req.digest == Some(db.calls[req.call].digest)
    && NotRepeated(cfg, db.calls, cfg.registry[req.tool], req.tool, req.digest.value) && BudgetLeft(db.run, now)
  }

  lemma ApprovedCallDecides(cfg: Config, db: Db, u: Unit, req: Request)
    requires HoldsLease(db, u) && req.call in db.calls && db.calls[req.call].status.Prepared?
    requires req.call in db.approvals && db.approvals[req.call].status.Approved?
    ensures var g := DecideInvoke(cfg, db, u, req);
            && (g.ClaimingApproval? || g.Denying?)
            && (db.run.status.WaitingApproval? ==> (g.ClaimingApproval? <==> MayClaim(cfg, db, req, u.now)))
            && (g.ClaimingApproval? ==> g.pass.req == req && Live(db.run))
  {
    hide Equivalent, WriteReplay, RepeatFault, BudgetSpent, BudgetLeft, NotRepeated, StartedAlike, DuplicateCode,
         ApprovalCode, RequiresApproval;
    if req.tool in cfg.registry && req.digest.Some? {
      RepeatMeans(cfg, db.calls, cfg.registry[req.tool], req.tool, req.digest.value);
    }
    BudgetMeans(db.run, u.now);
  }

  lemma ClaimsExactly(db: Db, u: Unit, pass: Pass)
    requires var c := pass.req.call;
             && HoldsLease(db, u) && c in db.calls && db.calls[c].status.Prepared?
             && c in db.approvals && db.approvals[c].status.Approved? && u.now < db.approvals[c].expiresAt
             && BindingHolds(db, c)
    ensures ClaimAndAllow(db, u, pass).Ok? <==> db.run.status.WaitingApproval? && ChargeFits(db, pass.req.call)
    ensures ClaimAndAllow(db, u, pass).Ok? ==>
              ClaimAndAllow(db, u, pass).value.calls == db.calls && ClaimAndAllow(db, u, pass).value.lease == db.lease
  {
    hide Quiet, Evolves, ClaimTransaction, ChargeFits, BindingHolds;
    if db.run.status.WaitingApproval? {
      ClaimTransactionSucceeds(db, u, pass.req.call);
    } else {
      ClaimNeedsWait(db, u, pass.req.call);
    }
  }

  lemma ClaimNeedsWait(db: Db, u: Unit, c: CallId)
    requires HoldsLease(db, u) && c in db.approvals && !Due(db.approvals[c], u.now) && !db.run.status.WaitingApproval?
    ensures ClaimTransaction(db, u, c).Err?
  {
    hide Quiet, Evolves, BindingHolds, TransitionRun, RecordBudgetDelta;
    LoadCurrent(db, u, c);
  }

  /**
    An undisturbed call with a granted approval reaches its handler exactly when it is asked for
    rightly, with the stored tool and arguments, while the run waits, repeats no call that blocks it,
    and has budget left that its charge fits into.
   */
  lemma ApprovedCallRunsExactly(cfg: Config, s: System, t: Token, req: Request, outcome: Outcome)
    requires ApprovedCall(s, t, req)
    ensures var e := Exec(cfg, s, Undisturbed(t, Snapshotting(req), outcome));
            GateOf(e, t).Executing? && GateOf(e, t).pass.req == req
            <==> MayClaim(cfg, s.db, req, s.now) && ChargeFits(s.db, req.call)
  {
    hide Next, Exec, DecideInvoke, MayClaim, ChargeFits, ClaimAndAllow, BindingHolds;
    var adv, u := Advance(t, outcome), Unit(s.now, t, req.actor);
    UndisturbedSteps(cfg, s, t, Snapshotting(req), outcome);
    var s1 := s.(gates := s.gates[t := Snapshotting(req)]);
    DecisionTurn(cfg, s1, t, req, outcome);
    var s2 := Next(cfg, s1, adv);
    ApprovedCallDecides(cfg, s.db, u, req);
    MayClaimMeans(cfg, s.db, req, s.now);
    if GateOf(s2, t).ClaimingApproval? {
      ClaimsExactly(s.db, u, GateOf(s2, t).pass);
      CommitsOrDenies(cfg, s2, t, outcome);
      DecidedCallRuns(cfg, s2, t, outcome);
    } else {
      DeniedTurn(cfg, s2, t, outcome);
      DeniedTurn(cfg, Next(cfg, s2, adv), t, outcome);
    }
  }

  lemma MayClaimMeans(cfg: Config, db: Db, req: Request, now: Time)
    requires req.call in db.calls
    ensures MayClaim(cfg, db, req, now) ==> db.run.status.WaitingApproval?
  {
  }

  // ---------- a verifier's call ----------

  predicate MayVerify(cfg: Config, db: Db, req: Request, allowed: set<RunStatus>, readOnly: bool) {
    && req.tool in cfg.internal && (readOnly ==> cfg.internal[req.tool].risk.Read?)
    && req.contextMatches && db.run.status in allowed && req.digest.Some?
  }

  lemma InternalDecides(cfg: Config, db: Db, u: Unit, req: Request, allowed: set<RunStatus>, readOnly: bool)
    requires HoldsLease(db, u) && req.call !in db.calls
    ensures var g := DecideInternal(cfg, db, u, req, allowed, readOnly);
            && (g.PreparingCall? <==> MayVerify(cfg, db, req, allowed, readOnly))
            && (g.PreparingCall? || g.Denying?)
            && (g.PreparingCall? ==> g.pass.req == req && g.pass.internal)
  {
    hide Equivalent, DuplicateCode;
  }

  lemma PreparesInternalExactly(db: Db, u: Unit, pass: Pass)
    requires HoldsLease(db, u) && pass.req.call !in db.calls && pass.internal
    ensures PrepareAndAllow(db, u, pass).Ok? <==> pass.req.step in db.steps && !TerminalRun(db.run.status)
    ensures PrepareAndAllow(db, u, pass).Ok? ==>
              var b := PrepareAndAllow(db, u, pass).value;
              b.lease == db.lease && pass.req.call in b.calls && b.calls[pass.req.call].status.Prepared?
  {
    hide Quiet, Evolves;
  }

  lemma InternalTurn(cfg: Config, s: System, t: Token, req: Request, allowed: set<RunStatus>, readOnly: bool,
      outcome: Outcome)
    requires GateOf(s, t) == SnapshottingInternal(req, allowed, readOnly)
    ensures Next(cfg, s, Advance(t, outcome))
         == s.(gates := s.gates[t := DecideInternal(cfg, s.db, Unit(s.now, t, req.actor), req, allowed, readOnly)])
  {
    hide DecideInternal;
  }

  /**
    An undisturbed new call of the verifier reaches its handler exactly when the tool is the
    verifier's, and reads only where that is asked, in its own context, in a run whose status is
    allowed and not final, and names a step; budgets and repeats are not looked at.
   */
  lemma InternalCallRunsExactly(cfg: Config, s: System, t: Token, req: Request, allowed: set<RunStatus>, readOnly: bool,
                                outcome: Outcome)
    requires t < s.db.nextToken && GateOf(s, t).Idle? && HoldsLease(s.db, Unit(s.now, t, req.actor))
    requires req.call !in s.db.calls
    ensures var e := Exec(cfg, s, Undisturbed(t, SnapshottingInternal(req, allowed, readOnly), outcome));
            GateOf(e, t).Executing? && GateOf(e, t).pass.req == req
            <==> && MayVerify(cfg, s.db, req, allowed, readOnly)
                 && req.step in s.db.steps && !TerminalRun(s.db.run.status)
  {
    hide Next, Exec, DecideInternal, MayVerify, PrepareAndAllow;
    var adv, u := Advance(t, outcome), Unit(s.now, t, req.actor);
    var entry := SnapshottingInternal(req, allowed, readOnly);
    UndisturbedSteps(cfg, s, t, entry, outcome);
    var s1 := s.(gates := s.gates[t := entry]);
    InternalTurn(cfg, s1, t, req, allowed, readOnly, outcome);
    var s2 := Next(cfg, s1, adv);
    InternalDecides(cfg, s.db, u, req, allowed, readOnly);
    if GateOf(s2, t).PreparingCall? {
      PreparesInternalExactly(s.db, u, GateOf(s2, t).pass);
      CommitsOrDenies(cfg, s2, t, outcome);
      DecidedCallRuns(cfg, s2, t, outcome);
    } else {
      DeniedTurn(cfg, s2, t, outcome);
      DeniedTurn(cfg, Next(cfg, s2, adv), t, outcome);
    }
  }
}
