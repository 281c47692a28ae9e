/**
  The Gate at work on the database: each method is the body of one `with transaction` block, and
  `Turn` runs one such block, or the handler, and commits or rolls back.
 */
module GateService {
  import opened Domain
  import opened Wrappers
  import opened Database
  import StateStore
  import ApprovalStore
  import Gate

  class GateService {
    const store: Database
    var gate: Gate.Gate

    constructor (store: Database)
      ensures this.store == store && gate == Gate.Idle
    {
      this.store := store;
      gate := Gate.Idle;
    }

    method OpenApproval(cfg: Config, u: Unit, pass: Gate.Pass, existing: bool) returns (r: Done)
      modifies store
      ensures store.Follows(r, Gate.OpenApproval(cfg, old(store.View()), u, pass, existing))
    {
      hide Quiet, Evolves, StateStore.CreateInvocation, ApprovalStore.Create, StateStore.TransitionRun, StateStore.Log;
      :- store.VerifyLease(u);
      var running := store.run.status.Running?;
      if !existing {
        :- store.CreateInvocation(u, pass.req.call, Gate.NewInvocation(pass, u.now), store.run.revision);
      }
      :- store.CreateApproval(u, ApprovalStore.Ask(pass.req.call, pass.digest, pass.req.actor, cfg.approvalRoles,
          cfg.approvalTtl));
      if running {
        :- store.TransitionRun(u, Running, store.run.revision, WaitingApproval, None, None);
      }
      store.AppendEvent(u, GatePending(pass.req.call));
      return Success;
    }

    method PollApproval(u: Unit, req: Gate.Request) returns (r: Done)
      modifies store
      ensures store.Follows(r, Gate.PollApproval(old(store.View()), u, req))
    {
      hide Quiet, Evolves, ApprovalStore.Load, StateStore.Log;
      :- store.VerifyLease(u);
      if !store.run.status.WaitingApproval? {
        return Failure(ApprovalStateInvalid);
      }
      :- store.LoadApproval(u, req.call);
      if store.approvals[req.call].status.Pending? {
        store.AppendEvent(u, GatePending(req.call));
      }
      return Success;
    }

    method RecordToolBudget(u: Unit, c: CallId) returns (r: Done)
      modifies store
      ensures store.Follows(r, Gate.RecordToolBudget(old(store.View()), u, c))
    {
      hide Quiet, Evolves, StateStore.RecordBudgetDelta;
      r := store.RecordBudgetDelta(u, ToolCallKey(c), 1, store.run.revision);
    }

    method ClaimTransaction(u: Unit, c: CallId) returns (r: Done)
      modifies store
      ensures store.Follows(r, Gate.ClaimTransaction(old(store.View()), u, c))
    {
      hide Quiet, Evolves, ApprovalStore.Load, ApprovalStore.Claim, StateStore.TransitionRun, Gate.RecordToolBudget;
      :- store.LoadApproval(u, c);
      :- store.Claim(u, c, store.approvals[c].revision, c);
      :- store.TransitionRun(u, WaitingApproval, store.run.revision, Running, None, None);
      r := RecordToolBudget(u, c);
    }

    method ClaimAndAllow(u: Unit, pass: Gate.Pass) returns (r: Done)
      modifies store
      ensures store.Follows(r, Gate.ClaimAndAllow(old(store.View()), u, pass))
    {
      hide Quiet, Evolves, Gate.ClaimTransaction, StateStore.Log;
      :- store.VerifyLease(u);
      :- ClaimTransaction(u, pass.req.call);
      store.AppendEvent(u, GateAllowed(pass.req.call));
      return Success;
    }

    method PrepareAndAllow(u: Unit, pass: Gate.Pass) returns (r: Done)
      modifies store
      ensures store.Follows(r, Gate.PrepareAndAllow(old(store.View()), u, pass))
    {
      hide Quiet, Evolves, StateStore.CreateInvocation, Gate.RecordToolBudget, StateStore.Log;
      :- store.VerifyLease(u);
      :- store.CreateInvocation(u, pass.req.call, Gate.NewInvocation(pass, u.now), store.run.revision);
      if !pass.internal {
        :- RecordToolBudget(u, pass.req.call);
      }
      store.AppendEvent(u, GateAllowed(pass.req.call));
      return Success;
    }

    method RecordRecoveryAllow(u: Unit, pass: Gate.Pass) returns (r: Done)
      modifies store
      ensures store.Follows(r, Gate.RecordRecoveryAllow(old(store.View()), u, pass))
    {
      hide Quiet, Evolves, StateStore.Log;
      :- store.VerifyLease(u);
      store.AppendEvent(u, GateAllowed(pass.req.call));
      return Success;
    }

    method ResumeOrClaim(u: Unit, pass: Gate.Pass) returns (r: Done)
      modifies store
      ensures store.Follows(r, Gate.ResumeOrClaim(old(store.View()), u, pass))
    {
      hide Quiet, Evolves, ApprovalStore.Load, ApprovalStore.ResumeClaim, Gate.ClaimTransaction, StateStore.Log;
      var c := pass.req.call;
      :- store.VerifyLease(u);
      :- store.LoadApproval(u, c);
      var a := store.approvals[c];
      if a.status.Claimed? {
        :- store.ResumeClaim(u, c, a.revision, c);
      } else if a.status.Approved? {
        :- ClaimTransaction(u, c);
      } else {
        return Failure(ApprovalNotExecutable);
      }
      store.AppendEvent(u, GateAllowed(c));
      return Success;
    }

    method MarkStarted(u: Unit, c: CallId) returns (r: Done)
      modifies store
      ensures store.Follows(r, Gate.MarkStarted(old(store.View()), u, c))
    {
      hide Quiet, Evolves, StateStore.TransitionInvocation;
      if c !in store.calls {
        return Failure(StateNotFound);
      }
      r := store.TransitionInvocation(u, c, InvocationStatus.Prepared, store.calls[c].revision,
          InvocationStatus.Started, None);
    }

    /** The evidence loop of `_persist_result`. */
    method AddFacts(u: Unit, c: CallId, facts: seq<Gate.Fact>) returns (r: Done)
      modifies store
      ensures store.Follows(r, Gate.AddFacts(old(store.View()), u, c, facts))
    {
      hide Quiet, Evolves, StateStore.AddEvidence;
      ghost var whole := Gate.AddFacts(store.View(), u, c, facts);
      var i := 0;
      assert facts[0..] == facts;
      while i < |facts|
        invariant 0 <= i <= |facts|
        invariant whole == Gate.AddFacts(store.View(), u, c, facts[i..])
      {
        assert facts[i..][1..] == facts[i + 1..];
        :- store.AddEvidence(u, Evidence(Some(c), facts[i].kind, facts[i].path, facts[i].content, u.now, true));
        i := i + 1;
      }
      return Success;
    }

    method PersistResult(u: Unit, pass: Gate.Pass, outcome: Gate.Outcome) returns (r: Done)
      modifies store
      ensures store.Follows(r, Gate.PersistResult(old(store.View()), u, pass, outcome))
    {
      hide Quiet, Evolves, Gate.AddFacts, StateStore.TransitionInvocation, ApprovalStore.Load, ApprovalStore.Consume;
      var c := pass.req.call;
      var target := Gate.MapOutcome(outcome, pass.spec.idempotent);
      :- AddFacts(u, c, outcome.facts);
      if c !in store.calls {
        return Failure(StateNotFound);
      }
      :- store.TransitionInvocation(u, c, InvocationStatus.Started, store.calls[c].revision, target, outcome.error);
      if pass.approved && Deterministic(target) {
        :- store.LoadApproval(u, c);
        :- store.Consume(u, c, store.approvals[c].revision, c, target, outcome.error);
      }
      return Success;
    }

    method LogDenial(u: Unit, req: Gate.Request, code: ErrorCode)
      modifies store
      ensures store.View() == Gate.LogDenial(old(store.View()), u, req, code)
    {
      hide Quiet, Evolves, StateStore.Log;
      var held := store.VerifyLease(u);
      if held.Success? {
        store.AppendEvent(u, GateDenied(req.call, code));
      }
    }

    // ---------- one turn ----------

    /** The body of the transaction that the Gate's state calls for. */
    method Transact(cfg: Config, now: Time, token: Token) returns (r: Done)
      requires Transacts(gate)
      modifies store
      ensures store.Follows(r, Transaction(cfg, gate, old(store.View()), now, token))
    {
      hide Quiet, Evolves, Gate.OpenApproval, Gate.PollApproval, Gate.ClaimAndAllow, Gate.PrepareAndAllow,
           Gate.RecordRecoveryAllow, Gate.ResumeOrClaim, Gate.MarkStarted, Gate.PersistResult;
      match gate
      case OpeningApproval(pass, existing) => r := OpenApproval(cfg, Unit(now, token, pass.req.actor), pass, existing);
      case AwaitingDecision(req) => r := PollApproval(Unit(now, token, req.actor), req);
      case ClaimingApproval(pass) => r := ClaimAndAllow(Unit(now, token, pass.req.actor), pass);
      case PreparingCall(pass) => r := PrepareAndAllow(Unit(now, token, pass.req.actor), pass);
      case RecordingReentry(pass) => r := RecordRecoveryAllow(Unit(now, token, pass.req.actor), pass);
      case ResumingClaim(pass) => r := ResumeOrClaim(Unit(now, token, pass.req.actor), pass);
      case Starting(pass) => r := MarkStarted(Unit(now, token, pass.req.actor), pass.req.call);
      case Persisting(pass, result) => r := PersistResult(Unit(now, token, pass.req.actor), pass, result);
    }

    /** Where the Gate goes when its transaction commits, and what it denies when it does not. */
    method Advance(r: Done)
      requires Transacts(gate)
      modifies this`gate
      ensures gate == AfterTransaction(old(gate), store.View(), r)
    {
      gate := AfterTransaction(gate, store.View(), r);
    }

    /**
      One turn: a snapshot decision, a transaction that commits or rolls back, or the handler run,
      whose call is then returned.
     */
    method Turn(cfg: Config, now: Time, token: Token, outcome: Gate.Outcome) returns (ran: Option<CallId>)
      modifies this`gate, store
      ensures Gate.Turn(gate, store.View(), ran) == Gate.TakeTurn(cfg, old(gate), old(store.View()), now, token,
              outcome)
    {
      hide Quiet, Evolves, Transaction, Gate.DecideInvoke, Gate.DecideLoad, Gate.DecideReentry, Gate.DecideInternal,
           Gate.LogDenial, AfterTransaction;
      ran := None;
      if Transacts(gate) {
        hide Gate.TakeTurn;
        var saved := store.View();
        var r := Transact(cfg, now, token);
        TransactionTurn(cfg, gate, saved, now, token, outcome, store.View(), r);
        if r.Failure? {
          store.Rollback(saved);
        }
        Advance(r);
        return;
      }
      match gate
      case Idle =>
      case Snapshotting(req) => gate := Gate.DecideInvoke(cfg, store.View(), Unit(now, token, req.actor), req);
      case Loading(req) => gate := Gate.DecideLoad(store.View(), Unit(now, token, req.actor), req);
      case SnapshottingReentry(req) => gate := Gate.DecideReentry(cfg, store.View(), Unit(now, token, req.actor), req);
      case SnapshottingInternal(req, allowed, readOnly) =>
        gate := Gate.DecideInternal(cfg, store.View(), Unit(now, token, req.actor), req, allowed, readOnly);
      case Executing(pass) =>
        ran := Some(pass.req.call);
        gate := if outcome.breaks then Gate.Denying(pass.req, GateInternal)
                else Gate.Persisting(pass, Gate.Confirm(outcome));
      case Denying(req, code) =>
        LogDenial(Unit(now, token, req.actor), req, code);
        gate := Gate.Idle;
    }
  }

  predicate Transacts(g: Gate.Gate) {
    g.OpeningApproval? || g.AwaitingDecision? || g.ClaimingApproval? || g.PreparingCall? || g.RecordingReentry?
    || g.ResumingClaim? || g.Starting? || g.Persisting?
  }

  function Transaction(cfg: Config, gate: Gate.Gate, db: Db, now: Time, token: Token): Result<Db>
    requires Transacts(gate)
  {
    match gate
    case OpeningApproval(pass, existing) => Gate.OpenApproval(cfg, db, Unit(now, token, pass.req.actor), pass, existing)
    case AwaitingDecision(req) => Gate.PollApproval(db, Unit(now, token, req.actor), req)
    case ClaimingApproval(pass) => Gate.ClaimAndAllow(db, Unit(now, token, pass.req.actor), pass)
    case PreparingCall(pass) => Gate.PrepareAndAllow(db, Unit(now, token, pass.req.actor), pass)
    case RecordingReentry(pass) => Gate.RecordRecoveryAllow(db, Unit(now, token, pass.req.actor), pass)
    case ResumingClaim(pass) => Gate.ResumeOrClaim(db, Unit(now, token, pass.req.actor), pass)
    case Starting(pass) => Gate.MarkStarted(db, Unit(now, token, pass.req.actor), pass.req.call)
    case Persisting(pass, result) => Gate.PersistResult(db, Unit(now, token, pass.req.actor), pass, result)
  }

  function AfterTransaction(gate: Gate.Gate, db: Db, r: Done): Gate.Gate
    requires Transacts(gate)
  {
    match gate
    case AwaitingDecision(req) =>
      if r.Failure? || req.call !in db.approvals then Gate.Denying(req, GateInternal) else Gate.AfterPoll(db, req)
    case OpeningApproval(pass, _) => if r.Failure? then Gate.Denying(pass.req, IntentWriteFailed) else Gate.Idle
    case Persisting(pass, _) => if r.Failure? then Gate.Denying(pass.req, ResultWriteFailed) else Gate.Idle
    case Starting(pass) => if r.Failure? then Gate.Denying(pass.req, StartWriteFailed) else Gate.Executing(pass)
    case PreparingCall(pass) =>
      if r.Failure? then Gate.Denying(pass.req, if pass.internal then InternalAccessDenied else IntentWriteFailed)
      else Gate.Starting(pass)
    case ClaimingApproval(pass) => if r.Failure? then Gate.Denying(pass.req, IntentWriteFailed) else Gate.Starting(pass)
    case RecordingReentry(pass) => if r.Failure? then Gate.Denying(pass.req, IntentWriteFailed) else Gate.Starting(pass)
    case ResumingClaim(pass) => if r.Failure? then Gate.Denying(pass.req, IntentWriteFailed) else Gate.Starting(pass)
  }

  /** Committing or rolling back, and moving on, is the turn of the protocol. */
  lemma TransactionTurn(cfg: Config, gate: Gate.Gate, db: Db, now: Time, token: Token, outcome: Gate.Outcome,
      written: Db, r: Done)
    requires Transacts(gate)
    requires var spec := Transaction(cfg, gate, db, now, token);
             if spec.Ok? then r.Success? && written == spec.value else r == Failure(spec.code)
    ensures var after := if r.Success? then written else db;
            Gate.TakeTurn(cfg, gate, db, now, token, outcome)
                == Gate.Turn(AfterTransaction(gate, after, r), after, None)
  {
    hide Quiet, Evolves, Gate.OpenApproval, Gate.PollApproval, Gate.ClaimAndAllow, Gate.PrepareAndAllow,
         Gate.RecordRecoveryAllow, Gate.ResumeOrClaim, Gate.MarkStarted, Gate.PersistResult;
  }
}
