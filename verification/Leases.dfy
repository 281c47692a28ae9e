/**
  Who may write: a lease changes hands only when it has expired or its holder lets it go.
 */
module Leases {
  import opened Domain
  import opened Wrappers
  import opened StateStore
  import opened ApprovalStore
  import opened Gate
  import opened Recovery
  import opened Protocol
  import opened ApprovalEffects
  import opened Coupling

  // ---------- the three operations ----------

  /** Taking a lease succeeds exactly when its time is in range and no other one is alive. */
  lemma AcquireExactly(db: Db, u: Unit, ttl: nat)
    ensures AcquireLease(db, u, ttl).Ok? <==>
              10 <= ttl <= 300 && (db.lease.Some? ==> db.lease.value.expiresAt <= u.now)
    ensures AcquireLease(db, u, ttl).Ok? ==>
              && AcquireLease(db, u, ttl).value.lease == Some(Lease(db.nextToken, u.actor, u.now + ttl))
              && AcquireLease(db, u, ttl).value.nextToken == db.nextToken + 1
    ensures db.lease.Some? && u.now < db.lease.value.expiresAt && 10 <= ttl <= 300 ==>
              AcquireLease(db, u, ttl) == Err(StateLeaseHeld)
  {
    hide Quiet, Evolves;
  }

  /** Renewing succeeds exactly for the holder of a lease that is alive, and moves only its end. */
  lemma RenewExactly(db: Db, u: Unit, ttl: nat)
    ensures RenewLease(db, u, ttl).Ok? <==>
              && 10 <= ttl <= 300 && db.lease.Some?
              && db.lease.value.token == u.token && u.now < db.lease.value.expiresAt
    ensures RenewLease(db, u, ttl).Ok? ==>
              RenewLease(db, u, ttl).value == db.(lease := Some(Lease(u.token, db.lease.value.owner, u.now + ttl)))
  {
    hide Quiet, Evolves;
  }

  /** Letting go succeeds exactly for the current token, alive or not. */
  lemma ReleaseExactly(db: Db, u: Unit)
    ensures ReleaseLease(db, u).Ok? <==> db.lease.Some? && db.lease.value.token == u.token
    ensures ReleaseLease(db, u).Ok? ==> ReleaseLease(db, u).value.lease.None?
  {
    hide Quiet, Evolves;
  }

  /** Every other operation asks for the current token and for time that is left. */
  lemma HoldsExactly(db: Db, u: Unit)
    ensures HoldsLease(db, u) <==>
              db.lease.Some? && db.lease.value.token == u.token && u.now < db.lease.value.expiresAt
    ensures LeaseFault(db, u) == StateLeaseExpired <==> db.lease.Some? && db.lease.value.token == u.token
    ensures LeaseFault(db, u) == StateLeaseExpired || LeaseFault(db, u) == StateLeaseInvalid
  {
  }

  // ---------- all other transactions leave the lease alone ----------

  predicate SameLease(a: Db, b: Db) {
    b.lease == a.lease
  }

  lemma CreateApprovalLease(db: Db, u: Unit, ask: Ask)
    requires ApprovalStore.Create(db, u, ask).Ok?
    ensures SameLease(db, ApprovalStore.Create(db, u, ask).value)
  {
    hide Quiet, Evolves, BindingOf, BindingHolds;
  }

  lemma RunLease(db: Db, u: Unit, expected: RunStatus, revision: nat, target: RunStatus, stop: Option<StopReason>,
                 verdict: Option<Acceptance>)
    requires TransitionRun(db, u, expected, revision, target, stop, verdict).Ok?
    ensures SameLease(db, TransitionRun(db, u, expected, revision, target, stop, verdict).value)
  {
    hide Quiet, Evolves;
  }

  lemma CallLease(db: Db, u: Unit, c: CallId, i: Invocation, revision: nat)
    requires CreateInvocation(db, u, c, i, revision).Ok?
    ensures SameLease(db, CreateInvocation(db, u, c, i, revision).value)
  {
    hide Quiet, Evolves;
  }

  lemma MoveLease(db: Db, u: Unit, c: CallId, expected: InvocationStatus, revision: nat, target: InvocationStatus,
                  error: Option<ErrorCode>)
    requires TransitionInvocation(db, u, c, expected, revision, target, error).Ok?
    ensures SameLease(db, TransitionInvocation(db, u, c, expected, revision, target, error).value)
  {
    hide Quiet, Evolves;
  }

  lemma ChargeLease(db: Db, u: Unit, key: LedgerKey, delta: nat, revision: nat)
    requires RecordBudgetDelta(db, u, key, delta, revision).Ok?
    ensures SameLease(db, RecordBudgetDelta(db, u, key, delta, revision).value)
  {
    hide Quiet, Evolves;
  }

  lemma LoadLease(db: Db, u: Unit, c: CallId)
    requires Load(db, u, c).Ok?
    ensures SameLease(db, Load(db, u, c).value)
  {
    hide Quiet, Evolves, Expire;
    if Due(db.approvals[c], u.now) {
      ExpireLease(db, u, c);
    }
  }

  lemma ClaimLease(db: Db, u: Unit, c: CallId, revision: nat, intent: CallId)
    requires Claim(db, u, c, revision, intent).Ok?
    ensures SameLease(db, Claim(db, u, c, revision, intent).value)
  {
    hide Quiet, Evolves, Expire, BindingHolds;
    if Due(db.approvals[c], u.now) {
      ExpireLease(db, u, c);
    }
  }

  lemma ResumeLease(db: Db, u: Unit, c: CallId, revision: nat, intent: CallId)
    requires ResumeClaim(db, u, c, revision, intent).Ok?
    ensures SameLease(db, ResumeClaim(db, u, c, revision, intent).value)
  {
    hide Quiet, Evolves, BindingHolds;
  }

  lemma ConsumeLease(db: Db, u: Unit, c: CallId, revision: nat, intent: CallId, result: InvocationStatus,
                     code: Option<ErrorCode>)
    requires Consume(db, u, c, revision, intent, result, code).Ok?
    ensures SameLease(db, Consume(db, u, c, revision, intent, result, code).value)
  {
    hide Quiet, Evolves;
  }

  lemma DecideLease(db: Db, u: Unit, c: CallId, revision: nat, approver: Actor, roles: set<Role>, grant: bool)
    requires Decide(db, u, c, revision, approver, roles, grant).Ok?
    ensures SameLease(db, Decide(db, u, c, revision, approver, roles, grant).value)
  {
    hide Quiet, Evolves, Expire;
    if Due(db.approvals[c], u.now) {
      ExpireLease(db, u, c);
    }
  }

  lemma ClaimTransactionLease(db: Db, u: Unit, c: CallId)
    requires ClaimTransaction(db, u, c).Ok?
    ensures SameLease(db, ClaimTransaction(db, u, c).value)
  {
    hide Quiet, Evolves, Load, Claim, TransitionRun, RecordBudgetDelta;
    LoadLease(db, u, c);
    LoadEffect(db, u, c);
    var loaded := Load(db, u, c).value;
    ClaimLease(loaded, u, c, loaded.approvals[c].revision, c);
    var claimed := Claim(loaded, u, c, loaded.approvals[c].revision, c).value;
    RunLease(claimed, u, WaitingApproval, claimed.run.revision, Running, None, None);
    var running := TransitionRun(claimed, u, WaitingApproval, claimed.run.revision, Running, None, None).value;
    ChargeLease(running, u, ToolCallKey(c), 1, running.run.revision);
  }

  lemma OpenLease(cfg: Config, db: Db, u: Unit, pass: Pass, existing: bool)
    requires OpenApproval(cfg, db, u, pass, existing).Ok?
    ensures SameLease(db, OpenApproval(cfg, db, u, pass, existing).value)
  {
    hide Quiet, Evolves, CreateInvocation, ApprovalStore.Create, TransitionRun;
    if !existing {
      CallLease(db, u, pass.req.call, NewInvocation(pass, u.now), db.run.revision);
    }
    var prepared :=
      if existing then db
      else CreateInvocation(db, u, pass.req.call, NewInvocation(pass, u.now), db.run.revision).value;
    var ask := Ask(pass.req.call, pass.digest, pass.req.actor, cfg.approvalRoles, cfg.approvalTtl);
    CreateApprovalLease(prepared, u, ask);
    var asked := ApprovalStore.Create(prepared, u, ask).value;
    if db.run.status.Running? {
      RunLease(asked, u, Running, asked.run.revision, WaitingApproval, None, None);
    }
  }

  lemma PrepareCallLease(db: Db, u: Unit, pass: Pass)
    requires PrepareAndAllow(db, u, pass).Ok?
    ensures SameLease(db, PrepareAndAllow(db, u, pass).value)
  {
    hide Quiet, Evolves, CreateInvocation, RecordBudgetDelta;
    CallLease(db, u, pass.req.call, NewInvocation(pass, u.now), db.run.revision);
    var prepared := CreateInvocation(db, u, pass.req.call, NewInvocation(pass, u.now), db.run.revision).value;
    if !pass.internal {
      ChargeLease(prepared, u, ToolCallKey(pass.req.call), 1, prepared.run.revision);
    }
  }

  lemma ResumeOrClaimLease(db: Db, u: Unit, pass: Pass)
    requires ResumeOrClaim(db, u, pass).Ok?
    ensures SameLease(db, ResumeOrClaim(db, u, pass).value)
  {
    hide Quiet, Evolves, Load, ClaimTransaction, ResumeClaim;
    var c := pass.req.call;
    LoadLease(db, u, c);
    LoadEffect(db, u, c);
    var loaded := Load(db, u, c).value;
    if loaded.approvals[c].status.Claimed? {
      ResumeLease(loaded, u, c, loaded.approvals[c].revision, c);
    } else {
      ClaimTransactionLease(loaded, u, c);
    }
  }

  lemma {:induction false} FactsLease(db: Db, u: Unit, c: CallId, facts: seq<Fact>)
    requires AddFacts(db, u, c, facts).Ok?
    ensures SameLease(db, AddFacts(db, u, c, facts).value)
  {
    hide Quiet, Evolves, AddEvidence;
  }

  lemma PersistLease(db: Db, u: Unit, pass: Pass, outcome: Outcome)
    requires PersistResult(db, u, pass, outcome).Ok?
    ensures SameLease(db, PersistResult(db, u, pass, outcome).value)
  {
    hide Quiet, Evolves, AddFacts, TransitionInvocation, Load, Consume, MapOutcome;
    var c, target := pass.req.call, MapOutcome(outcome, pass.spec.idempotent);
    FactsLease(db, u, c, outcome.facts);
    var noted := AddFacts(db, u, c, outcome.facts).value;
    MoveLease(noted, u, c, InvocationStatus.Started, noted.calls[c].revision, target, outcome.error);
    var moved := TransitionInvocation(noted, u, c, InvocationStatus.Started, noted.calls[c].revision, target,
                                      outcome.error).value;
    if pass.approved && Deterministic(target) {
      LoadLease(moved, u, c);
      LoadEffect(moved, u, c);
      var loaded := Load(moved, u, c).value;
      ConsumeLease(loaded, u, c, loaded.approvals[c].revision, c, target, outcome.error);
    }
  }

  lemma PollLease(db: Db, u: Unit, req: Request)
    requires PollApproval(db, u, req).Ok?
    ensures SameLease(db, PollApproval(db, u, req).value)
  {
    hide Quiet, Evolves, Load;
    LoadLease(db, u, req.call);
  }

  lemma SmallTurnsLease(db: Db, u: Unit, pass: Pass, req: Request, code: ErrorCode)
    ensures RecordRecoveryAllow(db, u, pass).Ok? ==> SameLease(db, RecordRecoveryAllow(db, u, pass).value)
    ensures MarkStarted(db, u, pass.req.call).Ok? ==> SameLease(db, MarkStarted(db, u, pass.req.call).value)
    ensures SameLease(db, LogDenial(db, u, req, code))
  {
    hide Quiet, Evolves;
  }

  lemma TurnLease(cfg: Config, g: Gate, db: Db, now: Time, t: Token, outcome: Outcome)
    ensures SameLease(db, TakeTurn(cfg, g, db, now, t, outcome).db)
  {
    hide Quiet, Evolves, OpenApproval, PollApproval, ClaimTransaction, PrepareAndAllow, RecordRecoveryAllow,
        ResumeOrClaim,
         MarkStarted, PersistResult, LogDenial, DecideInvoke, DecideReentry, DecideInternal, DecideLoad;
    match g
    case OpeningApproval(pass, existing) =>
      var u := Unit(now, t, pass.req.actor);
      if OpenApproval(cfg, db, u, pass, existing).Ok? { OpenLease(cfg, db, u, pass, existing); }
    case AwaitingDecision(req) =>
      var u := Unit(now, t, req.actor);
      if PollApproval(db, u, req).Ok? { PollLease(db, u, req); }
    case ClaimingApproval(pass) =>
      var u := Unit(now, t, pass.req.actor);
      if ClaimTransaction(db, u, pass.req.call).Ok? { ClaimTransactionLease(db, u, pass.req.call); }
    case PreparingCall(pass) =>
      var u := Unit(now, t, pass.req.actor);
      if PrepareAndAllow(db, u, pass).Ok? { PrepareCallLease(db, u, pass); }
    case RecordingReentry(pass) => SmallTurnsLease(db, Unit(now, t, pass.req.actor), pass, pass.req, GateInternal);
    case ResumingClaim(pass) =>
      var u := Unit(now, t, pass.req.actor);
      if ResumeOrClaim(db, u, pass).Ok? { ResumeOrClaimLease(db, u, pass); }
    case Starting(pass) => SmallTurnsLease(db, Unit(now, t, pass.req.actor), pass, pass.req, GateInternal);
    case Persisting(pass, result) =>
      var u := Unit(now, t, pass.req.actor);
      if PersistResult(db, u, pass, result).Ok? { PersistLease(db, u, pass, result); }
    case Denying(req, code) => DenialLease(db, Unit(now, t, req.actor), req, code);
    case _ =>
  }

  lemma DenialLease(db: Db, u: Unit, req: Request, code: ErrorCode)
    ensures SameLease(db, LogDenial(db, u, req, code))
  {
    hide Quiet, Evolves;
  }

  lemma StoreLease(cfg: Config, s: System, step: Step)
    requires !step.Advance? && !step.Acquire? && !step.Renew? && !step.Release? && StoreStep(cfg, s, step).Ok?
    ensures SameLease(s.db, StoreStep(cfg, s, step).value)
  {
    hide Quiet, Evolves, TransitionRun, CreateStep, Note, RecordBudgetDelta, AddEvidence, InvalidateEvidence, Decide,
        Load,
         ExpireEach, Invalidate, CreateCheckpoint, Prepare;
    match step
    case MoveRun(t, target, stop, acceptance) =>
      RunLease(s.db, Unit(s.now, t, HARNESS), s.db.run.status, s.db.run.revision, target, stop, acceptance);
    case PlanStep(t, n) => StepLease(s.db, Unit(s.now, t, HARNESS), n, s.db.run.revision);
    case WriteNote(t) => NoteLease(s.db, Unit(s.now, t, HARNESS));
    case Charge(t, key, delta) => ChargeLease(s.db, Unit(s.now, t, HARNESS), key, delta, s.db.run.revision);
    case DecideApproval(t, actor, c, revision, roles, grant) =>
      DecideLease(s.db, Unit(s.now, t, actor), c, revision, actor, roles, grant);
    case LoadApproval(t, c) => LoadLease(s.db, Unit(s.now, t, HARNESS), c);
    case ExpireApprovals(t) => ExpireEachLease(s.db, Unit(s.now, t, HARNESS), DueCalls(s.db, s.now));
    case WithdrawApproval(t, c, revision) => InvalidateLease(s.db, Unit(s.now, t, HARNESS), c, revision);
    case WriteCheckpoint(t, b) => CheckpointLease(cfg, s.db, Unit(s.now, t, HARNESS), b, s.world);
    case Recover(t) => PrepareKeepsLease(cfg, s.db, Unit(s.now, t, HARNESS), s.world);
    case _ =>
  }

  lemma StepLease(db: Db, u: Unit, n: nat, revision: nat)
    requires CreateStep(db, u, n, revision).Ok?
    ensures SameLease(db, CreateStep(db, u, n, revision).value)
  {
    hide Quiet, Evolves;
  }

  lemma NoteLease(db: Db, u: Unit)
    requires Note(db, u).Ok?
    ensures SameLease(db, Note(db, u).value)
  {
    hide Quiet, Evolves;
  }

  lemma CheckpointLease(cfg: Config, db: Db, u: Unit, b: Boundary, world: World)
    requires CreateCheckpoint(cfg, db, u, b, world).Ok?
    ensures SameLease(db, CreateCheckpoint(cfg, db, u, b, world).value.db)
  {
    hide Quiet, Evolves, TakeSnapshot, FindBoundary, BoundaryAllowed, MaxSequence;
  }

  // ---------- who holds it ----------

  /** The lease is still that of `l`, perhaps with another end. */
  predicate StillHeld(db: Db, l: Lease) {
    db.lease.Some? && db.lease.value.token == l.token && db.lease.value.owner == l.owner
  }

  /**
    A lease that is alive is lost only when its holder lets it go, whatever else happens; and its end
    moves only when its holder renews it.
   */
  lemma LiveLeaseStays(cfg: Config, s: System, step: Step)
    requires s.db.lease.Some? && s.now < s.db.lease.value.expiresAt
    requires step != Step.Release(s.db.lease.value.token)
    ensures StillHeld(Next(cfg, s, step).db, s.db.lease.value)
    ensures !(step.Renew? && step.token == s.db.lease.value.token) ==> Next(cfg, s, step).db.lease == s.db.lease
  {
    hide Quiet, Evolves, TakeTurn, AcquireLease, RenewLease, ReleaseLease;
    if step.Advance? {
      TurnLease(cfg, GateOf(s, step.token), s.db, s.now, step.token, step.outcome);
    } else if step.Acquire? {
      AcquireExactly(s.db, Unit(s.now, 0, step.owner), step.ttl);
    } else if step.Renew? {
      RenewExactly(s.db, Unit(s.now, step.token, HARNESS), step.ttl);
    } else if step.Release? {
      ReleaseExactly(s.db, Unit(s.now, step.token, HARNESS));
    } else {
      hide StoreStep;
      if StoreStep(cfg, s, step).Ok? { StoreLease(cfg, s, step); }
    }
  }

  /** A lease passes to another token only by an acquisition, and then the old one was over or let go. */
  lemma LeaseChangesHandsExactly(cfg: Config, s: System, step: Step)
    ensures var after := Next(cfg, s, step).db.lease;
            after.Some? && (s.db.lease.None? || after.value.token != s.db.lease.value.token)
            ==> && step.Acquire? && 10 <= step.ttl <= 300
                && (s.db.lease.Some? ==> s.db.lease.value.expiresAt <= s.now)
                && after == Some(Lease(s.db.nextToken, step.owner, s.now + step.ttl))
    ensures s.db.lease.Some? && Next(cfg, s, step).db.lease.None? ==> step == Step.Release(s.db.lease.value.token)
  {
    hide Quiet, Evolves, TakeTurn, AcquireLease, RenewLease, ReleaseLease;
    if step.Advance? {
      TurnLease(cfg, GateOf(s, step.token), s.db, s.now, step.token, step.outcome);
    } else if step.Acquire? {
      AcquireExactly(s.db, Unit(s.now, 0, step.owner), step.ttl);
    } else if step.Renew? {
      RenewExactly(s.db, Unit(s.now, step.token, HARNESS), step.ttl);
    } else if step.Release? {
      ReleaseExactly(s.db, Unit(s.now, step.token, HARNESS));
    } else {
      hide StoreStep;
      if StoreStep(cfg, s, step).Ok? { StoreLease(cfg, s, step); }
    }
  }

  /** None of the steps lets the lease of `t` go, or comes at a time at which it is over. */
  ghost predicate KeptAlive(cfg: Config, s: System, steps: seq<Step>, t: Token)
    decreases |steps|
  {
    steps == [] ||
    (&& s.db.lease.Some? && s.now < s.db.lease.value.expiresAt
     && steps[0] != Step.Release(t)
     && KeptAlive(cfg, Next(cfg, s, steps[0]), steps[1..], t))
  }

  /** Whoever renews in time and does not let go holds the lease to the end of the run. */
  lemma {:induction false} HolderKeepsLease(cfg: Config, s: System, steps: seq<Step>, l: Lease)
    requires StillHeld(s.db, l) && KeptAlive(cfg, s, steps, l.token)
    ensures StillHeld(Exec(cfg, s, steps).db, l)
    decreases |steps|
  {
    hide Next;
    if steps != [] {
      LiveLeaseStays(cfg, s, steps[0]);
      HolderKeepsLease(cfg, Next(cfg, s, steps[0]), steps[1..], l);
    }
  }
}
