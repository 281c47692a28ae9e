/**
  Every step of the system, classified by what it does to approvals, calls and the run status.
 */
module StepEffects {
  import opened Domain
  import opened Wrappers
  import opened StateStore
  import opened ApprovalStore
  import opened Gate
  import opened Recovery
  import opened Protocol
  import opened ApprovalEffects

  // ---------- recovery ----------

  /** Exactly the rows of `ids` are withdrawn. */
  ghost predicate Withdraws(a: Db, b: Db, ids: set<CallId>) {
    && b.calls == a.calls && b.run == a.run
    && b.approvals.Keys == a.approvals.Keys
    && forall c :: c in a.approvals ==> b.approvals[c] == if c in ids then WithdrawnRow(a.approvals[c])
        else a.approvals[c]
  }

  lemma WithdrawsNothing(db: Db)
    ensures Withdraws(db, db, {})
  {
  }

  lemma WithdrawsThen(a: Db, next: Db, b: Db, c: CallId, ids: set<CallId>)
    requires c in ids && c in a.approvals
    requires next.approvals == a.approvals[c := WithdrawnRow(a.approvals[c])] && next.calls == a.calls
             && next.run == a.run
    requires Withdraws(next, b, ids - {c})
    ensures Withdraws(a, b, ids)
  {
  }

  lemma {:induction false} WithdrawEachEffect(db: Db, u: Unit, ids: set<CallId>)
    requires ids <= Withdrawable(db) && WithdrawEach(db, u, ids).Ok?
    ensures Withdraws(db, WithdrawEach(db, u, ids).value, ids)
    decreases |ids|
  {
    hide Quiet, Evolves, Invalidate, Withdraws;
    WithdrawsNothing(db);
    if ids != {} {
      var c := Earliest(ids, RequestTimes(db.approvals));
      InvalidateEffect(db, u, c, db.approvals[c].revision);
      var next := Invalidate(db, u, c, db.approvals[c].revision).value;
      assert ids - {c} <= Withdrawable(next);
      WithdrawEachEffect(next, u, ids - {c});
      WithdrawsThen(db, next, WithdrawEach(db, u, ids).value, c, ids);
    }
  }

  /** Blocking leaves no approval that could still authorise anything, and ends the run. */
  ghost predicate Blocks(a: Db, b: Db) {
    && b.calls == a.calls
    && b.approvals.Keys == a.approvals.Keys
    && (forall c :: c in a.approvals ==>
          b.approvals[c] == if c in Withdrawable(a) then WithdrawnRow(a.approvals[c]) else a.approvals[c])
    && b.run.status == (if a.run.status.Running? || a.run.status.WaitingApproval? then Blocked else a.run.status)
  }

  lemma BlockRecoveryEffect(db: Db, u: Unit, stop: StopReason)
    requires BlockRecovery(db, u, stop).Ok?
    ensures Blocks(db, BlockRecovery(db, u, stop).value)
  {
    hide Quiet, Evolves, WithdrawEach;
    WithdrawEachEffect(db, u, Withdrawable(db));
  }

  lemma RecordPlanEffect(db: Db, u: Unit, key: RecoveryKey)
    ensures Passive(db, RecordPlan(db, u, key).db)
  {
    hide Quiet, Evolves;
  }

  lemma BlockAndRecordEffect(db: Db, u: Unit, action: RecoveryAction, stop: StopReason, reason: Option<ErrorCode>,
                             call: Option<CallId>, approval: Option<nat>)
    requires BlockAndRecord(db, u, action, stop, reason, call, approval).Ok?
    ensures Blocks(db, BlockAndRecord(db, u, action, stop, reason, call, approval).value.db)
  {
    hide Quiet, Evolves, BlockRecovery, RecordPlan, Blocks, Withdrawable;
    BlockRecoveryEffect(db, u, stop);
    var blocked := BlockRecovery(db, u, stop).value;
    var key := KeyFor(blocked, blocked.run.lastCheckpoint, action, NeedsReview, reason, call, approval);
    RecordPlanEffect(blocked, u, key);
    BlocksThenPassive(db, blocked, RecordPlan(blocked, u, key).db);
  }

  lemma BlocksThenPassive(a: Db, b: Db, c: Db)
    requires Blocks(a, b) && Passive(b, c)
    ensures Blocks(a, c)
  {
  }

  /** A STARTED call of an owner that is gone. */
  predicate MarksUnknown(a: Db, b: Db, c: CallId) {
    && c in a.calls && a.calls[c].status.Started?
    && c in b.calls && b.calls[c].status.UnknownResult? && b.calls == a.calls[c := b.calls[c]]
    && b.approvals == a.approvals && b.run.status == a.run.status
  }

  lemma MarkUnknownEffect(db: Db, u: Unit, c: CallId)
    requires MarkUnknownAndRecord(db, u, c).Ok?
    ensures exists marked :: MarksUnknown(db, marked, c) && Blocks(marked, MarkUnknownAndRecord(db, u, c).value.db)
  {
    hide Quiet, Evolves, BlockAndRecord, Blocks;
    var marked := TransitionInvocation(db, u, c, InvocationStatus.Started, db.calls[c].revision,
                                       InvocationStatus.UnknownResult, Some(ResultUnknown)).value;
    BlockAndRecordEffect(marked, u, MarkUnknownResult, StopReason.UnknownResult, Some(RecoveryManualReviewRequired),
        Some(c), None);
    assert MarksUnknown(db, marked, c);
  }

  lemma CreateCheckpointEffect(cfg: Config, db: Db, u: Unit, b: Boundary, world: World)
    requires CreateCheckpoint(cfg, db, u, b, world).Ok?
    ensures Passive(db, CreateCheckpoint(cfg, db, u, b, world).value.db)
  {
    hide Quiet, Evolves, TakeSnapshot, FindBoundary, BoundaryAllowed, MaxSequence;
  }

  lemma RebuildEffect(cfg: Config, db: Db, u: Unit, world: World, c: CallId)
    requires RebuildAndRecord(cfg, db, u, world, c).Ok?
    ensures Passive(db, RebuildAndRecord(cfg, db, u, world, c).value.db)
  {
    hide Quiet, Evolves, CreateCheckpoint, RecordPlan, RebuildBoundary;
    CreateCheckpointEffect(cfg, db, u, RebuildBoundary(db, c), world);
    var written := CreateCheckpoint(cfg, db, u, RebuildBoundary(db, c), world).value;
    RecordPlanEffect(written.db, u,
      KeyFor(written.db, Some(written.checkpoint.id), RebuildCheckpointThenContinue, Resumable, None, Some(c),
          db.calls[c].approval));
  }

  lemma InvalidateEachEffect(db: Db, u: Unit, ids: set<nat>)
    requires InvalidateEach(db, u, ids).Ok?
    ensures Passive(db, InvalidateEach(db, u, ids).value)
  {
    hide Quiet, Evolves, InvalidateEach;
  }

  lemma RefreshEffect(db: Db, u: Unit, world: World)
    requires Refresh(db, u, world).Ok?
    ensures Expiry(db, Refresh(db, u, world).value, u.now)
  {
    hide Quiet, Evolves, InvalidateEach, ExpireDue;
    ExpireDueEffect(db, u);
    var expired := ExpireDue(db, u).value;
    if !(expired.run.status.Completed? || expired.run.status.Stopped? || expired.run.status.Failed?) {
      InvalidateEachEffect(expired, u, StaleIds(expired, world));
    }
  }

  /** What follows once the rows are up to date: nothing here, or a block, after marking a call unknown or not. */
  ghost predicate Settles(a: Db, b: Db) {
    || Passive(a, b)
    || (LiveRun(a.run.status) && Blocks(a, b))
    || (LiveRun(a.run.status) && exists c, marked :: MarksUnknown(a, marked, c) && Blocks(marked, b))
  }

  predicate LiveRun(s: RunStatus) {
    s.Running? || s.WaitingApproval?
  }

  predicate Stops(v: Verdict) {
    v.Block? || v.MarkUnknown?
  }

  lemma CarryOutEffect(cfg: Config, db: Db, u: Unit, world: World, v: Verdict)
    requires CarryOut(cfg, db, u, world, v).Ok?
    requires Stops(v) ==> LiveRun(db.run.status)
    ensures Settles(db, CarryOut(cfg, db, u, world, v).value.db)
  {
    hide Quiet, Evolves, BlockAndRecord, MarkUnknownAndRecord, RebuildAndRecord, RecordPlan, KeyFor, Blocks, Passive;
    match v
    case Record(action, status, reason, call, approval) =>
      RecordPlanEffect(db, u, KeyFor(db, db.run.lastCheckpoint, action, status, reason, call, approval));
    case Block(action, stop, reason, call, approval) => BlockAndRecordEffect(db, u, action, stop, reason, call,
        approval);
    case MarkUnknown(c) => MarkUnknownEffect(db, u, c);
    case Rebuild(c) => RebuildEffect(cfg, db, u, world, c);
  }

  /** `prepare_recovery`: at most the due approvals lapse, and then the run is left alone or blocked. */
  ghost predicate Recovers(a: Db, b: Db, now: Time) {
    exists mid :: Expiry(a, mid, now) && Settles(mid, b)
  }

  lemma TriageStops(cfg: Config, db: Db, world: World)
    ensures Triage(cfg, db, world).Some? && Stops(Triage(cfg, db, world).value) ==> LiveRun(db.run.status)
    ensures Triage(cfg, db, world).None? ==> LiveRun(db.run.status)
  {
    hide CallsWith, FirstCall, Latest, IdentityChanged, ExternalChanged;
  }

  lemma PrepareRecoveryEffect(cfg: Config, db: Db, u: Unit, world: World)
    requires Prepare(cfg, db, u, world).Ok?
    ensures Recovers(db, Prepare(cfg, db, u, world).value.db, u.now)
  {
    hide Quiet, Evolves, CarryOut, Triage, Refresh, Judge, Settles;
    var early := Triage(cfg, db, world);
    TriageStops(cfg, db, world);
    if early.Some? {
      CarryOutEffect(cfg, db, u, world, early.value);
      assert Expiry(db, db, u.now);
    } else {
      RefreshEffect(db, u, world);
      var current := Refresh(db, u, world).value;
      CarryOutEffect(cfg, current, u, world, JudgeRefreshed(current, world));
    }
  }

  // ---------- one name for every kind of step ----------

  datatype Kind =
    | Still                                                 // nothing here changes
    | RunMove                                               // the harness moves the run
    | Creation(pass: Pass)                                  // a call that needs no approval
    | Opening(actor: Actor, pass: Pass, existing: bool)     // a call and its approval
    | Starting(token: Token, call: CallId)
    | Result(pass: Pass)
    | Claiming(actor: Actor, call: CallId)
    | Deciding(actor: Actor, call: CallId, roles: set<Role>, grant: bool)
    | Lapsing                                               // due approvals expire
    | Withdrawing(call: CallId)
    | Recovering

  ghost predicate Shows(cfg: Config, a: Db, b: Db, now: Time, k: Kind) {
    match k
    case Still => Passive(a, b)
    case RunMove => b.approvals == a.approvals && b.calls == a.calls && HarnessMove(a.run.status, b.run.status)
    case Creation(pass) => Creates(a, b, now, pass)
    case Opening(actor, pass, existing) => Opens(cfg, a, b, Unit(now, 0, actor), pass, existing)
    case Starting(t, c) => StartsCall(a, b, t, c)
    case Result(pass) => Persists(a, b, now, pass)
    case Claiming(actor, c) => Claims(a, b, Unit(now, 0, actor), c)
    case Deciding(actor, c, roles, grant) => Decides(a, b, Unit(now, 0, actor), c, roles, grant)
    case Lapsing => Expiry(a, b, now)
    case Withdrawing(c) => WithdrawsRow(a, b, c)
    case Recovering => Recovers(a, b, now)
  }

  /** The Gate state a kind of step can come from. */
  ghost predicate ComesFrom(k: Kind, g: Gate) {
    match k
    case Creation(pass) => g == PreparingCall(pass)
    case Opening(actor, pass, existing) => g == OpeningApproval(pass, existing) && actor == pass.req.actor
    case Starting(t, c) => g.Starting? && g.pass.req.call == c
    case Result(pass) => g.Persisting? && g.pass == pass
    case Claiming(actor, c) => (g.ClaimingApproval? || g.ResumingClaim?) && g.pass.req.call == c
        && actor == g.pass.req.actor
    case RunMove | Deciding(_, _, _, _) | Withdrawing(_) | Recovering => false
    case Still | Lapsing => true
  }

  /** ... and the store operation, for a step that no Gate makes. */
  predicate ComesFromStore(k: Kind, step: Step) {
    match k
    case RunMove => step.MoveRun?
    case Deciding(_, _, _, _) => step.DecideApproval?
    case Lapsing => step.LoadApproval? || step.ExpireApprovals?
    case Withdrawing(c) => step.WithdrawApproval? && step.call == c
    case Recovering => step.Recover?
    case other => other.Still?
  }

  lemma TurnKind(cfg: Config, gate: Gate, db: Db, now: Time, t: Token, outcome: Outcome) returns (k: Kind)
    requires db.approvals.Keys <= db.calls.Keys
    ensures Shows(cfg, db, TakeTurn(cfg, gate, db, now, t, outcome).db, now, k)
    ensures ComesFrom(k, gate)
  {
    hide Quiet, Evolves, OpenApproval, PollApproval, ClaimAndAllow, PrepareAndAllow, ResumeOrClaim, PersistResult,
         DecideInvoke, DecideLoad, DecideReentry, DecideInternal, Passive, Expiry, Claims, Creates, Opens, Persists;
    var turn := TakeTurn(cfg, gate, db, now, t, outcome);
    PassiveItself(db);
    k := Still;
    match gate
    case OpeningApproval(pass, existing) =>
      var u := Unit(now, t, pass.req.actor);
      if OpenApproval(cfg, db, u, pass, existing).Ok? {
        OpenApprovalEffect(cfg, db, u, pass, existing);
        OpensIgnoresToken(cfg, db, turn.db, u, Unit(now, 0, pass.req.actor), pass, existing);
        if !Passive(db, turn.db) { k := Opening(pass.req.actor, pass, existing); }
      }
    case AwaitingDecision(req) =>
      if PollApproval(db, Unit(now, t, req.actor), req).Ok? {
        PollEffect(db, Unit(now, t, req.actor), req);
        k := Lapsing;
      }
    case ClaimingApproval(pass) =>
      var u := Unit(now, t, pass.req.actor);
      if ClaimAndAllow(db, u, pass).Ok? {
        ClaimAndAllowEffect(db, u, pass);
        ClaimsIgnoresToken(db, turn.db, u, Unit(now, 0, pass.req.actor), pass.req.call);
        k := Claiming(pass.req.actor, pass.req.call);
      }
    case PreparingCall(pass) =>
      if PrepareAndAllow(db, Unit(now, t, pass.req.actor), pass).Ok? {
        PrepareEffect(db, Unit(now, t, pass.req.actor), pass);
        k := Creation(pass);
      }
    case RecordingReentry(pass) => RecordAllowPassive(db, Unit(now, t, pass.req.actor), pass);
    case ResumingClaim(pass) =>
      var u := Unit(now, t, pass.req.actor);
      if ResumeOrClaim(db, u, pass).Ok? {
        ResumeOrClaimEffect(db, u, pass);
        ClaimsIgnoresToken(db, turn.db, u, Unit(now, 0, pass.req.actor), pass.req.call);
        if !Passive(db, turn.db) { k := Claiming(pass.req.actor, pass.req.call); }
      }
    case Starting(pass) =>
      StartingTurn(cfg, gate, db, now, t, outcome);
      if turn.gate.Executing? { k := Kind.Starting(t, pass.req.call); }
    case Persisting(pass, result) =>
      if PersistResult(db, Unit(now, t, pass.req.actor), pass, result).Ok? {
        PersistEffect(db, Unit(now, t, pass.req.actor), pass, result);
        k := Kind.Result(pass);
      }
    case Denying(req, code) => DenialPassive(db, Unit(now, t, req.actor), req, code);
    case _ =>
  }

  lemma PassiveItself(db: Db)
    ensures Passive(db, db)
  {
  }

  lemma OpensIgnoresToken(cfg: Config, a: Db, b: Db, u: Unit, v: Unit, pass: Pass, existing: bool)
    requires u.now == v.now
    ensures Opens(cfg, a, b, u, pass, existing) <==> Opens(cfg, a, b, v, pass, existing)
  {
  }

  lemma ClaimsIgnoresToken(a: Db, b: Db, u: Unit, v: Unit, c: CallId)
    requires u.now == v.now && u.actor == v.actor
    ensures Claims(a, b, u, c) <==> Claims(a, b, v, c)
  {
  }

  lemma RecordAllowPassive(db: Db, u: Unit, pass: Pass)
    ensures RecordRecoveryAllow(db, u, pass).Ok? ==> Passive(db, RecordRecoveryAllow(db, u, pass).value)
  {
    hide Quiet, Evolves;
  }

  lemma DenialPassive(db: Db, u: Unit, req: Request, code: ErrorCode)
    ensures Passive(db, LogDenial(db, u, req, code))
  {
    hide Quiet, Evolves;
  }

  /** Store operations that touch neither approvals nor calls nor the run status. */
  lemma PlainStoreStep(cfg: Config, s: System, step: Step)
    requires step.Acquire? || step.Renew? || step.Release? || step.PlanStep? || step.WriteNote? || step.Charge?
          || step.RecordFact? || step.DropFact?
    requires StoreStep(cfg, s, step).Ok?
    ensures Passive(s.db, StoreStep(cfg, s, step).value)
  {
    hide Quiet, Evolves;
  }

  lemma StoreKind(cfg: Config, s: System, step: Step) returns (k: Kind)
    requires !step.Advance? && StoreStep(cfg, s, step).Ok?
    ensures Shows(cfg, s.db, StoreStep(cfg, s, step).value, s.now, k)
    ensures ComesFromStore(k, step)
  {
    hide Quiet, Evolves, AcquireLease, RenewLease, ReleaseLease, TransitionRun, CreateStep, Note, RecordBudgetDelta,
         AddEvidence, InvalidateEvidence, Decide, Load, ExpireDue, Invalidate, CreateCheckpoint, Prepare, Passive,
         Expiry, Recovers;
    PassiveItself(s.db);
    var b := StoreStep(cfg, s, step).value;
    k := Still;
    match step
    case DecideApproval(t, actor, c, revision, roles, grant) =>
      DecideEffect(s.db, Unit(s.now, t, actor), c, revision, actor, roles, grant);
      k := Deciding(actor, c, roles, grant);
    case LoadApproval(t, c) =>
      LoadEffect(s.db, Unit(s.now, t, HARNESS), c);
      k := Lapsing;
    case ExpireApprovals(t) =>
      ExpireDueEffect(s.db, Unit(s.now, t, HARNESS));
      k := Lapsing;
    case WithdrawApproval(t, c, revision) =>
      InvalidateEffect(s.db, Unit(s.now, t, HARNESS), c, revision);
      k := Withdrawing(c);
    case WriteCheckpoint(t, boundary) => CreateCheckpointEffect(cfg, s.db, Unit(s.now, t, HARNESS), boundary, s.world);
    case Recover(t) =>
      PrepareRecoveryEffect(cfg, s.db, Unit(s.now, t, HARNESS), s.world);
      k := Recovering;
    case MoveRun(t, target, stop, acceptance) =>
      MoveRunEffect(s.db, Unit(s.now, t, HARNESS), target, stop, acceptance);
      k := RunMove;
    case Acquire(_, _) => PlainStoreStep(cfg, s, step);
    case Renew(_, _) => PlainStoreStep(cfg, s, step);
    case Release(_) => PlainStoreStep(cfg, s, step);
    case PlanStep(_, _) => PlainStoreStep(cfg, s, step);
    case WriteNote(_) => PlainStoreStep(cfg, s, step);
    case Charge(_, _, _) => PlainStoreStep(cfg, s, step);
    case RecordFact(_, _) => PlainStoreStep(cfg, s, step);
    case DropFact(_, _) => PlainStoreStep(cfg, s, step);
    case _ =>
  }

  lemma MoveRunEffect(db: Db, u: Unit, target: RunStatus, stop: Option<StopReason>, acceptance: Option<Acceptance>)
    requires TransitionRun(db, u, db.run.status, db.run.revision, target, stop, acceptance).Ok?
    ensures var b := TransitionRun(db, u, db.run.status, db.run.revision, target, stop, acceptance).value;
            b.approvals == db.approvals && b.calls == db.calls && b.run.status == target
  {
    hide Quiet, Evolves;
  }

  /** Every step of the system is of one kind, and says where it came from. */
  lemma StepKind(cfg: Config, s: System, step: Step) returns (k: Kind)
    requires s.db.approvals.Keys <= s.db.calls.Keys
    ensures Shows(cfg, s.db, Next(cfg, s, step).db, s.now, k)
    ensures step.Advance? ==> ComesFrom(k, GateOf(s, step.token))
    ensures !step.Advance? ==> ComesFromStore(k, step)
  {
    hide Quiet, Evolves, StoreStep, TakeTurn, Shows, ComesFrom;
    StillItself(cfg, s);
    k := Still;
    if step.Advance? {
      k := TurnKind(cfg, GateOf(s, step.token), s.db, s.now, step.token, step.outcome);
    } else if StoreStep(cfg, s, step).Ok? && !(step.Tick? || step.ChangeWorld? || step.Submit? || step.Crash?) {
      k := StoreKind(cfg, s, step);
    }
  }

  lemma StillItself(cfg: Config, s: System)
    ensures Shows(cfg, s.db, s.db, s.now, Still)
  {
  }
}
