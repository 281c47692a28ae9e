/**
  Budget conservation: the counters are the ledger, and the ledger bounds how often handlers run.
 */
module Budget {
  import opened Domain
  import opened Wrappers
  import opened StateStore
  import opened ApprovalStore
  import opened Gate
  import opened Recovery
  import opened Protocol
  import opened Execution
  import opened ApprovalEffects
  import opened StepEffects
  import opened Approvals

  // ---------- sums over the ledger ----------

  function Amount(ledger: map<LedgerKey, nat>, key: LedgerKey, category: Category): nat {
    if key in ledger && key.category == category then ledger[key] else 0
  }

  /** All deltas recorded for one category. */
  ghost function LedgerSum(ledger: map<LedgerKey, nat>, category: Category): nat
    decreases |ledger.Keys|
  {
    if ledger == map[] then 0
    else
      var key :| key in ledger;
      assert (ledger - {key}).Keys < ledger.Keys;
      Amount(ledger, key, category) + LedgerSum(ledger - {key}, category)
  }

  /** Any entry can be taken out first. */
  lemma {:induction false} SumWithout(ledger: map<LedgerKey, nat>, key: LedgerKey, category: Category)
    requires key in ledger
    ensures LedgerSum(ledger, category) == Amount(ledger, key, category) + LedgerSum(ledger - {key}, category)
    decreases |ledger.Keys|
  {
    var first :| first in ledger
      && LedgerSum(ledger, category) == Amount(ledger, first, category) + LedgerSum(ledger - {first}, category);
    if first != key {
      assert (ledger - {first}).Keys < ledger.Keys && (ledger - {key}).Keys < ledger.Keys;
      assert Amount(ledger - {first}, key, category) == Amount(ledger, key, category);
      assert Amount(ledger - {key}, first, category) == Amount(ledger, first, category);
      SumWithout(ledger - {first}, key, category);
      SumWithout(ledger - {key}, first, category);
      assert (ledger - {first}) - {key} == (ledger - {key}) - {first};
    }
  }

  lemma SumWith(ledger: map<LedgerKey, nat>, key: LedgerKey, delta: nat, category: Category)
    requires key !in ledger
    ensures LedgerSum(ledger[key := delta], category)
         == LedgerSum(ledger, category) + if key.category == category then delta else 0
  {
    SumWithout(ledger[key := delta], key, category);
    assert ledger[key := delta] - {key} == ledger;
  }

  /** Calls that own a unit entry of their own cost at least one each. */
  lemma {:induction false} SumCountsCalls(ledger: map<LedgerKey, nat>, calls: set<CallId>)
    requires forall c :: c in calls ==> ToolCallKey(c) in ledger && ledger[ToolCallKey(c)] == 1
    ensures |calls| <= LedgerSum(ledger, ToolCalls)
    decreases |calls|
  {
    if calls != {} {
      var c :| c in calls;
      SumWithout(ledger, ToolCallKey(c), ToolCalls);
      SumCountsCalls(ledger - {ToolCallKey(c)}, calls - {c});
    }
  }

  // ---------- conservation ----------

  /** Every counter is its initial value plus its ledger entries, and within its limit. */
  ghost predicate Balanced(db: Db, start: Usage) {
    forall k :: db.run.used.Get(k) == start.Get(k) + LedgerSum(db.ledger, k)
        && db.run.used.Get(k) <= db.run.limits.Get(k)
  }

  predicate SameMoney(a: Db, b: Db) {
    b.ledger == a.ledger && b.run.used == a.run.used && b.run.limits == a.run.limits
  }

  predicate SameCheckpoints(a: Db, b: Db) {
    b.checkpoints == a.checkpoints && b.run.lastCheckpoint == a.run.lastCheckpoint
  }

  /** Ledger, counters and checkpoints are untouched. */
  predicate SameBooks(a: Db, b: Db) {
    SameMoney(a, b) && SameCheckpoints(a, b)
  }

  ghost predicate KeepsBalance(a: Db, b: Db, start: Usage) {
    (Balanced(a, start) ==> Balanced(b, start)) && SameCheckpoints(a, b)
  }

  lemma SameKeepsBalance(a: Db, b: Db, start: Usage)
    requires SameBooks(a, b)
    ensures KeepsBalance(a, b, start)
  {
  }

  lemma MoneyKeepsBalance(a: Db, b: Db, start: Usage)
    requires SameMoney(a, b) && Balanced(a, start)
    ensures Balanced(b, start)
  {
  }

  lemma ChargeKeepsBalance(db: Db, u: Unit, key: LedgerKey, delta: nat, revision: nat, start: Usage)
    requires RecordBudgetDelta(db, u, key, delta, revision).Ok?
    ensures KeepsBalance(db, RecordBudgetDelta(db, u, key, delta, revision).value, start)
  {
    hide Quiet, Evolves;
    var b := RecordBudgetDelta(db, u, key, delta, revision).value;
    if key !in db.ledger && Balanced(db, start) {
      forall k ensures b.run.used.Get(k) == start.Get(k) + LedgerSum(b.ledger, k)
          && b.run.used.Get(k) <= b.run.limits.Get(k) {
        SumWith(db.ledger, key, delta, k);
        assert db.run.used.Get(k) == start.Get(k) + LedgerSum(db.ledger, k);
      }
    }
  }

  /** A charge that is repeated, at whatever revision, changes nothing; with another amount it is refused. */
  lemma ChargesAreIdempotent(db: Db, u: Unit, key: LedgerKey, delta: nat, revision: nat, again: nat, revision': nat)
    requires RecordBudgetDelta(db, u, key, delta, revision).Ok?
    ensures var b := RecordBudgetDelta(db, u, key, delta, revision).value;
            RecordBudgetDelta(b, u, key, again, revision') == if again == delta then Ok(b) else Err(StateConflict)
  {
    hide Quiet, Evolves;
  }

  // ---------- operations that leave the budget alone ----------

  lemma RunBudget(db: Db, u: Unit, expected: RunStatus, revision: nat, target: RunStatus, stop: Option<StopReason>,
      verdict: Option<Acceptance>)
    ensures TransitionRun(db, u, expected, revision, target, stop, verdict).Ok? ==>
              SameBooks(db, TransitionRun(db, u, expected, revision, target, stop, verdict).value)
  {
    hide Quiet, Evolves;
  }

  lemma CallBudget(db: Db, u: Unit, c: CallId, i: Invocation, expected: InvocationStatus, revision: nat,
      target: InvocationStatus, error: Option<ErrorCode>)
    ensures CreateInvocation(db, u, c, i, revision).Ok? ==> SameBooks(db, CreateInvocation(db, u, c, i, revision).value)
    ensures TransitionInvocation(db, u, c, expected, revision, target, error).Ok? ==>
              SameBooks(db, TransitionInvocation(db, u, c, expected, revision, target, error).value)
  {
    hide Quiet, Evolves;
  }

  lemma ExpireBudget(db: Db, u: Unit, c: CallId)
    requires c in db.approvals && Active(db.approvals[c].status) && Expire(db, u, c).Ok?
    ensures SameBooks(db, Expire(db, u, c).value)
  {
    hide Quiet, Evolves;
  }

  lemma LoadBudget(db: Db, u: Unit, c: CallId)
    requires Load(db, u, c).Ok?
    ensures SameBooks(db, Load(db, u, c).value) && c in Load(db, u, c).value.approvals
  {
    hide Quiet, Evolves, Expire;
    LoadEffect(db, u, c);
    if Due(db.approvals[c], u.now) { ExpireBudget(db, u, c); }
  }

  lemma {:induction false} ExpireEachBudget(db: Db, u: Unit, ids: set<CallId>)
    requires ExpireEach(db, u, ids).Ok?
    ensures SameBooks(db, ExpireEach(db, u, ids).value)
    decreases |ids|
  {
    hide Quiet, Evolves, Expire;
    if ids != {} {
      var c := Earliest(ids, RequestTimes(db.approvals));
      if Active(db.approvals[c].status) {
        ExpireBudget(db, u, c);
        ExpireEachBudget(Expire(db, u, c).value, u, ids - {c});
      } else {
        ExpireEachBudget(db, u, ids - {c});
      }
    }
  }

  lemma ApprovalBudget(db: Db, u: Unit, c: CallId, revision: nat, intent: CallId, result: InvocationStatus,
      code: Option<ErrorCode>)
    ensures ResumeClaim(db, u, c, revision, intent).Ok? ==> SameBooks(db, ResumeClaim(db, u, c, revision, intent).value)
    ensures Consume(db, u, c, revision, intent, result, code).Ok?
            ==> SameBooks(db, Consume(db, u, c, revision, intent, result, code).value)
  {
    hide Quiet, Evolves;
  }

  lemma CreateBudget(db: Db, u: Unit, ask: Ask)
    ensures ApprovalStore.Create(db, u, ask).Ok? ==> SameBooks(db, ApprovalStore.Create(db, u, ask).value)
  {
    hide Quiet, Evolves, BindingHolds;
  }

  lemma ClaimBudget(db: Db, u: Unit, c: CallId, revision: nat, intent: CallId)
    requires Claim(db, u, c, revision, intent).Ok?
    ensures SameBooks(db, Claim(db, u, c, revision, intent).value)
  {
    hide Quiet, Evolves;
    ClaimEffect(db, u, c, revision, intent);
  }

  lemma InvalidateBudget(db: Db, u: Unit, c: CallId, revision: nat)
    requires Invalidate(db, u, c, revision).Ok?
    ensures SameBooks(db, Invalidate(db, u, c, revision).value)
  {
    hide Quiet, Evolves, Expire;
    if Due(db.approvals[c], u.now) { ExpireBudget(db, u, c); }
  }

  lemma {:induction false} WithdrawEachBudget(db: Db, u: Unit, ids: set<CallId>)
    requires WithdrawEach(db, u, ids).Ok?
    ensures SameBooks(db, WithdrawEach(db, u, ids).value)
    decreases |ids|
  {
    hide Quiet, Evolves, Invalidate;
    if ids != {} {
      var c := Earliest(ids, RequestTimes(db.approvals));
      InvalidateBudget(db, u, c, db.approvals[c].revision);
      WithdrawEachBudget(Invalidate(db, u, c, db.approvals[c].revision).value, u, ids - {c});
    }
  }

  lemma DecideBudget(db: Db, u: Unit, c: CallId, revision: nat, approver: Actor, roles: set<Role>, grant: bool)
    requires Decide(db, u, c, revision, approver, roles, grant).Ok?
    ensures SameBooks(db, Decide(db, u, c, revision, approver, roles, grant).value)
  {
    hide Quiet, Evolves, Expire;
    if Due(db.approvals[c], u.now) { ExpireBudget(db, u, c); }
  }

  // ---------- Gate transactions ----------

  lemma OpenBudget(cfg: Config, db: Db, u: Unit, pass: Pass, existing: bool)
    requires OpenApproval(cfg, db, u, pass, existing).Ok?
    ensures SameBooks(db, OpenApproval(cfg, db, u, pass, existing).value)
  {
    hide Quiet, Evolves, CreateInvocation, ApprovalStore.Create, TransitionRun;
    var fresh_ := NewInvocation(pass, u.now);
    CallBudget(db, u, pass.req.call, fresh_, InvocationStatus.Prepared, db.run.revision, InvocationStatus.Started,
        None);
    var prepared := if existing then db else CreateInvocation(db, u, pass.req.call, fresh_, db.run.revision).value;
    var ask := Ask(pass.req.call, pass.digest, pass.req.actor, cfg.approvalRoles, cfg.approvalTtl);
    CreateBudget(prepared, u, ask);
    var asked := ApprovalStore.Create(prepared, u, ask).value;
    RunBudget(asked, u, Running, asked.run.revision, WaitingApproval, None, None);
  }

  lemma ClaimTransactionBalance(db: Db, u: Unit, c: CallId, start: Usage)
    requires ClaimTransaction(db, u, c).Ok?
    ensures KeepsBalance(db, ClaimTransaction(db, u, c).value, start)
  {
    hide Quiet, Evolves, Load, Claim, TransitionRun, RecordBudgetDelta, Balanced;
    LoadBudget(db, u, c);
    var loaded := Load(db, u, c).value;
    ClaimBudget(loaded, u, c, loaded.approvals[c].revision, c);
    var claimed := Claim(loaded, u, c, loaded.approvals[c].revision, c).value;
    RunBudget(claimed, u, WaitingApproval, claimed.run.revision, Running, None, None);
    var running := TransitionRun(claimed, u, WaitingApproval, claimed.run.revision, Running, None, None).value;
    SameKeepsBalance(db, running, start);
    ChargeKeepsBalance(running, u, ToolCallKey(c), 1, running.run.revision, start);
  }

  lemma LogKeepsBalance(db: Db, u: Unit, event: Event, start: Usage)
    ensures KeepsBalance(db, Log(db, u, event), start)
  {
    hide Quiet, Evolves;
  }

  lemma ClaimAndAllowBalance(db: Db, u: Unit, pass: Pass, start: Usage)
    requires ClaimAndAllow(db, u, pass).Ok?
    ensures KeepsBalance(db, ClaimAndAllow(db, u, pass).value, start)
  {
    hide Quiet, Evolves, ClaimTransaction, Balanced, Log;
    ClaimTransactionBalance(db, u, pass.req.call, start);
    LogKeepsBalance(ClaimTransaction(db, u, pass.req.call).value, u, GateAllowed(pass.req.call), start);
  }

  lemma ResumeOrClaimBalance(db: Db, u: Unit, pass: Pass, start: Usage)
    requires ResumeOrClaim(db, u, pass).Ok?
    ensures KeepsBalance(db, ResumeOrClaim(db, u, pass).value, start)
  {
    hide Quiet, Evolves, Load, ClaimTransaction, ResumeClaim, Balanced, Log;
    var c := pass.req.call;
    LoadBudget(db, u, c);
    var loaded := Load(db, u, c).value;
    SameKeepsBalance(db, loaded, start);
    var a := loaded.approvals[c];
    if a.status.Claimed? {
      ApprovalBudget(loaded, u, c, a.revision, c, InvocationStatus.Failed, None);
      var ready := ResumeClaim(loaded, u, c, a.revision, c).value;
      SameKeepsBalance(loaded, ready, start);
      LogKeepsBalance(ready, u, GateAllowed(c), start);
    } else {
      ClaimTransactionBalance(loaded, u, c, start);
      LogKeepsBalance(ClaimTransaction(loaded, u, c).value, u, GateAllowed(c), start);
    }
  }

  lemma PrepareAndAllowBalance(db: Db, u: Unit, pass: Pass, start: Usage)
    requires PrepareAndAllow(db, u, pass).Ok?
    ensures KeepsBalance(db, PrepareAndAllow(db, u, pass).value, start)
  {
    hide Quiet, Evolves, CreateInvocation, RecordBudgetDelta, Balanced, Log;
    var c, i := pass.req.call, NewInvocation(pass, u.now);
    CallBudget(db, u, c, i, InvocationStatus.Prepared, db.run.revision, InvocationStatus.Started, None);
    var prepared := CreateInvocation(db, u, c, i, db.run.revision).value;
    SameKeepsBalance(db, prepared, start);
    if pass.internal {
      LogKeepsBalance(prepared, u, GateAllowed(c), start);
    } else {
      ChargeKeepsBalance(prepared, u, ToolCallKey(c), 1, prepared.run.revision, start);
      LogKeepsBalance(RecordToolBudget(prepared, u, c).value, u, GateAllowed(c), start);
    }
  }

  lemma PersistBudget(db: Db, u: Unit, pass: Pass, outcome: Outcome)
    requires PersistResult(db, u, pass, outcome).Ok?
    ensures SameBooks(db, PersistResult(db, u, pass, outcome).value)
  {
    hide Quiet, Evolves, AddFacts, TransitionInvocation, Load, Consume;
    var c, target := pass.req.call, MapOutcome(outcome, pass.spec.idempotent);
    var noted := AddFacts(db, u, c, outcome.facts).value;
    var i := noted.calls[c];
    CallBudget(noted, u, c, i, InvocationStatus.Started, i.revision, target, outcome.error);
    if pass.approved && Deterministic(target) {
      var moved := TransitionInvocation(noted, u, c, InvocationStatus.Started, i.revision, target, outcome.error).value;
      LoadBudget(moved, u, c);
      var loaded := Load(moved, u, c).value;
      ApprovalBudget(loaded, u, c, loaded.approvals[c].revision, c, target, outcome.error);
    }
  }

  lemma PollBudget(db: Db, u: Unit, req: Request)
    requires PollApproval(db, u, req).Ok?
    ensures SameBooks(db, PollApproval(db, u, req).value)
  {
    hide Quiet, Evolves, Load;
    LoadBudget(db, u, req.call);
  }

  lemma TurnBalance(cfg: Config, gate: Gate, db: Db, now: Time, t: Token, outcome: Outcome, start: Usage)
    ensures KeepsBalance(db, TakeTurn(cfg, gate, db, now, t, outcome).db, start)
  {
    hide Quiet, Evolves, OpenApproval, PollApproval, ClaimAndAllow, PrepareAndAllow, RecordRecoveryAllow,
         ResumeOrClaim, PersistResult, LogDenial, MarkStarted, DecideInvoke, DecideLoad, DecideReentry,
         DecideInternal, Balanced, Log;
    match gate
    case OpeningApproval(pass, existing) =>
      var u := Unit(now, t, pass.req.actor);
      if OpenApproval(cfg, db, u, pass, existing).Ok? {
        OpenBudget(cfg, db, u, pass, existing);
        SameKeepsBalance(db, OpenApproval(cfg, db, u, pass, existing).value, start);
      }
    case AwaitingDecision(req) =>
      var u := Unit(now, t, req.actor);
      if PollApproval(db, u, req).Ok? {
        PollBudget(db, u, req);
        SameKeepsBalance(db, PollApproval(db, u, req).value, start);
      }
    case ClaimingApproval(pass) =>
      var u := Unit(now, t, pass.req.actor);
      if ClaimAndAllow(db, u, pass).Ok? { ClaimAndAllowBalance(db, u, pass, start); }
    case PreparingCall(pass) =>
      var u := Unit(now, t, pass.req.actor);
      if PrepareAndAllow(db, u, pass).Ok? { PrepareAndAllowBalance(db, u, pass, start); }
    case ResumingClaim(pass) =>
      var u := Unit(now, t, pass.req.actor);
      if ResumeOrClaim(db, u, pass).Ok? { ResumeOrClaimBalance(db, u, pass, start); }
    case Persisting(pass, result) =>
      var u := Unit(now, t, pass.req.actor);
      if PersistResult(db, u, pass, result).Ok? {
        PersistBudget(db, u, pass, result);
        SameKeepsBalance(db, PersistResult(db, u, pass, result).value, start);
      }
    case _ => PlainTurnBalance(cfg, gate, db, now, t, outcome, start);
  }

  lemma PlainTurnBalance(cfg: Config, gate: Gate, db: Db, now: Time, t: Token, outcome: Outcome, start: Usage)
    requires !(gate.OpeningApproval? || gate.AwaitingDecision? || gate.ClaimingApproval? || gate.PreparingCall?
               || gate.ResumingClaim? || gate.Persisting?)
    ensures KeepsBalance(db, TakeTurn(cfg, gate, db, now, t, outcome).db, start)
  {
    hide Quiet, Evolves, DecideInvoke, DecideLoad, DecideReentry, DecideInternal, KeepsBalance, OpenApproval,
         PollApproval, ClaimAndAllow, PrepareAndAllow, ResumeOrClaim, PersistResult, RecordRecoveryAllow, MarkStarted,
         LogDenial;
    match gate {
      case RecordingReentry(pass) => AllowBooks(db, Unit(now, t, pass.req.actor), pass);
      case Starting(pass) => StartBooks(db, Unit(now, t, pass.req.actor), pass.req.call);
      case Denying(req, code) => DenialBooks(db, Unit(now, t, req.actor), req, code);
      case _ =>
    }
    SameKeepsBalance(db, TakeTurn(cfg, gate, db, now, t, outcome).db, start);
  }

  lemma AllowBooks(db: Db, u: Unit, pass: Pass)
    ensures RecordRecoveryAllow(db, u, pass).Ok? ==> SameBooks(db, RecordRecoveryAllow(db, u, pass).value)
  {
    hide Quiet, Evolves;
  }

  lemma StartBooks(db: Db, u: Unit, c: CallId)
    ensures MarkStarted(db, u, c).Ok? ==> SameBooks(db, MarkStarted(db, u, c).value)
  {
    hide Quiet, Evolves;
  }

  lemma DenialBooks(db: Db, u: Unit, req: Request, code: ErrorCode)
    ensures SameBooks(db, LogDenial(db, u, req, code))
  {
    hide Quiet, Evolves;
  }

  // ---------- recovery and the other store operations ----------

  lemma BlockBudget(db: Db, u: Unit, stop: StopReason)
    requires BlockRecovery(db, u, stop).Ok?
    ensures SameBooks(db, BlockRecovery(db, u, stop).value)
  {
    hide Quiet, Evolves, WithdrawEach, TransitionRun;
    WithdrawEachBudget(db, u, Withdrawable(db));
    var withdrawn := WithdrawEach(db, u, Withdrawable(db)).value;
    RunBudget(withdrawn, u, withdrawn.run.status, withdrawn.run.revision, Blocked, Some(stop), Some(NotEvaluated));
  }

  lemma PlanBudget(db: Db, u: Unit, key: RecoveryKey)
    ensures SameBooks(db, RecordPlan(db, u, key).db)
  {
    hide Quiet, Evolves;
  }

  lemma CheckpointBudget(cfg: Config, db: Db, u: Unit, b: Boundary, world: World)
    requires CreateCheckpoint(cfg, db, u, b, world).Ok?
    ensures SameMoney(db, CreateCheckpoint(cfg, db, u, b, world).value.db)
  {
    hide Quiet, Evolves, TakeSnapshot, FindBoundary, BoundaryAllowed, MaxSequence;
  }

  lemma BlockAndRecordBudget(db: Db, u: Unit, action: RecoveryAction, stop: StopReason, reason: Option<ErrorCode>,
                             call: Option<CallId>, approval: Option<nat>)
    requires BlockAndRecord(db, u, action, stop, reason, call, approval).Ok?
    ensures SameBooks(db, BlockAndRecord(db, u, action, stop, reason, call, approval).value.db)
  {
    hide Quiet, Evolves, BlockRecovery, RecordPlan, KeyFor;
    BlockBudget(db, u, stop);
    var blocked := BlockRecovery(db, u, stop).value;
    PlanBudget(blocked, u, KeyFor(blocked, blocked.run.lastCheckpoint, action, NeedsReview, reason, call, approval));
  }

  /** A checkpoint is written on a database that has the same checkpoints as `a`, and `b` comes of it. */
  ghost predicate AddsCheckpoint(cfg: Config, a: Db, b: Db, u: Unit, world: World, filed: bool) {
    exists mid, boundary ::
      && (filed ==> RefersToCall(boundary))
      && SameCheckpoints(a, mid) && Evolves(a, mid)
      && CreateCheckpoint(cfg, mid, u, boundary, world).Ok?
      && SameCheckpoints(CreateCheckpoint(cfg, mid, u, boundary, world).value.db, b)
      && Evolves(CreateCheckpoint(cfg, mid, u, boundary, world).value.db, b)
  }

  lemma AddsCheckpointLater(cfg: Config, a: Db, mid: Db, b: Db, u: Unit, world: World)
    requires SameCheckpoints(a, mid) && Evolves(a, mid) && AddsCheckpoint(cfg, mid, b, u, world, true)
    ensures AddsCheckpoint(cfg, a, b, u, world, true)
  {
    hide Evolves, CreateCheckpoint;
    var mid', boundary :|
      && RefersToCall(boundary)
      && SameCheckpoints(mid, mid') && Evolves(mid, mid')
      && CreateCheckpoint(cfg, mid', u, boundary, world).Ok?
      && SameCheckpoints(CreateCheckpoint(cfg, mid', u, boundary, world).value.db, b)
      && Evolves(CreateCheckpoint(cfg, mid', u, boundary, world).value.db, b);
    EvolvesTransitive(a, mid, mid');
    assert SameCheckpoints(a, mid');
  }

  lemma RebuildAdds(cfg: Config, db: Db, u: Unit, world: World, c: CallId)
    requires RebuildAndRecord(cfg, db, u, world, c).Ok?
    ensures SameMoney(db, RebuildAndRecord(cfg, db, u, world, c).value.db)
    ensures AddsCheckpoint(cfg, db, RebuildAndRecord(cfg, db, u, world, c).value.db, u, world, true)
  {
    hide Quiet, Evolves, CreateCheckpoint, RecordPlan, KeyFor;
    var boundary := RebuildBoundary(db, c);
    CheckpointBudget(cfg, db, u, boundary, world);
    var written := CreateCheckpoint(cfg, db, u, boundary, world).value;
    var key := KeyFor(written.db, Some(written.checkpoint.id), RebuildCheckpointThenContinue, Resumable, None, Some(c),
        db.calls[c].approval);
    PlanBudget(written.db, u, key);
    QuietReflexive(db);
    QuietIsEvolves(db);
    QuietIsEvolves(written.db);
  }

  lemma CarryOutBudget(cfg: Config, db: Db, u: Unit, world: World, v: Verdict)
    requires CarryOut(cfg, db, u, world, v).Ok?
    ensures var b := CarryOut(cfg, db, u, world, v).value.db;
            SameMoney(db, b) && if v.Rebuild? then AddsCheckpoint(cfg, db, b, u, world, true)
                else SameCheckpoints(db, b)
  {
    hide Quiet, Evolves, BlockAndRecord, RecordPlan, KeyFor, TransitionInvocation, RebuildAndRecord;
    match v
    case Record(action, status, reason, call, approval) =>
      PlanBudget(db, u, KeyFor(db, db.run.lastCheckpoint, action, status, reason, call, approval));
    case Block(action, stop, reason, call, approval) => BlockAndRecordBudget(db, u, action, stop, reason, call,
        approval);
    case MarkUnknown(c) =>
      var i := db.calls[c];
      CallBudget(db, u, c, i, InvocationStatus.Started, i.revision, InvocationStatus.UnknownResult,
          Some(ResultUnknown));
      var marked := TransitionInvocation(db, u, c, InvocationStatus.Started, i.revision,
                                         InvocationStatus.UnknownResult, Some(ResultUnknown)).value;
      BlockAndRecordBudget(marked, u, MarkUnknownResult, StopReason.UnknownResult, Some(RecoveryManualReviewRequired),
          Some(c), None);
    case Rebuild(c) => RebuildAdds(cfg, db, u, world, c);
  }

  lemma RefreshBudget(db: Db, u: Unit, world: World)
    requires Refresh(db, u, world).Ok?
    ensures SameBooks(db, Refresh(db, u, world).value)
  {
    hide Quiet, Evolves, ExpireEach, InvalidateEach;
    ExpireEachBudget(db, u, DueCalls(db, u.now));
  }

  lemma RecoveryBudget(cfg: Config, db: Db, u: Unit, world: World)
    requires Prepare(cfg, db, u, world).Ok?
    ensures var b := Prepare(cfg, db, u, world).value.db;
            SameMoney(db, b) && (SameCheckpoints(db, b) || AddsCheckpoint(cfg, db, b, u, world, true))
  {
    hide Quiet, Evolves, CarryOut, Triage, Judge, Refresh, AddsCheckpoint;
    var early := Triage(cfg, db, world);
    if early.Some? {
      CarryOutBudget(cfg, db, u, world, early.value);
    } else {
      RefreshBudget(db, u, world);
      QuietIsEvolves(db);
      var current := Refresh(db, u, world).value;
      var verdict := JudgeRefreshed(current, world);
      CarryOutBudget(cfg, current, u, world, verdict);
      if verdict.Rebuild? {
        AddsCheckpointLater(cfg, db, current, CarryOut(cfg, current, u, world, verdict).value.db, u, world);
      }
    }
  }

  lemma PlainStoreBudget(cfg: Config, s: System, step: Step)
    requires step.Acquire? || step.Renew? || step.Release? || step.PlanStep? || step.WriteNote?
          || step.RecordFact? || step.DropFact?
    requires StoreStep(cfg, s, step).Ok?
    ensures SameBooks(s.db, StoreStep(cfg, s, step).value)
  {
    hide Quiet, Evolves;
  }

  lemma StoreBudget(cfg: Config, s: System, step: Step)
    requires !step.Charge? && !step.WriteCheckpoint? && !step.Recover? && StoreStep(cfg, s, step).Ok?
    ensures SameBooks(s.db, StoreStep(cfg, s, step).value)
  {
    hide Quiet, Evolves, AcquireLease, RenewLease, ReleaseLease, TransitionRun, CreateStep, Note, AddEvidence,
         InvalidateEvidence, Decide, Load, ExpireEach, Invalidate;
    match step
    case DecideApproval(t, actor, c, revision, roles, grant) => DecideBudget(s.db, Unit(s.now, t, actor), c, revision,
        actor, roles, grant);
    case LoadApproval(t, c) => LoadBudget(s.db, Unit(s.now, t, HARNESS), c);
    case ExpireApprovals(t) => ExpireEachBudget(s.db, Unit(s.now, t, HARNESS), DueCalls(s.db, s.now));
    case WithdrawApproval(t, c, revision) => InvalidateBudget(s.db, Unit(s.now, t, HARNESS), c, revision);
    case MoveRun(t, target, stop, acceptance) =>
      RunBudget(s.db, Unit(s.now, t, HARNESS), s.db.run.status, s.db.run.revision, target, stop, acceptance);
    case Acquire(_, _) => PlainStoreBudget(cfg, s, step);
    case Renew(_, _) => PlainStoreBudget(cfg, s, step);
    case Release(_) => PlainStoreBudget(cfg, s, step);
    case PlanStep(_, _) => PlainStoreBudget(cfg, s, step);
    case WriteNote(_) => PlainStoreBudget(cfg, s, step);
    case RecordFact(_, _) => PlainStoreBudget(cfg, s, step);
    case DropFact(_, _) => PlainStoreBudget(cfg, s, step);
    case _ =>
  }

  /** A checkpoint the harness asks for refers to its call; recovery's own always do. */
  predicate FilesWell(step: Step) {
    step.WriteCheckpoint? ==> RefersToCall(step.boundary)
  }

  lemma ServiceBudget(cfg: Config, s: System, step: Step)
    requires (step.WriteCheckpoint? || step.Recover?) && StoreStep(cfg, s, step).Ok?
    ensures var b := StoreStep(cfg, s, step).value;
            SameMoney(s.db, b) && (SameCheckpoints(s.db, b)
                || AddsCheckpoint(cfg, s.db, b, Unit(s.now, step.token, HARNESS), s.world, FilesWell(step)))
  {
    hide Quiet, Evolves, CreateCheckpoint, Prepare;
    var u := Unit(s.now, step.token, HARNESS);
    if step.Recover? {
      hide AddsCheckpoint;
      RecoveryBudget(cfg, s.db, u, s.world);
    } else {
      CheckpointBudget(cfg, s.db, u, step.boundary, s.world);
      QuietReflexive(s.db);
      QuietIsEvolves(s.db);
      var written := CreateCheckpoint(cfg, s.db, u, step.boundary, s.world).value.db;
      QuietReflexive(written);
      QuietIsEvolves(written);
    }
  }

  lemma StoreBalance(cfg: Config, s: System, step: Step, start: Usage)
    requires StoreStep(cfg, s, step).Ok? && Balanced(s.db, start)
    ensures Balanced(StoreStep(cfg, s, step).value, start)
  {
    hide Quiet, Evolves, Balanced, AddsCheckpoint;
    if step.Charge? {
      hide RecordBudgetDelta;
      ChargeKeepsBalance(s.db, Unit(s.now, step.token, HARNESS), step.key, step.delta, s.db.run.revision, start);
    } else {
      hide StoreStep;
      if step.WriteCheckpoint? || step.Recover? {
        ServiceBudget(cfg, s, step);
      } else {
        StoreBudget(cfg, s, step);
      }
      MoneyKeepsBalance(s.db, StoreStep(cfg, s, step).value, start);
    }
  }

  lemma BalancedNext(cfg: Config, s: System, step: Step, start: Usage)
    requires Balanced(s.db, start)
    ensures Balanced(Next(cfg, s, step).db, start)
  {
    hide Balanced, StoreStep, TakeTurn, Quiet, Evolves;
    if step.Advance? {
      TurnBalance(cfg, GateOf(s, step.token), s.db, s.now, step.token, step.outcome, start);
    } else if StoreStep(cfg, s, step).Ok? {
      StoreBalance(cfg, s, step, start);
    }
  }

  lemma {:induction false} BalancedExec(cfg: Config, s: System, steps: seq<Step>, start: Usage)
    requires Balanced(s.db, start)
    ensures Balanced(Exec(cfg, s, steps).db, start)
    decreases |steps|
  {
    hide Balanced, Next;
    if steps != [] {
      BalancedNext(cfg, s, steps[0], start);
      BalancedExec(cfg, Next(cfg, s, steps[0]), steps[1..], start);
    }
  }

  /** In every run each counter is its initial value plus the sum of its ledger entries, and within its limit. */
  lemma BudgetIsConserved(cfg: Config, s: System, steps: seq<Step>, k: Category)
    requires Initial(cfg, s)
    ensures var db := Exec(cfg, s, steps).db;
            && db.run.used.Get(k) == s.db.run.used.Get(k) + LedgerSum(db.ledger, k)
            && db.run.used.Get(k) <= db.run.limits.Get(k) == s.db.run.limits.Get(k)
  {
    hide Exec, Quiet;
    assert LedgerSum(map[], k) == 0;
    assert Balanced(s.db, s.db.run.used) by { assert forall c :: LedgerSum(map[], c) == 0; }
    BalancedExec(cfg, s, steps, s.db.run.used);
    ExecEvolves(cfg, s, steps);
  }

  // ---------- who is charged ----------

  predicate Charged(db: Db, c: CallId) {
    ToolCallKey(c) in db.ledger && db.ledger[ToolCallKey(c)] == 1
  }

  /** A model's call is charged from the moment nothing but its start is missing. */
  ghost predicate CallCharged(cfg: Config, db: Db, c: CallId)
    requires c in db.calls
  {
    && db.calls[c].tool in cfg.registry
    && (c !in db.approvals || Claimable(db.approvals[c].status) || HasStarted(db.calls, c))
    ==> Charged(db, c)
  }

  ghost predicate CallsCharged(cfg: Config, db: Db) {
    forall c :: c in db.calls ==> CallCharged(cfg, db, c)
  }

  predicate LaneCharged(db: Db, g: Gate) {
    Underway(g) && !g.pass.internal ==> Charged(db, g.pass.req.call)
  }

  ghost predicate Paid(cfg: Config, s: System) {
    CallsCharged(cfg, s.db) && forall t: Token :: LaneCharged(s.db, GateOf(s, t))
  }

  lemma ChargedStays(a: Db, b: Db, c: CallId)
    requires Evolves(a, b) && Charged(a, c)
    ensures Charged(b, c)
  {
  }

  /** The claimed status is only entered by a claim, which charges. */
  lemma ClaimableKind(cfg: Config, a: Db, b: Db, now: Time, k: Kind, c: CallId)
    requires Shows(cfg, a, b, now, k) && c in b.approvals && Claimable(b.approvals[c].status)
    ensures || (c in a.approvals && Claimable(a.approvals[c].status))
            || (k.Claiming? && k.call == c && Charged(b, c))
  {
    hide Evolves, Recovers, HarnessMove, BindingOf;
    if k.Recovering? {
      RecoversClaimable(a, b, now, c);
    }
  }

  lemma RecoversClaimable(a: Db, b: Db, now: Time, c: CallId)
    requires Recovers(a, b, now) && c in b.approvals && Claimable(b.approvals[c].status)
    ensures c in a.approvals && Claimable(a.approvals[c].status)
  {
    hide Settles;
    var mid :| Expiry(a, mid, now) && Settles(mid, b);
    SettlesMoves(mid, b);
  }

  lemma ApprovalKept(cfg: Config, a: Db, b: Db, c: CallId)
    requires Evolves(a, b) && c in a.calls && c !in b.approvals
    ensures c !in a.approvals
  {
  }

  lemma CallStaysCharged(cfg: Config, a: Db, b: Db, now: Time, k: Kind, c: CallId)
    requires ValidConfig(cfg) && Evolves(a, b) && Shows(cfg, a, b, now, k) && CallsCharged(cfg, a) && c in b.calls
    requires k.Creation? && k.pass.internal ==> k.pass.req.tool in cfg.internal
    requires k.Starting? && k.call == c && b.calls[c].tool in cfg.registry ==> Charged(a, c)
    ensures CallCharged(cfg, b, c)
  {
    hide Evolves, Shows, RowMoves, Charged, HasStarted;
    KindCalls(cfg, a, b, now, k, c);
    if c in b.approvals && Claimable(b.approvals[c].status) {
      ClaimableKind(cfg, a, b, now, k, c);
    }
    if c in a.calls {
      SameTool(a, b, c);
      assert CallCharged(cfg, a, c);
      if Charged(a, c) { ChargedStays(a, b, c); }
      if c !in b.approvals { ApprovalKept(cfg, a, b, c); }
    } else {
      FreshNotStarted(b.calls, c);
      if k.Creation? {
        CreationCharges(cfg, a, b, now, k);
      } else {
        FreshPending(cfg, a, b, now, k);
      }
    }
  }

  lemma CreationCharges(cfg: Config, a: Db, b: Db, now: Time, k: Kind)
    requires Shows(cfg, a, b, now, k) && k.Creation?
    ensures k.pass.internal || Charged(b, k.pass.req.call)
  {
  }

  lemma FreshPending(cfg: Config, a: Db, b: Db, now: Time, k: Kind)
    requires Shows(cfg, a, b, now, k) && k.Opening?
    ensures k.pass.req.call in b.approvals && b.approvals[k.pass.req.call].status.Pending?
  {
    hide Evolves, BindingOf;
  }

  lemma SuppressedPass(cfg: Config, s: System, t: Token)
    requires Suppressed(cfg, s) && Checked(GateOf(s, t))
    ensures PassFits(cfg, GateOf(s, t).pass)
  {
    assert CheckStands(cfg, s.db, t, GateOf(s, t));
  }

  /** Entering the last lane before a start, a model's call has been charged. */
  lemma TurnCharges(cfg: Config, s: System, t: Token, outcome: Outcome)
    requires Governed(cfg, s) && Suppressed(cfg, s) && Paid(cfg, s)
    ensures var turn := TakeTurn(cfg, GateOf(s, t), s.db, s.now, t, outcome);
            LaneCharged(turn.db, turn.gate)
  {
    hide Quiet, Evolves, OpenApproval, PollApproval, ClaimAndAllow, PrepareAndAllow, RecordRecoveryAllow,
         ResumeOrClaim, PersistResult, LogDenial, MarkStarted, DecideInvoke, DecideLoad, DecideReentry,
         DecideInternal, CallsCharged, Governed, Suppressed, Charged;
    var g := GateOf(s, t);
    var turn := TakeTurn(cfg, g, s.db, s.now, t, outcome);
    assert LaneCharged(s.db, g);
    TurnEvolves(cfg, g, s.db, s.now, t, outcome);
    if Underway(g) && !g.pass.internal {
      ChargedStays(s.db, turn.db, g.pass.req.call);
    }
    match g
    case Snapshotting(req) => DecisionsNotUnderway(cfg, s.db, Unit(s.now, t, req.actor), req, {}, false);
    case Loading(req) => DecisionsNotUnderway(cfg, s.db, Unit(s.now, t, req.actor), req, {}, false);
    case SnapshottingReentry(req) => DecisionsNotUnderway(cfg, s.db, Unit(s.now, t, req.actor), req, {}, false);
    case SnapshottingInternal(req, allowed, readOnly) =>
      DecisionsNotUnderway(cfg, s.db, Unit(s.now, t, req.actor), req, allowed, readOnly);
    case ClaimingApproval(pass) =>
      var u := Unit(s.now, t, pass.req.actor);
      if ClaimAndAllow(s.db, u, pass).Ok? {
        ClaimAndAllowEffect(s.db, u, pass);
        ClaimsCharge(s.db, turn.db, u, pass.req.call);
      }
    case PreparingCall(pass) =>
      var u := Unit(s.now, t, pass.req.actor);
      if PrepareAndAllow(s.db, u, pass).Ok? {
        PrepareEffect(s.db, u, pass);
        CreatesCharge(s.db, turn.db, s.now, pass);
      }
    case RecordingReentry(pass) => RecordingIsCharged(cfg, s, t, turn.db);
    case ResumingClaim(pass) =>
      var u := Unit(s.now, t, pass.req.actor);
      if ResumeOrClaim(s.db, u, pass).Ok? {
        ResumeOrClaimEffect(s.db, u, pass);
        if Claims(s.db, turn.db, u, pass.req.call) {
          ClaimsCharge(s.db, turn.db, u, pass.req.call);
        } else {
          ResumingIsCharged(cfg, s, t, turn.db);
        }
      }
    case _ =>
  }

  lemma DecisionsNotUnderway(cfg: Config, db: Db, u: Unit, req: Request, allowed: set<RunStatus>, readOnly: bool)
    ensures !Underway(DecideInvoke(cfg, db, u, req))
    ensures !Underway(DecideLoad(db, u, req))
    ensures !Underway(DecideReentry(cfg, db, u, req))
    ensures !Underway(DecideInternal(cfg, db, u, req, allowed, readOnly))
  {
    hide RequestFault, RepeatFault, WriteReplay, BudgetSpent, RecoveryBudgetSpent, DuplicateCode, ApprovalCode,
         Equivalent;
  }

  lemma ClaimsCharge(a: Db, b: Db, u: Unit, c: CallId)
    requires Claims(a, b, u, c)
    ensures Charged(b, c)
  {
  }

  lemma CreatesCharge(a: Db, b: Db, now: Time, pass: Pass)
    requires Creates(a, b, now, pass)
    ensures pass.internal || Charged(b, pass.req.call)
  {
  }

  /** A PREPARED call without an approval was charged when it was prepared: re-entry does not charge it again. */
  lemma RecordingIsCharged(cfg: Config, s: System, t: Token, b: Db)
    requires Governed(cfg, s) && Suppressed(cfg, s) && CallsCharged(cfg, s.db) && Evolves(s.db, b)
    requires GateOf(s, t).RecordingReentry?
    ensures GateOf(s, t).pass.internal || Charged(b, GateOf(s, t).pass.req.call)
  {
    hide Suppressed, Charged, Evolves;
    var g := GateOf(s, t);
    SuppressedPass(cfg, s, t);
    assert LaneOk(cfg, s.db, g);
    RowsHaveCalls(cfg, s.db, s.now);
    if !g.pass.internal {
      assert CallCharged(cfg, s.db, g.pass.req.call);
      ChargedStays(s.db, b, g.pass.req.call);
    }
  }

  /** A claim was charged when it was taken. */
  lemma ResumingIsCharged(cfg: Config, s: System, t: Token, b: Db)
    requires Governed(cfg, s) && Suppressed(cfg, s) && CallsCharged(cfg, s.db) && Evolves(s.db, b)
    requires GateOf(s, t).ResumingClaim?
    requires var c := GateOf(s, t).pass.req.call; c in s.db.approvals && s.db.approvals[c].status.Claimed?
    ensures GateOf(s, t).pass.internal || Charged(b, GateOf(s, t).pass.req.call)
  {
    hide Suppressed, Charged, Evolves;
    var g := GateOf(s, t);
    SuppressedPass(cfg, s, t);
    assert LaneOk(cfg, s.db, g);
    if !g.pass.internal {
      assert CallCharged(cfg, s.db, g.pass.req.call);
      ChargedStays(s.db, b, g.pass.req.call);
    }
  }

  lemma StartIsCharged(cfg: Config, s: System, s': System, step: Step, k: Kind)
    requires Governed(cfg, s) && Suppressed(cfg, s) && Paid(cfg, s)
    requires ValidConfig(cfg) && Evolves(s.db, s'.db)
    requires k.Starting? && step.Advance? && ComesFrom(k, GateOf(s, step.token)) && k.call in s'.db.calls
    ensures s'.db.calls[k.call].tool in cfg.registry ==> Charged(s.db, k.call)
  {
    hide Governed, Suppressed, Charged, Evolves, CallsCharged;
    var g := GateOf(s, step.token);
    GovernedMeans(cfg, s);
    assert LaneOk(cfg, s.db, g) && LaneCharged(s.db, g);
    SuppressedPass(cfg, s, step.token);
    SameTool(s.db, s'.db, k.call);
  }

  lemma PaidNext(cfg: Config, s: System, step: Step)
    requires Governed(cfg, s) && Suppressed(cfg, s) && Paid(cfg, s)
    ensures Paid(cfg, Next(cfg, s, step))
  {
    hide Governed, Suppressed, Evolves, Charged, StoreStep, TakeTurn, Shows, ComesFrom, CallCharged, ValidConfig;
    GovernedMeans(cfg, s);
    NextEvolves(cfg, s, step);
    var s' := Next(cfg, s, step);
    var k := StepKind(cfg, s, step);
    StepSources(cfg, s, step, k);
    forall c | c in s'.db.calls ensures CallCharged(cfg, s'.db, c) {
      if k.Starting? && k.call == c {
        StartIsCharged(cfg, s, s', step, k);
      }
      CallStaysCharged(cfg, s.db, s'.db, s.now, k, c);
    }
    forall t: Token ensures LaneCharged(s'.db, GateOf(s', t)) {
      assert LaneCharged(s.db, GateOf(s, t));
      if step.Advance? && step.token == t {
        TurnCharges(cfg, s, t, step.outcome);
      } else if GateOf(s', t) == GateOf(s, t) && Underway(GateOf(s, t)) && !GateOf(s, t).pass.internal {
        ChargedStays(s.db, s'.db, GateOf(s, t).pass.req.call);
      }
    }
  }

  lemma StepSources(cfg: Config, s: System, step: Step, k: Kind)
    requires Suppressed(cfg, s)
    requires step.Advance? ==> ComesFrom(k, GateOf(s, step.token))
    requires !step.Advance? ==> ComesFromStore(k, step)
    ensures k.Creation? && k.pass.internal ==> k.pass.req.tool in cfg.internal
    ensures k.Starting? ==> step.Advance?
  {
    hide Suppressed;
    if k.Creation? {
      SuppressedPass(cfg, s, step.token);
    }
  }

  lemma {:induction false} PaidExec(cfg: Config, s: System, steps: seq<Step>)
    requires Governed(cfg, s) && Suppressed(cfg, s) && Paid(cfg, s)
    ensures Paid(cfg, Exec(cfg, s, steps))
    decreases |steps|
  {
    hide Governed, Suppressed, Paid, Next;
    if steps != [] {
      GovernedMeans(cfg, s);
      GovernedNext(cfg, s, steps[0]);
      SuppressedNext(cfg, s, steps[0]);
      PaidNext(cfg, s, steps[0]);
      PaidExec(cfg, Next(cfg, s, steps[0]), steps[1..]);
    }
  }

  function ModelRuns(cfg: Config, s: System): set<CallId> {
    set c | c in s.executed && c in s.db.calls && s.db.calls[c].tool in cfg.registry
  }

  /**
    In every run each model call past PREPARED owns exactly one unit entry, and the handlers run
    for model calls never number more than the tool calls the budget had left at the start.
   */
  lemma HandlerRunsWithinBudget(cfg: Config, s: System, steps: seq<Step>)
    requires Initial(cfg, s)
    ensures var e := Exec(cfg, s, steps);
            && (forall c :: HasStarted(e.db.calls, c) && e.db.calls[c].tool in cfg.registry ==> Charged(e.db, c))
            && NoDuplicates(e.executed)
            && s.db.run.used.toolCalls + |ModelRuns(cfg, e)| <= s.db.run.limits.toolCalls
  {
    hide Exec, Governed, Suppressed, NoDuplicates;
    var e := Exec(cfg, s, steps);
    InitialGoverned(cfg, s);
    InitialSuppressed(cfg, s);
    PaidExec(cfg, s, steps);
    AtMostOnce(cfg, s, steps);
    BudgetIsConserved(cfg, s, steps, ToolCalls);
    forall c | HasStarted(e.db.calls, c) && e.db.calls[c].tool in cfg.registry ensures Charged(e.db, c) {
      assert CallCharged(cfg, e.db, c);
    }
    SumCountsCalls(e.db.ledger, ModelRuns(cfg, e));
  }
}
