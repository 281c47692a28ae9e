/**
  What each transaction does to approvals, calls and the run status, once it succeeds.

  These are the facts that the invariants about approvals are proved from: the invariants never
  look inside the operations.
 */
module ApprovalEffects {
  import opened Domain
  import opened Wrappers
  import opened StateStore
  import opened ApprovalStore
  import opened Gate
  import opened Recovery
  import opened Protocol

  /** Approvals, calls and run status are untouched. */
  predicate Passive(a: Db, b: Db) {
    b.approvals == a.approvals && b.calls == a.calls && b.run.status == a.run.status
  }

  function Bumped(a: Approval): Approval {
    a.(revision := a.revision + 1)
  }

  function ExpiredRow(a: Approval): Approval {
    Bumped(a.(status := ApprovalStatus.Expired))
  }

  function WithdrawnRow(a: Approval): Approval {
    Bumped(a.(status := Invalidated, claimedAt := None, intent := None, consumedAt := None, consumptionCode := None))
  }

  function ClaimedRow(a: Approval, now: Time, c: CallId): Approval {
    Bumped(a.(status := ApprovalStatus.Claimed, claimedAt := Some(now), intent := Some(c)))
  }

  function DecidedRow(a: Approval, now: Time, approver: Actor, grant: bool): Approval {
    Bumped(a.(status := if grant then ApprovalStatus.Approved else ApprovalStatus.Rejected,
              decidedAt := Some(now), decidedBy := Some(approver)))
  }

  function ConsumedRow(a: Approval, now: Time, code: Option<ErrorCode>): Approval {
    Bumped(a.(status := ApprovalStatus.Consumed, consumedAt := Some(now), consumptionCode := code))
  }

  /** Some due rows expired; if one did while the run waited, the run stopped. */
  ghost predicate Expiry(a: Db, b: Db, now: Time) {
    && b.calls == a.calls
    && b.approvals.Keys == a.approvals.Keys
    && (forall c :: c in a.approvals ==>
          b.approvals[c] == a.approvals[c] || (Due(a.approvals[c], now)
              && b.approvals[c] == ExpiredRow(a.approvals[c])))
    && (b.run.status == a.run.status || (a.run.status.WaitingApproval? && b.run.status.Stopped?))
    && (b.approvals != a.approvals && a.run.status.WaitingApproval? ==> b.run.status.Stopped?)
    && (b.approvals == a.approvals ==> b.run.status == a.run.status)
  }

  lemma ExpireEffect(db: Db, u: Unit, c: CallId)
    requires c in db.approvals && Active(db.approvals[c].status) && Expire(db, u, c).Ok?
    ensures var b := Expire(db, u, c).value;
            && b.approvals == db.approvals[c := ExpiredRow(db.approvals[c])]
            && b.calls == db.calls
            && b.run.status == (if db.run.status.WaitingApproval? then Stopped else db.run.status)
  {
    hide Quiet, Evolves;
  }

  lemma LoadEffect(db: Db, u: Unit, c: CallId)
    requires Load(db, u, c).Ok?
    ensures Expiry(db, Load(db, u, c).value, u.now)
  {
    hide Quiet, Evolves, Expire;
    if Due(db.approvals[c], u.now) {
      ExpireEffect(db, u, c);
      assert ExpiredRow(db.approvals[c]) != db.approvals[c];
    }
  }

  lemma {:induction false} ExpireEachEffect(db: Db, u: Unit, ids: set<CallId>)
    requires forall c :: c in ids ==> c in db.approvals && Due(db.approvals[c], u.now)
    requires ExpireEach(db, u, ids).Ok?
    ensures Expiry(db, ExpireEach(db, u, ids).value, u.now)
    decreases |ids|
  {
    hide Quiet, Evolves, Expire;
    if ids != {} {
      var c := Earliest(ids, RequestTimes(db.approvals));
      var next := Expire(db, u, c).value;
      ExpireEffect(db, u, c);
      ExpireEachEffect(next, u, ids - {c});
      ExpiryThen(db, next, ExpireEach(next, u, ids - {c}).value, u.now, c);
    }
  }

  lemma ExpiryThen(a: Db, next: Db, b: Db, now: Time, c: CallId)
    requires c in a.approvals && Due(a.approvals[c], now)
    requires next.approvals == a.approvals[c := ExpiredRow(a.approvals[c])] && next.calls == a.calls
    requires next.run.status == (if a.run.status.WaitingApproval? then Stopped else a.run.status)
    requires Expiry(next, b, now)
    ensures Expiry(a, b, now)
  {
    assert !Due(next.approvals[c], now);
    assert b.approvals[c] == ExpiredRow(a.approvals[c]) != a.approvals[c];
  }

  lemma ExpireDueEffect(db: Db, u: Unit)
    requires ExpireDue(db, u).Ok?
    ensures Expiry(db, ExpireDue(db, u).value, u.now)
  {
    hide Quiet, Evolves, ExpireEach;
    ExpireEachEffect(db, u, DueCalls(db, u.now));
  }

  lemma CreateEffect(db: Db, u: Unit, ask: Ask)
    requires ApprovalStore.Create(db, u, ask).Ok? && ask.call !in db.approvals
    ensures var c, b := ask.call, ApprovalStore.Create(db, u, ask).value;
            && c in db.calls && db.calls[c].status.Prepared? && db.run.status.Running?
            && db.calls[c].digest == ask.digest && db.calls[c].approval.None?
            && c in b.approvals && b.approvals == db.approvals[c := b.approvals[c]]
            && b.calls == db.calls[c := db.calls[c].(approval := Some(db.nextId), revision := db.calls[c].revision + 1,
                updatedAt := u.now)]
            && b.run == db.run && b.nextId == db.nextId + 1 && b.steps == db.steps
            && var a, i := b.approvals[c], db.calls[c];
               && a.status.Pending? && a.id == db.nextId && a.tool == i.tool && a.digest == i.digest
               && a.requestedBy == ask.requestedBy && a.roles == ask.roles
               && a.requestedAt == u.now && a.expiresAt == u.now + ask.ttl
               && a.binding == BindingOf(db.run, c, i.tool, i.digest, a.requestedBy, a.roles, a.requestedAt,
                   a.expiresAt)
               && a.decidedAt.None? && a.decidedBy.None? && a.claimedAt.None? && a.intent.None?
               && a.consumedAt.None? && a.consumptionCode.None?
  {
    hide Quiet, Evolves;
  }

  /** The entry that stands at the end of `b`'s log but not in `a`'s. */
  predicate Appended(a: Db, b: Db, entry: Entry) {
    a.audit <= b.audit && |a.audit| < |b.audit| && b.audit[|a.audit|].entry == entry
  }

  lemma ClaimEffect(db: Db, u: Unit, c: CallId, revision: nat, intent: CallId)
    requires Claim(db, u, c, revision, intent).Ok?
    ensures var b := Claim(db, u, c, revision, intent).value;
            && c in db.approvals && db.approvals[c].status.Approved? && u.now < db.approvals[c].expiresAt
            && intent == c && BindingHolds(db, c) && db.run.status.WaitingApproval?
            && b.approvals == db.approvals[c := ClaimedRow(db.approvals[c], u.now, c)]
            && b.calls == db.calls && b.run == db.run && b.ledger == db.ledger && b.lease == db.lease
            && Appended(db, b, Entry(u.actor, u.now, ApprovalClaimed(db.approvals[c].id, c)))
  {
    hide Quiet, Evolves, Expire;
    if Due(db.approvals[c], u.now) {
      ExpireEffect(db, u, c);
    }
  }

  /** A decision by someone other than the requester, holding an allowed role, before the row expires. */
  predicate Decides(a: Db, b: Db, u: Unit, c: CallId, roles: set<Role>, grant: bool) {
    && c in a.approvals && a.approvals[c].status.Pending? && u.now < a.approvals[c].expiresAt
    && a.run.status.WaitingApproval?
    && u.actor != a.approvals[c].requestedBy && !(a.approvals[c].roles !! roles)
    && b.approvals == a.approvals[c := DecidedRow(a.approvals[c], u.now, u.actor, grant)]
    && b.calls == a.calls
    && b.run.status == (if grant then WaitingApproval else Stopped)
    && Appended(a, b, Entry(u.actor, u.now, ApprovalDecided(a.approvals[c].id, u.actor, roles, grant)))
  }

  lemma DecideEffect(db: Db, u: Unit, c: CallId, revision: nat, approver: Actor, roles: set<Role>, grant: bool)
    requires Decide(db, u, c, revision, approver, roles, grant).Ok?
    ensures approver == u.actor && Decides(db, Decide(db, u, c, revision, approver, roles, grant).value, u, c, roles,
            grant)
  {
    hide Quiet, Evolves, Expire;
    if Due(db.approvals[c], u.now) {
      ExpireEffect(db, u, c);
    }
  }

  /** One approval that was not yet used to start its call is withdrawn. */
  predicate WithdrawsRow(a: Db, b: Db, c: CallId) {
    && c in a.approvals
    && (Active(a.approvals[c].status) || (a.approvals[c].status.Claimed? && c in a.calls
        && a.calls[c].status.Prepared?))
    && b.approvals == a.approvals[c := WithdrawnRow(a.approvals[c])]
    && b.calls == a.calls && b.run == a.run
  }

  lemma InvalidateEffect(db: Db, u: Unit, c: CallId, revision: nat)
    requires Invalidate(db, u, c, revision).Ok?
    ensures WithdrawsRow(db, Invalidate(db, u, c, revision).value, c)
  {
    hide Quiet, Evolves, Expire;
    if Due(db.approvals[c], u.now) {
      ExpireEffect(db, u, c);
    }
  }

  lemma ConsumeEffect(db: Db, u: Unit, c: CallId, revision: nat, intent: CallId, result: InvocationStatus,
      code: Option<ErrorCode>)
    requires Consume(db, u, c, revision, intent, result, code).Ok?
    ensures var b := Consume(db, u, c, revision, intent, result, code).value;
            && c in db.approvals && db.approvals[c].status.Claimed?
            && b.approvals == db.approvals[c := ConsumedRow(db.approvals[c], u.now, code)]
            && b.calls == db.calls && b.run == db.run
  {
    hide Quiet, Evolves;
  }

  // ---------- Gate transactions ----------

  /** A call that needs an approval and the approval it needs; the run starts to wait. */
  predicate Opens(cfg: Config, a: Db, b: Db, u: Unit, pass: Pass, existing: bool) {
    var c := pass.req.call;
    && c !in a.approvals && c in b.calls && c in b.approvals
    && a.run.status.Running? && b.run.status.WaitingApproval?
    && b.run.identity == a.run.identity && b.run.config == a.run.config
    && b.approvals == a.approvals[c := b.approvals[c]]
    && b.calls == a.calls[c := b.calls[c]]
    && b.calls[c].status.Prepared?
    && (c in a.calls ==> existing && a.calls[c].status.Prepared? && b.calls[c].tool == a.calls[c].tool)
    && (c !in a.calls ==> b.calls[c].tool == pass.req.tool && b.calls[c].step in b.steps)
    && b.calls[c].digest == pass.digest
    && FreshRow(cfg, a, b, u, pass, c)
  }

  lemma OpenApprovalEffect(cfg: Config, db: Db, u: Unit, pass: Pass, existing: bool)
    requires OpenApproval(cfg, db, u, pass, existing).Ok?
    requires db.approvals.Keys <= db.calls.Keys
    ensures var b := OpenApproval(cfg, db, u, pass, existing).value;
            Passive(db, b) || Opens(cfg, db, b, u, pass, existing)
  {
    hide Quiet, Evolves, ApprovalStore.Create;
    var prepared :=
      if existing then db
      else CreateInvocation(db, u, pass.req.call, NewInvocation(pass, u.now), db.run.revision).value;
    var ask := Ask(pass.req.call, pass.digest, pass.req.actor, cfg.approvalRoles, cfg.approvalTtl);
    if pass.req.call !in prepared.approvals {
      CreateEffect(prepared, u, ask);
    } else {
      CreateDuplicateEffect(prepared, u, ask);
    }
  }

  lemma CreateDuplicateEffect(db: Db, u: Unit, ask: Ask)
    requires ask.call in db.approvals && ApprovalStore.Create(db, u, ask).Ok?
    ensures ApprovalStore.Create(db, u, ask).value == db && db.run.status.WaitingApproval?
  {
    hide Quiet, Evolves;
  }

  /** The row that opening an approval adds. */
  predicate FreshRow(cfg: Config, db: Db, b: Db, u: Unit, pass: Pass, c: CallId)
    requires c in b.approvals && c in b.calls
  {
    var a, i := b.approvals[c], b.calls[c];
    && a.status.Pending? && db.nextId <= a.id < b.nextId && i.approval == Some(a.id)
    && a.tool == i.tool && a.digest == i.digest
    && a.requestedBy == pass.req.actor && a.roles == cfg.approvalRoles
    && a.requestedAt == u.now && a.expiresAt == u.now + cfg.approvalTtl
    && a.binding == BindingOf(db.run, c, i.tool, i.digest, a.requestedBy, a.roles, a.requestedAt, a.expiresAt)
    && a.decidedAt.None? && a.decidedBy.None? && a.claimedAt.None? && a.intent.None?
    && a.consumedAt.None? && a.consumptionCode.None?
  }

  lemma PollEffect(db: Db, u: Unit, req: Request)
    requires PollApproval(db, u, req).Ok?
    ensures Expiry(db, PollApproval(db, u, req).value, u.now)
  {
    hide Quiet, Evolves, Load;
    LoadEffect(db, u, req.call);
  }

  /** A claim in all its parts: the row, the run, the charge and the log. */
  ghost predicate Claims(a: Db, b: Db, u: Unit, c: CallId) {
    && c in a.approvals && a.approvals[c].status.Approved? && u.now < a.approvals[c].expiresAt
    && a.run.status.WaitingApproval? && b.run.status.Running?
    && b.approvals == a.approvals[c := ClaimedRow(a.approvals[c], u.now, c)]
    && b.calls == a.calls
    && ToolCallKey(c) in b.ledger && b.ledger[ToolCallKey(c)] == 1
    && (exists i ::
          && |a.audit| <= i < |b.audit|
          && b.audit[i].entry == Entry(u.actor, u.now, ApprovalClaimed(a.approvals[c].id, c)))
  }

  lemma ClaimTransactionEffect(db: Db, u: Unit, c: CallId)
    requires ClaimTransaction(db, u, c).Ok?
    ensures HoldsLease(db, u)
    ensures Claims(db, ClaimTransaction(db, u, c).value, u, c)
  {
    hide Quiet, Evolves, Load, Claim, RecordBudgetDelta;
    var loaded := Load(db, u, c).value;
    LoadEffect(db, u, c);
    var claimed := Claim(loaded, u, c, loaded.approvals[c].revision, c).value;
    ClaimEffect(loaded, u, c, loaded.approvals[c].revision, c);
    LoadHolds(db, u, c);
    assert loaded.approvals[c] == db.approvals[c];
    LoadUntouched(db, u, c);
    var running := TransitionRun(claimed, u, WaitingApproval, claimed.run.revision, Running, None, None).value;
    ChargeEffect(running, u, ToolCallKey(c), 1, running.run.revision);
    var charged := RecordToolBudget(running, u, c).value;
    var n := |loaded.audit|;
    assert charged.audit[n] == claimed.audit[n];
  }

  lemma LoadHolds(db: Db, u: Unit, c: CallId)
    requires Load(db, u, c).Ok?
    ensures HoldsLease(db, u) && c in db.approvals
  {
    hide Quiet, Evolves, Expire;
  }

  lemma LoadUntouched(db: Db, u: Unit, c: CallId)
    requires Load(db, u, c).Ok? && Load(db, u, c).value.approvals[c] == db.approvals[c]
    ensures Load(db, u, c).value == db
  {
    hide Quiet, Evolves, Expire;
    LoadHolds(db, u, c);
    if Due(db.approvals[c], u.now) {
      ExpireEffect(db, u, c);
    }
  }

  lemma ChargeEffect(db: Db, u: Unit, key: LedgerKey, delta: nat, revision: nat)
    requires RecordBudgetDelta(db, u, key, delta, revision).Ok?
    ensures var b := RecordBudgetDelta(db, u, key, delta, revision).value;
            && Passive(db, b) && db.audit <= b.audit && key in b.ledger && b.ledger[key] == delta
  {
    hide Quiet, Evolves;
  }

  lemma ClaimAndAllowEffect(db: Db, u: Unit, pass: Pass)
    requires ClaimAndAllow(db, u, pass).Ok?
    ensures Claims(db, ClaimAndAllow(db, u, pass).value, u, pass.req.call)
  {
    hide Quiet, Evolves, ClaimTransaction;
    ClaimTransactionEffect(db, u, pass.req.call);
    var charged := ClaimTransaction(db, u, pass.req.call).value;
    var b := ClaimAndAllow(db, u, pass).value;
    assert forall i :: 0 <= i < |charged.audit| ==> b.audit[i] == charged.audit[i];
  }

  lemma ResumeOrClaimEffect(db: Db, u: Unit, pass: Pass)
    requires ResumeOrClaim(db, u, pass).Ok?
    ensures var b, c := ResumeOrClaim(db, u, pass).value, pass.req.call;
            || (Passive(db, b) && c in db.approvals && db.approvals[c].status.Claimed? && b.ledger == db.ledger
                && db.run.status.Running?)
            || Claims(db, b, u, c)
  {
    hide Quiet, Evolves, Load, ClaimTransaction, ResumeClaim;
    var c := pass.req.call;
    var loaded := Load(db, u, c).value;
    LoadHolds(db, u, c);
    LoadEffect(db, u, c);
    assert loaded.approvals[c] == db.approvals[c];
    LoadUntouched(db, u, c);
    var b := ResumeOrClaim(db, u, pass).value;
    if db.approvals[c].status.Claimed? {
      ResumeClaimEffect(db, u, c, db.approvals[c].revision, c);
    } else {
      ClaimTransactionEffect(db, u, c);
      var ready := ClaimTransaction(db, u, c).value;
      assert forall i :: 0 <= i < |ready.audit| ==> b.audit[i] == ready.audit[i];
    }
  }

  lemma ResumeClaimEffect(db: Db, u: Unit, c: CallId, revision: nat, intent: CallId)
    requires ResumeClaim(db, u, c, revision, intent).Ok?
    ensures Passive(db, ResumeClaim(db, u, c, revision, intent).value)
    ensures ResumeClaim(db, u, c, revision, intent).value.ledger == db.ledger && db.run.status.Running?
  {
    hide Quiet, Evolves;
  }

  /** A call that needs no approval appears; a model's call is charged with it. */
  predicate Creates(a: Db, b: Db, now: Time, pass: Pass) {
    var c := pass.req.call;
    && c !in a.calls && b.calls == a.calls[c := NewInvocation(pass, now)] && pass.req.step in b.steps
    && b.approvals == a.approvals && b.run.status == a.run.status
    && (!pass.internal ==> ToolCallKey(c) in b.ledger && b.ledger[ToolCallKey(c)] == 1)
  }

  lemma PrepareEffect(db: Db, u: Unit, pass: Pass)
    requires PrepareAndAllow(db, u, pass).Ok?
    ensures Creates(db, PrepareAndAllow(db, u, pass).value, u.now, pass)
  {
    hide Quiet, Evolves;
  }

  /** A result: the call becomes terminal and, with a known result, its approval is spent. */
  ghost predicate Persists(a: Db, b: Db, now: Time, pass: Pass) {
    var c := pass.req.call;
    && c in a.calls && a.calls[c].status.Started?
    && c in b.calls && b.calls == a.calls[c := b.calls[c]] && TerminalCall(b.calls[c].status)
    && b.run.status == a.run.status
    && if pass.approved && Deterministic(b.calls[c].status)
       then && c in a.approvals && a.approvals[c].status.Claimed?
            && exists code :: b.approvals == a.approvals[c := ConsumedRow(a.approvals[c], now, code)]
       else b.approvals == a.approvals
  }

  lemma PersistEffect(db: Db, u: Unit, pass: Pass, outcome: Outcome)
    requires PersistResult(db, u, pass, outcome).Ok?
    ensures Persists(db, PersistResult(db, u, pass, outcome).value, u.now, pass)
  {
    hide Quiet, Evolves, AddFacts, Load, Consume;
    var c, target := pass.req.call, MapOutcome(outcome, pass.spec.idempotent);
    var noted := AddFacts(db, u, c, outcome.facts).value;
    assert Passive(db, noted);
    var moved := TransitionInvocation(noted, u, c, InvocationStatus.Started, noted.calls[c].revision, target,
        outcome.error).value;
    assert moved.approvals == db.approvals;
    if pass.approved && Deterministic(target) {
      var loaded := Load(moved, u, c).value;
      LoadHolds(moved, u, c);
      LoadEffect(moved, u, c);
      ConsumeEffect(loaded, u, c, loaded.approvals[c].revision, c, target, outcome.error);
      LoadUntouched(moved, u, c);
    }
  }
}
