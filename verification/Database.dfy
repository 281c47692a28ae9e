/**
  The rows of one run, updated in place: the state, approval and checkpoint stores inside one unit
  of work, and the transactions that commit or roll back around them.

  Every method is tied to the function of the same name on the value of the rows.  An operation
  that fails may leave half-written rows behind; the transaction around it restores them.
 */
module Database {
  import opened Domain
  import opened Wrappers
  import Audit
  import StateStore
  import ApprovalStore
  import ApprovalEffects

  /** How an operation that writes in place ends. */
  datatype Done = Success | Failure(code: ErrorCode) {
    predicate IsFailure() { Failure? }
    function PropagateFailure(): Done
      requires Failure?
    { this }
  }

  class Database {
    var run: Run
    var steps: set<nat>
    var calls: map<CallId, Invocation>
    var approvals: map<CallId, Approval>
    var ledger: map<LedgerKey, nat>
    var evidence: map<nat, Evidence>
    var checkpoints: seq<Checkpoint>
    var recoveries: map<RecoveryKey, RecoveryPlan>
    var audit: AuditLog
    var lease: Option<Lease>
    var nextToken: Token
    var nextId: nat

    constructor (db: Db)
      ensures View() == db
    {
      run, steps, calls, approvals := db.run, db.steps, db.calls, db.approvals;
      ledger, evidence, checkpoints, recoveries := db.ledger, db.evidence, db.checkpoints, db.recoveries;
      audit, lease, nextToken, nextId := db.audit, db.lease, db.nextToken, db.nextId;
    }

    /** The value of the rows; also what a savepoint keeps. */
    function View(): Db
      reads this
    {
      Db(run, steps, calls, approvals, ledger, evidence, checkpoints, recoveries, audit, lease, nextToken, nextId)
    }

    method Rollback(saved: Db)
      modifies this
      ensures View() == saved
    {
      run, steps, calls, approvals := saved.run, saved.steps, saved.calls, saved.approvals;
      ledger, evidence, checkpoints, recoveries := saved.ledger, saved.evidence, saved.checkpoints, saved.recoveries;
      audit, lease, nextToken, nextId := saved.audit, saved.lease, saved.nextToken, saved.nextId;
    }

    /** The operation did what `spec` says, or failed with its error. */
    predicate Follows(r: Done, spec: Result<Db>)
      reads this
    {
      if spec.Ok? then r.Success? && View() == spec.value else r == Failure(spec.code)
    }

    // ---------- state store ----------

    method AppendEvent(u: Unit, event: Event)
      modifies this`audit
      ensures View() == StateStore.Log(old(View()), u, event)
    {
      hide Quiet, Evolves;
      audit := Audit.Append(audit, Entry(u.actor, u.now, event), Genesis, HashOf);
    }

    method TouchRun()
      modifies this`run
      ensures View() == StateStore.Touch(old(View()))
    {
      run := run.(revision := run.revision + 1);
    }

    method VerifyLease(u: Unit) returns (r: Done)
      ensures r == if HoldsLease(View(), u) then Success else Failure(LeaseFault(View(), u))
    {
      if lease.None? || lease.value.token != u.token {
        return Failure(StateLeaseInvalid);
      }
      if u.now >= lease.value.expiresAt {
        return Failure(StateLeaseExpired);
      }
      return Success;
    }

    method TransitionRun(u: Unit, expected: RunStatus, revision: nat, target: RunStatus,
                         stopReason: Option<StopReason>, acceptance: Option<Acceptance>) returns (r: Done)
      modifies this
      ensures Follows(r, StateStore.TransitionRun(old(View()), u, expected, revision, target, stopReason, acceptance))
    {
      hide Quiet, Evolves;
      :- VerifyLease(u);
      if run.revision != revision || run.status != expected {
        return Failure(StateConflict);
      }
      if !StateStore.RunMoveAllowed(run.status, target) {
        return Failure(StateInvalidTransition);
      }
      if stopReason.Some? != (target.Stopped? || target.Failed? || target.Blocked?) {
        return Failure(StateInvariantViolation);
      }
      var verdict := acceptance.GetOr(run.acceptance);
      if stopReason == Some(StopReason.BudgetExhausted) {
        verdict := NotEvaluated;
      }
      if target.Completed? && verdict.NotEvaluated? {
        return Failure(StateInvariantViolation);
      }
      var endedAt := None;
      if TerminalRun(target) {
        endedAt := Some(u.now);
      }
      run := run.(status := target, stopReason := stopReason, acceptance := verdict, endedAt := endedAt,
          revision := run.revision + 1);
      AppendEvent(u, RunMoved(target));
      return Success;
    }

    method CreateStep(u: Unit, step: nat, revision: nat) returns (r: Done)
      modifies this
      ensures Follows(r, StateStore.CreateStep(old(View()), u, step, revision))
    {
      hide Quiet, Evolves;
      :- VerifyLease(u);
      if run.revision != revision {
        return Failure(StateConflict);
      }
      if TerminalRun(run.status) {
        return Failure(StateInvalidTransition);
      }
      if step in steps {
        return Failure(StateConflict);
      }
      steps := steps + {step};
      TouchRun();
      AppendEvent(u, StepPlanned(step));
      return Success;
    }

    method CreateInvocation(u: Unit, c: CallId, invocation: Invocation, revision: nat) returns (r: Done)
      modifies this
      ensures Follows(r, StateStore.CreateInvocation(old(View()), u, c, invocation, revision))
    {
      hide Quiet, Evolves;
      :- VerifyLease(u);
      if run.revision != revision {
        return Failure(StateConflict);
      }
      if TerminalRun(run.status) {
        return Failure(StateInvalidTransition);
      }
      if !invocation.status.Prepared? {
        return Failure(StateInvariantViolation);
      }
      if invocation.step !in steps {
        return Failure(StateNotFound);
      }
      if c in calls {
        return Failure(StateConflict);
      }
      calls := calls[c := invocation];
      TouchRun();
      AppendEvent(u, ToolPrepared(c));
      return Success;
    }

    method TransitionInvocation(u: Unit, c: CallId, expected: InvocationStatus, revision: nat,
                                target: InvocationStatus, error: Option<ErrorCode>) returns (r: Done)
      modifies this
      ensures Follows(r, StateStore.TransitionInvocation(old(View()), u, c, expected, revision, target, error))
    {
      hide Quiet, Evolves;
      :- VerifyLease(u);
      if c !in calls {
        return Failure(StateNotFound);
      }
      var current := calls[c];
      if current.revision != revision || current.status != expected {
        return Failure(StateConflict);
      }
      var allowed := match current.status
        case Prepared => target.Started?
        case Started => TerminalCall(target)
        case _ => false;
      if !allowed {
        return Failure(StateInvalidTransition);
      }
      if target.TimedOut? && !current.idempotent {
        return Failure(StateInvariantViolation);
      }
      if target.Succeeded? && error.Some? {
        return Failure(StateInvariantViolation);
      }
      if (target.Failed? || target.TimedOut? || target.UnknownResult?) && error.None? {
        return Failure(StateInvariantViolation);
      }
      calls := calls[c := current.(status := target, error := error, revision := current.revision + 1,
          updatedAt := u.now)];
      TouchRun();
      AppendEvent(u, ToolMoved(c, target));
      return Success;
    }

    method AddEvidence(u: Unit, fact: Evidence) returns (r: Done)
      modifies this
      ensures Follows(r, StateStore.AddEvidence(old(View()), u, fact))
    {
      hide Quiet, Evolves;
      :- VerifyLease(u);
      if fact.call.Some? {
        if fact.call.value !in calls {
          return Failure(StateNotFound);
        }
        if TerminalCall(calls[fact.call.value].status) {
          return Failure(StateInvalidTransition);
        }
      }
      var id := nextId;
      evidence := evidence[id := fact];
      nextId := id + 1;
      TouchRun();
      AppendEvent(u, EvidenceRecorded(id));
      return Success;
    }

    method InvalidateEvidence(u: Unit, id: nat) returns (r: Done)
      modifies this
      ensures Follows(r, StateStore.InvalidateEvidence(old(View()), u, id))
    {
      hide Quiet, Evolves;
      :- VerifyLease(u);
      if TerminalRun(run.status) {
        return Failure(StateInvalidTransition);
      }
      if id !in evidence {
        return Failure(StateNotFound);
      }
      if !evidence[id].valid {
        return Success;
      }
      evidence := evidence[id := evidence[id].(valid := false)];
      TouchRun();
      AppendEvent(u, EvidenceInvalidated(id));
      return Success;
    }

    method RecordBudgetDelta(u: Unit, key: LedgerKey, delta: nat, revision: nat) returns (r: Done)
      modifies this
      ensures Follows(r, StateStore.RecordBudgetDelta(old(View()), u, key, delta, revision))
    {
      hide Quiet, Evolves;
      :- VerifyLease(u);
      if key in ledger {
        if ledger[key] != delta {
          return Failure(StateConflict);
        }
        return Success;
      }
      if run.revision != revision {
        return Failure(StateConflict);
      }
      if TerminalRun(run.status) {
        return Failure(StateInvalidTransition);
      }
      var total := run.used.Get(key.category) + delta;
      if total > run.limits.Get(key.category) {
        return Failure(StateBudgetExceeded);
      }
      ledger := ledger[key := delta];
      run := run.(used := run.used.Put(key.category, total));
      TouchRun();
      AppendEvent(u, BudgetUpdated(key, delta));
      return Success;
    }

    method MarkCheckpointWritten(u: Unit, id: nat) returns (r: Done)
      modifies this
      ensures Follows(r, StateStore.MarkCheckpointWritten(old(View()), u, id))
    {
      hide Quiet, Evolves;
      :- VerifyLease(u);
      if !exists i :: 0 <= i < |checkpoints| && checkpoints[i].id == id {
        return Failure(CheckpointNotFound);
      }
      if run.lastCheckpoint == Some(id) {
        return Success;
      }
      run := run.(lastCheckpoint := Some(id));
      TouchRun();
      AppendEvent(u, CheckpointWritten(id));
      return Success;
    }

    method AcquireLease(u: Unit, ttl: nat) returns (r: Done)
      modifies this
      ensures Follows(r, StateStore.AcquireLease(old(View()), u, ttl))
    {
      hide Quiet, Evolves;
      if !StateStore.LeaseTtlOk(ttl) {
        return Failure(StateLeaseInvalid);
      }
      if lease.Some? && u.now < lease.value.expiresAt {
        return Failure(StateLeaseHeld);
      }
      var event := if lease.Some? then LeaseTakenOver else LeaseAcquired;
      lease := Some(Lease(nextToken, u.actor, u.now + ttl));
      nextToken := nextToken + 1;
      AppendEvent(u, event);
      return Success;
    }

    method RenewLease(u: Unit, ttl: nat) returns (r: Done)
      modifies this
      ensures Follows(r, StateStore.RenewLease(old(View()), u, ttl))
    {
      hide Quiet, Evolves;
      if !StateStore.LeaseTtlOk(ttl) {
        return Failure(StateLeaseInvalid);
      }
      :- VerifyLease(u);
      lease := Some(lease.value.(expiresAt := u.now + ttl));
      return Success;
    }

    method ReleaseLease(u: Unit) returns (r: Done)
      modifies this
      ensures Follows(r, StateStore.ReleaseLease(old(View()), u))
    {
      hide Quiet, Evolves;
      if lease.None? || lease.value.token != u.token {
        return Failure(StateLeaseInvalid);
      }
      lease := None;
      AppendEvent(u, LeaseReleased);
      return Success;
    }

    // ---------- approval store ----------

    method Expire(u: Unit, c: CallId) returns (r: Done)
      requires c in approvals && Active(approvals[c].status)
      modifies this
      ensures Follows(r, ApprovalStore.Expire(old(View()), u, c))
    {
      hide Quiet, Evolves, StateStore.TransitionRun;
      var a := approvals[c];
      approvals := approvals[c := a.(status := ApprovalStatus.Expired, revision := a.revision + 1)];
      AppendEvent(u, ApprovalExpiredAt(a.id));
      if run.status.WaitingApproval? {
        r := TransitionRun(u, WaitingApproval, run.revision, Stopped, Some(StopReason.ApprovalExpired),
            Some(NotEvaluated));
        return;
      }
      return Success;
    }

    method MaterializeExpiry(u: Unit, c: CallId) returns (r: Done)
      requires c in approvals
      modifies this
      ensures Follows(r, ApprovalStore.MaterializeExpiry(old(View()), u, c))
    {
      hide Quiet, Evolves, ApprovalStore.Expire;
      if Active(approvals[c].status) && approvals[c].expiresAt <= u.now {
        r := Expire(u, c);
        return;
      }
      return Success;
    }

    method LoadApproval(u: Unit, c: CallId) returns (r: Done)
      modifies this
      ensures Follows(r, ApprovalStore.Load(old(View()), u, c))
      ensures r.Success? ==> c in approvals
    {
      hide Quiet, Evolves, ApprovalStore.MaterializeExpiry;
      ghost var before := View();
      if c !in approvals {
        return Failure(ApprovalNotFound);
      }
      :- VerifyLease(u);
      r := MaterializeExpiry(u, c);
      if r.Success? {
        ApprovalEffects.LoadEffect(before, u, c);
      }
    }

    method CreateApproval(u: Unit, ask: ApprovalStore.Ask) returns (r: Done)
      modifies this
      ensures Follows(r, ApprovalStore.Create(old(View()), u, ask))
    {
      hide Quiet, Evolves, ApprovalStore.HandleDuplicate;
      var c := ask.call;
      if ask.requestedBy != u.actor {
        return Failure(ApprovalInvalid);
      }
      :- VerifyLease(u);
      if c !in calls {
        return Failure(ApprovalNotFound);
      }
      if ask.digest != calls[c].digest {
        return Failure(ApprovalBindingMismatch);
      }
      if c in approvals {
        var duplicate := ApprovalStore.HandleDuplicate(View(), u, ask);
        return if duplicate.Ok? then Success else Failure(duplicate.code);
      }
      if !calls[c].status.Prepared? {
        return Failure(ApprovalNotExecutable);
      }
      if !run.status.Running? {
        return Failure(ApprovalInvalid);
      }
      var i := calls[c];
      if i.approval.Some? {
        return Failure(ApprovalConflict);
      }
      var id, expiresAt := nextId, u.now + ask.ttl;
      var binding := ApprovalStore.BindingOf(run, c, i.tool, i.digest, ask.requestedBy, ask.roles, u.now, expiresAt);
      approvals := approvals[c := Approval(id, i.tool, i.digest, binding, ask.requestedBy, ask.roles,
          ApprovalStatus.Pending, 0,
                                           u.now, expiresAt, None, None, None, None, None, None)];
      nextId := id + 1;
      calls := calls[c := i.(approval := Some(id), revision := i.revision + 1, updatedAt := u.now)];
      AppendEvent(u, ApprovalRequestedFor(c, id));
      return Success;
    }

    method Claim(u: Unit, c: CallId, revision: nat, intent: CallId) returns (r: Done)
      modifies this
      ensures Follows(r, ApprovalStore.Claim(old(View()), u, c, revision, intent))
    {
      hide Quiet, Evolves, ApprovalStore.MaterializeExpiry, ApprovalStore.BindingHolds;
      if c !in approvals {
        return Failure(ApprovalNotFound);
      }
      :- VerifyLease(u);
      :- MaterializeExpiry(u, c);
      if c !in approvals {
        return Failure(ApprovalNotFound);
      }
      var a := approvals[c];
      if a.status.Expired? {
        return Failure(ErrorCode.ApprovalExpired);
      }
      if a.status.Claimed? {
        return Failure(ApprovalAlreadyClaimed);
      }
      if a.revision != revision {
        return Failure(ApprovalConflict);
      }
      if !a.status.Approved? {
        return Failure(ApprovalNotExecutable);
      }
      if u.now >= a.expiresAt {
        return Failure(ErrorCode.ApprovalExpired);
      }
      if intent != c {
        return Failure(ApprovalBindingMismatch);
      }
      if !run.status.WaitingApproval? {
        return Failure(ApprovalNotExecutable);
      }
      if !ApprovalStore.BindingHolds(View(), c) {
        return Failure(ApprovalBindingMismatch);
      }
      approvals := approvals[c := a.(status := ApprovalStatus.Claimed, claimedAt := Some(u.now), intent := Some(intent),
                                     revision := a.revision + 1)];
      AppendEvent(u, ApprovalClaimed(a.id, intent));
      return Success;
    }

    method ResumeClaim(u: Unit, c: CallId, revision: nat, intent: CallId) returns (r: Done)
      modifies this
      ensures Follows(r, ApprovalStore.ResumeClaim(old(View()), u, c, revision, intent))
    {
      hide Quiet, Evolves;
      if c !in approvals {
        return Failure(ApprovalNotFound);
      }
      :- VerifyLease(u);
      if !ApprovalStore.BindingHolds(View(), c) {
        return Failure(ApprovalBindingMismatch);
      }
      var a := approvals[c];
      if a.revision != revision {
        return Failure(ApprovalConflict);
      }
      if !a.status.Claimed? || a.intent != Some(intent) || intent != c {
        return Failure(ApprovalNotExecutable);
      }
      if !run.status.Running? || !calls[c].status.Prepared? {
        return Failure(ApprovalNotExecutable);
      }
      AppendEvent(u, ApprovalClaimRecovered(a.id));
      return Success;
    }

    method Consume(u: Unit, c: CallId, revision: nat, intent: CallId, result: InvocationStatus, code: Option<ErrorCode>)
      returns (r: Done)
      modifies this
      ensures Follows(r, ApprovalStore.Consume(old(View()), u, c, revision, intent, result, code))
    {
      hide Quiet, Evolves;
      if c !in approvals {
        return Failure(ApprovalNotFound);
      }
      :- VerifyLease(u);
      var a := approvals[c];
      if a.revision != revision {
        return Failure(ApprovalConflict);
      }
      if !a.status.Claimed? || a.intent != Some(intent) || intent != c {
        return Failure(ApprovalNotExecutable);
      }
      if !run.status.Running? || !Deterministic(result) {
        return Failure(ApprovalNotExecutable);
      }
      if c !in calls || calls[c].status != result {
        return Failure(ApprovalNotExecutable);
      }
      approvals := approvals[c := a.(status := ApprovalStatus.Consumed, consumedAt := Some(u.now),
          consumptionCode := code,
                                     revision := a.revision + 1)];
      AppendEvent(u, ApprovalConsumed(a.id, result));
      return Success;
    }

    method Invalidate(u: Unit, c: CallId, revision: nat) returns (r: Done)
      modifies this
      ensures Follows(r, ApprovalStore.Invalidate(old(View()), u, c, revision))
    {
      hide Quiet, Evolves, ApprovalStore.MaterializeExpiry;
      if c !in approvals {
        return Failure(ApprovalNotFound);
      }
      :- VerifyLease(u);
      :- MaterializeExpiry(u, c);
      if c !in approvals {
        return Failure(ApprovalNotFound);
      }
      var a := approvals[c];
      if a.revision != revision {
        return Failure(ApprovalConflict);
      }
      if a.status.Claimed? {
        if !(c in calls && calls[c].status.Prepared?) {
          return Failure(ApprovalNotExecutable);
        }
      } else if !Active(a.status) {
        return Failure(ApprovalNotExecutable);
      }
      approvals := approvals[c := a.(status := Invalidated, claimedAt := None, intent := None, consumedAt := None,
                                     consumptionCode := None, revision := a.revision + 1)];
      AppendEvent(u, ApprovalInvalidated(a.id));
      return Success;
    }

    method Decide(u: Unit, c: CallId, revision: nat, approver: Actor, roles: set<Role>, grant: bool) returns (r: Done)
      modifies this
      ensures Follows(r, ApprovalStore.Decide(old(View()), u, c, revision, approver, roles, grant))
    {
      hide Quiet, Evolves, ApprovalStore.MaterializeExpiry, StateStore.TransitionRun;
      if c !in approvals {
        return Failure(ApprovalNotFound);
      }
      :- VerifyLease(u);
      :- MaterializeExpiry(u, c);
      if c !in approvals {
        return Failure(ApprovalNotFound);
      }
      var a := approvals[c];
      if a.status.Expired? {
        return Failure(ErrorCode.ApprovalExpired);
      }
      if a.revision != revision {
        return Failure(ApprovalConflict);
      }
      if !a.status.Pending? {
        return Failure(ApprovalNotExecutable);
      }
      if approver != u.actor {
        return Failure(ApproverDenied);
      }
      if !run.status.WaitingApproval? {
        return Failure(ApprovalNotExecutable);
      }
      if approver == a.requestedBy {
        return Failure(SelfApprovalDenied);
      }
      if a.roles !! roles {
        return Failure(ApproverDenied);
      }
      var target := if grant then ApprovalStatus.Approved else ApprovalStatus.Rejected;
      approvals := approvals[c := a.(status := target, decidedAt := Some(u.now), decidedBy := Some(approver),
          revision := a.revision + 1)];
      AppendEvent(u, ApprovalDecided(a.id, approver, roles, grant));
      if !grant {
        r := TransitionRun(u, WaitingApproval, run.revision, Stopped, Some(StopReason.ApprovalRejected),
            Some(NotEvaluated));
        return;
      }
      return Success;
    }

    /** `expire_due`: the rows that are due when it starts, oldest request first. */
    method ExpireDue(u: Unit) returns (r: Done)
      modifies this
      ensures Follows(r, ApprovalStore.ExpireDue(old(View()), u))
    {
      hide Quiet, Evolves, ApprovalStore.Expire;
      :- VerifyLease(u);
      var due := ApprovalStore.DueCalls(View(), u.now);
      ghost var whole := ApprovalStore.ExpireEach(View(), u, due);
      while due != {}
        invariant whole == ApprovalStore.ExpireEach(View(), u, due)
        decreases |due|
      {
        if !(due <= approvals.Keys) {
          return Failure(ApprovalNotFound);
        }
        var c := ApprovalStore.Earliest(due, ApprovalStore.RequestTimes(approvals));
        if Active(approvals[c].status) {
          :- Expire(u, c);
        }
        due := due - {c};
      }
      return Success;
    }
  }
}
