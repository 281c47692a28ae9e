/**
  The state operations of `StateStore`, as functions from a database to a database or an error.
  An error value leaves nothing behind: the transaction around it rolls back.
 */
module StateStore {
  import opened Domain
  import opened Wrappers
  import Audit

  function Log(db: Db, u: Unit, event: Event): (r: Db)
    ensures db.audit <= r.audit && |r.audit| == |db.audit| + 1
    ensures r.audit[|db.audit|].entry == Entry(u.actor, u.now, event)
    ensures Chained(db.audit) ==> Chained(r.audit)
  {
    AppendChained(db.audit, Entry(u.actor, u.now, event));
    db.(audit := Audit.Append(db.audit, Entry(u.actor, u.now, event), Genesis, HashOf))
  }

  lemma AppendChained(log: AuditLog, entry: Entry)
    ensures Chained(log) ==> Chained(Audit.Append(log, entry, Genesis, HashOf))
  {
    if Chained(log) {
      Audit.AppendKeepsChain(log, entry, Genesis, HashOf);
    }
  }

  lemma LogQuiet(db: Db, u: Unit, event: Event)
    ensures Quiet(db, Log(db, u, event))
  {
  }

  function Touch(db: Db): Db {
    db.(run := db.run.(revision := db.run.revision + 1))
  }

  // ---------- runs ----------

  predicate RunMoveAllowed(a: RunStatus, b: RunStatus) {
    match a
    case New => b.Running?
    case Running => b.WaitingApproval? || b.Verifying? || b.Stopped? || b.Failed? || b.Blocked?
    case WaitingApproval => b.Running? || b.Stopped? || b.Failed? || b.Blocked?
    case Verifying => b.Completed? || b.Failed? || b.Blocked?
    case _ => false
  }

  function TransitionRun(db: Db, u: Unit, expected: RunStatus, revision: nat, target: RunStatus,
                         stopReason: Option<StopReason>, acceptance: Option<Acceptance>): (r: Result<Db>)
    ensures r.Ok? ==> Quiet(db, r.value)
  {
    if !HoldsLease(db, u) then Err(LeaseFault(db, u))
    else if db.run.revision != revision || db.run.status != expected then Err(StateConflict)
    else if !RunMoveAllowed(db.run.status, target) then Err(StateInvalidTransition)
    else if stopReason.Some? != (target.Stopped? || target.Failed? || target.Blocked?) then Err(StateInvariantViolation)
    else
      var verdict :=
        if stopReason == Some(StopReason.BudgetExhausted) then NotEvaluated
        else acceptance.GetOr(db.run.acceptance);
      if target.Completed? && verdict.NotEvaluated? then Err(StateInvariantViolation)
      else
        var run := db.run.(
          status := target, stopReason := stopReason, acceptance := verdict,
          endedAt := if TerminalRun(target) then Some(u.now) else None,
          revision := db.run.revision + 1);
        Ok(Log(db.(run := run), u, RunMoved(target)))
  }

  // ---------- steps and tool invocations ----------

  function CreateStep(db: Db, u: Unit, step: nat, revision: nat): (r: Result<Db>)
    ensures r.Ok? ==> Quiet(db, r.value)
  {
    if !HoldsLease(db, u) then Err(LeaseFault(db, u))
    else if db.run.revision != revision then Err(StateConflict)
    else if TerminalRun(db.run.status) then Err(StateInvalidTransition)
    else if step in db.steps then Err(StateConflict)
    else Ok(Log(Touch(db.(steps := db.steps + {step})), u, StepPlanned(step)))
  }

  function CreateInvocation(db: Db, u: Unit, c: CallId, invocation: Invocation, revision: nat): (r: Result<Db>)
    ensures r.Ok? ==> Quiet(db, r.value)
    ensures r.Ok? ==> c !in db.calls && invocation.status.Prepared? && r.value.calls == db.calls[c := invocation]
  {
    if !HoldsLease(db, u) then Err(LeaseFault(db, u))
    else if db.run.revision != revision then Err(StateConflict)
    else if TerminalRun(db.run.status) then Err(StateInvalidTransition)
    else if !invocation.status.Prepared? then Err(StateInvariantViolation)
    else if invocation.step !in db.steps then Err(StateNotFound)
    else if c in db.calls then Err(StateConflict)
    else Ok(Log(Touch(db.(calls := db.calls[c := invocation])), u, ToolPrepared(c)))
  }

  function TransitionInvocation(db: Db, u: Unit, c: CallId, expected: InvocationStatus, revision: nat,
                                target: InvocationStatus, error: Option<ErrorCode>): (r: Result<Db>)
    ensures r.Ok? ==> HoldsLease(db, u) && c in db.calls && db.calls[c].status == expected
    ensures r.Ok? ==> if expected.Prepared? then target.Started? else expected.Started? && TerminalCall(target)
    ensures r.Ok? ==> Evolves(db, r.value)
    ensures r.Ok? ==> r.value.calls == db.calls[c := r.value.calls[c]] && r.value.calls[c].status == target
    ensures r.Ok? && expected.Started? ==> Quiet(db, r.value)
  {
    if !HoldsLease(db, u) then Err(LeaseFault(db, u))
    else if c !in db.calls then Err(StateNotFound)
    else
      var current := db.calls[c];
      if current.revision != revision || current.status != expected then Err(StateConflict)
      else if current.status.Prepared? && !target.Started? then Err(StateInvalidTransition)
      else if current.status.Started? && !TerminalCall(target) then Err(StateInvalidTransition)
      else if !current.status.Prepared? && !current.status.Started? then Err(StateInvalidTransition)
      else if target.TimedOut? && !current.idempotent then Err(StateInvariantViolation)
      else if target.Succeeded? && error.Some? then Err(StateInvariantViolation)
      else if (target.Failed? || target.TimedOut? || target.UnknownResult?) && error.None?
          then Err(StateInvariantViolation)
      else
        var updated := current.(status := target, error := error, revision := current.revision + 1, updatedAt := u.now);
        Ok(Log(Touch(db.(calls := db.calls[c := updated])), u, ToolMoved(c, target)))
  }

  // ---------- evidence ----------

  function AddEvidence(db: Db, u: Unit, fact: Evidence): (r: Result<Db>)
    ensures r.Ok? ==> Quiet(db, r.value) && EvidenceOnly(db, r.value)
  {
    if !HoldsLease(db, u) then Err(LeaseFault(db, u))
    else if fact.call.Some? && fact.call.value !in db.calls then Err(StateNotFound)
    else if fact.call.Some? && TerminalCall(db.calls[fact.call.value].status) then Err(StateInvalidTransition)
    else
      var id := db.nextId;
      Ok(Log(Touch(db.(evidence := db.evidence[id := fact], nextId := id + 1)), u, EvidenceRecorded(id)))
  }

  function InvalidateEvidence(db: Db, u: Unit, id: nat): (r: Result<Db>)
    ensures r.Ok? ==> Quiet(db, r.value) && EvidenceOnly(db, r.value)
  {
    if !HoldsLease(db, u) then Err(LeaseFault(db, u))
    else if TerminalRun(db.run.status) then Err(StateInvalidTransition)
    else if id !in db.evidence then Err(StateNotFound)
    else if !db.evidence[id].valid then Ok(db)
    else
      var stale := db.evidence[id].(valid := false);
      Ok(Log(Touch(db.(evidence := db.evidence[id := stale])), u, EvidenceInvalidated(id)))
  }

  /** Only evidence rows, the run revision, row identities and the log differ. */
  predicate EvidenceOnly(a: Db, b: Db) {
    && b.run == a.run.(revision := b.run.revision)
    && b == a.(run := b.run, evidence := b.evidence, audit := b.audit, nextId := b.nextId)
  }

  // ---------- budget ----------

  function RecordBudgetDelta(db: Db, u: Unit, key: LedgerKey, delta: nat, revision: nat): (r: Result<Db>)
    ensures r.Ok? ==> Quiet(db, r.value) && key in r.value.ledger && r.value.ledger[key] == delta
    ensures r.Ok? && key in db.ledger ==> r.value == db
  {
    if !HoldsLease(db, u) then Err(LeaseFault(db, u))
    else if key in db.ledger then
      if db.ledger[key] != delta then Err(StateConflict) else Ok(db)
    else if db.run.revision != revision then Err(StateConflict)
    else if TerminalRun(db.run.status) then Err(StateInvalidTransition)
    else
      var total := db.run.used.Get(key.category) + delta;
      if total > db.run.limits.Get(key.category) then Err(StateBudgetExceeded)
      else
        var charged := db.(
          ledger := db.ledger[key := delta],
          run := db.run.(used := db.run.used.Put(key.category, total)));
        Ok(Log(Touch(charged), u, BudgetUpdated(key, delta)))
  }

  // ---------- checkpoints ----------

  function MarkCheckpointWritten(db: Db, u: Unit, id: nat): (r: Result<Db>)
    ensures r.Ok? ==> Quiet(db, r.value)
  {
    if !HoldsLease(db, u) then Err(LeaseFault(db, u))
    else if !exists i :: 0 <= i < |db.checkpoints| && db.checkpoints[i].id == id then Err(CheckpointNotFound)
    else if db.run.lastCheckpoint == Some(id) then Ok(db)
    else
      Ok(Log(Touch(db.(run := db.run.(lastCheckpoint := Some(id)))), u, CheckpointWritten(id)))
  }

  /** Harness writes that change only tables outside this model: they advance the revision and the log. */
  function Note(db: Db, u: Unit): (r: Result<Db>)
    ensures r.Ok? ==> Quiet(db, r.value)
  {
    if !HoldsLease(db, u) then Err(LeaseFault(db, u))
    else Ok(Log(Touch(db), u, HarnessNote))
  }

  // ---------- leases ----------

  predicate LeaseTtlOk(ttl: nat) {
    10 <= ttl <= 300
  }

  /** A lease that is absent or expired can be taken; the new token was never used before. */
  function AcquireLease(db: Db, u: Unit, ttl: nat): (r: Result<Db>)
    ensures r.Ok? ==> Quiet(db, r.value)
    ensures r.Ok? ==> r.value.lease.Some? && r.value.lease.value.token == db.nextToken < r.value.nextToken
  {
    if !LeaseTtlOk(ttl) then Err(StateLeaseInvalid)
    else if db.lease.Some? && u.now < db.lease.value.expiresAt then Err(StateLeaseHeld)
    else
      var event := if db.lease.Some? then LeaseTakenOver else LeaseAcquired;
      Ok(Log(db.(lease := Some(Lease(db.nextToken, u.actor, u.now + ttl)), nextToken := db.nextToken + 1), u, event))
  }

  function RenewLease(db: Db, u: Unit, ttl: nat): (r: Result<Db>)
    ensures r.Ok? ==> Quiet(db, r.value)
  {
    if !LeaseTtlOk(ttl) then Err(StateLeaseInvalid)
    else if !HoldsLease(db, u) then Err(LeaseFault(db, u))
    else Ok(db.(lease := Some(db.lease.value.(expiresAt := u.now + ttl))))
  }

  /** Releasing needs the current token but not an unexpired one. */
  function ReleaseLease(db: Db, u: Unit): (r: Result<Db>)
    ensures r.Ok? ==> Quiet(db, r.value)
  {
    if db.lease.None? || db.lease.value.token != u.token then Err(StateLeaseInvalid)
    else Ok(Log(db.(lease := None), u, LeaseReleased))
  }
}
