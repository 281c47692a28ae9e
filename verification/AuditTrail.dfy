/**
  What the audit log is worth: read from the start, it gives back the rows of the run.  And what
  holds of the row of the run, and of the row of every call, in every run.
 */
module AuditTrail {
  import opened Domain
  import opened Wrappers
  import opened StateStore
  import opened ApprovalStore
  import opened Gate
  import opened Recovery
  import opened Protocol
  import opened ApprovalEffects
  import Audit

  // ---------- reading the log ----------

  datatype CallPicture = CallPicture(status: InvocationStatus, revision: nat, at: Time)

  datatype ApprovalPicture = ApprovalPicture(status: ApprovalStatus, revision: nat)

  /** What a reader knows who has only the log. */
  datatype Picture = Picture(
    status: RunStatus,
    revision: nat,
    ended: Option<Time>,
    steps: set<nat>,
    calls: map<CallId, CallPicture>,
    owners: map<nat, CallId>,               // the call that each approval was asked for
    approvals: map<CallId, ApprovalPicture>,
    ledger: map<LedgerKey, nat>,
    facts: set<nat>,
    dropped: set<nat>,                      // facts that lost their validity
    checkpoint: Option<nat>,
    holder: Option<Actor>)

  function Bump(p: Picture): Picture {
    p.(revision := p.revision + 1)
  }

  function CallMoved(p: Picture, c: CallId, status: InvocationStatus, at: Time): Picture {
    if c in p.calls then p.(calls := p.calls[c := CallPicture(status, p.calls[c].revision + 1, at)]) else p
  }

  function ApprovalMoved(p: Picture, id: nat, status: ApprovalStatus): Picture {
    if id in p.owners && p.owners[id] in p.approvals then
      var c := p.owners[id];
      p.(approvals := p.approvals[c := ApprovalPicture(status, p.approvals[c].revision + 1)])
    else p
  }

  /** One entry more. */
  function Told(p: Picture, e: Entry): Picture {
    match e.event
    case ToolPrepared(c) => Bump(p.(calls := p.calls[c := CallPicture(InvocationStatus.Prepared, 0, e.at)]))
    case ToolMoved(c, target) => Bump(CallMoved(p, c, target, e.at))
    case ApprovalRequestedFor(c, id) =>
      var linked := if c in p.calls then CallMoved(p, c, p.calls[c].status, e.at) else p;
      linked.(owners := p.owners[id := c], approvals := p.approvals[c := ApprovalPicture(Pending, 0)])
    case ApprovalDecided(id, _, _, granted) =>
      ApprovalMoved(p, id, if granted then ApprovalStatus.Approved else ApprovalStatus.Rejected)
    case ApprovalClaimed(id, _) => ApprovalMoved(p, id, Claimed)
    case ApprovalConsumed(id, _) => ApprovalMoved(p, id, Consumed)
    case ApprovalInvalidated(id) => ApprovalMoved(p, id, Invalidated)
    case ApprovalExpiredAt(id) => ApprovalMoved(p, id, ApprovalStatus.Expired)
    case RunMoved(to) => Bump(p.(status := to, ended := if TerminalRun(to) then Some(e.at) else None))
    case BudgetUpdated(key, delta) => Bump(p.(ledger := p.ledger[key := delta]))
    case EvidenceRecorded(id) => Bump(p.(facts := p.facts + {id}))
    case EvidenceInvalidated(id) => Bump(p.(dropped := p.dropped + {id}))
    case CheckpointWritten(id) => Bump(p.(checkpoint := Some(id)))
    case StepPlanned(n) => Bump(p.(steps := p.steps + {n}))
    case HarnessNote => Bump(p)
    case LeaseAcquired => p.(holder := Some(e.actor))
    case LeaseTakenOver => p.(holder := Some(e.actor))
    case LeaseReleased => p.(holder := None)
    case _ => p
  }

  /** The moves a run can make. */
  predicate RunMay(a: RunStatus, b: RunStatus) {
    || (a.New? && b.Running?)
    || (a.Running? && (b.WaitingApproval? || b.Verifying?))
    || (a.WaitingApproval? && b.Running?)
    || ((a.Running? || a.WaitingApproval?) && b.Stopped?)
    || ((a.Running? || a.WaitingApproval? || a.Verifying?) && (b.Failed? || b.Blocked?))
    || (a.Verifying? && b.Completed?)
  }

  predicate CallMay(a: InvocationStatus, b: InvocationStatus) {
    || (a.Prepared? && b.Started?)
    || (a.Started? && (b.Succeeded? || b.Failed? || b.TimedOut? || b.UnknownResult?))
  }

  predicate ApprovalIs(p: Picture, id: nat, status: ApprovalStatus) {
    id in p.owners && p.owners[id] in p.approvals && p.approvals[p.owners[id]].status == status
  }

  predicate CallIs(p: Picture, c: CallId, status: InvocationStatus) {
    c in p.calls && p.calls[c].status == status
  }

  predicate RunOver(p: Picture) {
    p.status.Completed? || p.status.Stopped? || p.status.Failed? || p.status.Blocked?
  }

  /** What the log said so far allows this entry to come next. */
  predicate MayFollow(p: Picture, e: Entry) {
    match e.event
    case ToolPrepared(c) => c !in p.calls && !RunOver(p)
    case ToolMoved(c, target) => c in p.calls && CallMay(p.calls[c].status, target)
    case ApprovalRequestedFor(c, id) =>
      && CallIs(p, c, InvocationStatus.Prepared) && c !in p.approvals && id !in p.owners && p.status.Running?
    case ApprovalDecided(id, approver, _, _) =>
      ApprovalIs(p, id, Pending) && p.status.WaitingApproval? && e.actor == approver
    case ApprovalClaimed(id, intent) =>
      ApprovalIs(p, id, ApprovalStatus.Approved) && p.status.WaitingApproval? && p.owners[id] == intent
    case ApprovalClaimRecovered(id) =>
      && ApprovalIs(p, id, Claimed) && p.status.Running? && CallIs(p, p.owners[id], InvocationStatus.Prepared)
    case ApprovalConsumed(id, target) =>
      && ApprovalIs(p, id, Claimed) && p.status.Running? && CallIs(p, p.owners[id], target)
      && (target.Succeeded? || target.Failed? || target.TimedOut?)
    case ApprovalInvalidated(id) =>
      || ApprovalIs(p, id, Pending) || ApprovalIs(p, id, ApprovalStatus.Approved)
      || (ApprovalIs(p, id, Claimed) && CallIs(p, p.owners[id], InvocationStatus.Prepared))
    case ApprovalExpiredAt(id) => ApprovalIs(p, id, Pending) || ApprovalIs(p, id, ApprovalStatus.Approved)
    case RunMoved(to) => RunMay(p.status, to)
    case BudgetUpdated(key, _) => key !in p.ledger && !RunOver(p)
    case EvidenceRecorded(id) => id !in p.facts
    case EvidenceInvalidated(id) => id in p.facts && id !in p.dropped && !RunOver(p)
    case CheckpointWritten(id) => p.checkpoint != Some(id)
    case StepPlanned(n) => n !in p.steps && !RunOver(p)
    case LeaseAcquired => p.holder.None?
    case LeaseTakenOver => p.holder.Some?
    case LeaseReleased => p.holder.Some?
    case _ => true
  }

  function Replay(p: Picture, log: AuditLog): Picture
    decreases |log|
  {
    if log == [] then p else Told(Replay(p, log[..|log| - 1]), log[|log| - 1].entry)
  }

  lemma {:induction false} ReplayTwice(p: Picture, x: AuditLog, y: AuditLog)
    ensures Replay(p, x + y) == Replay(Replay(p, x), y)
    decreases |y|
  {
    hide Told;
    if y == [] {
      assert x + y == x;
    } else {
      var n := |y| - 1;
      assert (x + y)[..|x + y| - 1] == x + y[..n];
      ReplayTwice(p, x, y[..n]);
    }
  }

  /** Every entry is allowed by those before it. */
  predicate Legal(p: Picture, log: AuditLog)
    decreases |log|
  {
    log != [] ==>
      Legal(p, log[..|log| - 1]) && MayFollow(Replay(p, log[..|log| - 1]), log[|log| - 1].entry)
  }

  lemma {:induction false} LegalTwice(p: Picture, x: AuditLog, y: AuditLog)
    requires Legal(p, x) && Legal(Replay(p, x), y)
    ensures Legal(p, x + y)
    decreases |y|
  {
    hide MayFollow, Told;
    if y == [] {
      assert x + y == x;
    } else {
      var n := |y| - 1;
      assert (x + y)[..|x + y| - 1] == x + y[..n];
      LegalTwice(p, x, y[..n]);
      ReplayTwice(p, x, y[..n]);
    }
  }

  // ---------- the rows that it describes ----------

  /** From its first move on, the run's row says why and when it ended exactly if it did. */
  predicate RunRowOk(run: Run) {
    run.status.New? ||
    (&& (run.stopReason.Some? <==> run.status.Stopped? || run.status.Failed? || run.status.Blocked?)
     && (run.endedAt.Some? <==> TerminalRun(run.status))
     && (run.status.Completed? ==> !run.acceptance.NotEvaluated?)
     && (run.stopReason == Some(StopReason.BudgetExhausted) ==> run.acceptance.NotEvaluated?))
  }

  /** A call has an error exactly if it ended without success, and only a repeatable one has timed out. */
  predicate CallRowOk(i: Invocation) {
    && (i.error.None? <==> i.status.Prepared? || i.status.Started? || i.status.Succeeded?)
    && (i.status.TimedOut? ==> i.idempotent)
  }

  ghost predicate Depicts(p: Picture, db: Db) {
    && p.status == db.run.status && p.revision == db.run.revision && p.ended == db.run.endedAt
    && p.checkpoint == db.run.lastCheckpoint
    && p.steps == db.steps && p.ledger == db.ledger && p.facts == db.evidence.Keys
    && (forall e :: e in p.dropped ==> e in db.evidence && !db.evidence[e].valid)
    && p.holder == (if db.lease.Some? then Some(db.lease.value.owner) else None)
    && p.calls.Keys == db.calls.Keys
    && (forall c :: c in db.calls ==>
          p.calls[c] == CallPicture(db.calls[c].status, db.calls[c].revision, db.calls[c].updatedAt))
    && p.approvals.Keys == db.approvals.Keys
    && (forall c :: c in db.approvals ==>
          && p.approvals[c] == ApprovalPicture(db.approvals[c].status, db.approvals[c].revision)
          && db.approvals[c].id in p.owners && p.owners[db.approvals[c].id] == c)
    && (forall id :: id in p.owners ==> id < db.nextId)
    && (forall e :: e in db.evidence ==> e < db.nextId)
    && RunRowOk(db.run) && (forall c :: c in db.calls ==> CallRowOk(db.calls[c]))
  }

  function News(a: Db, b: Db): AuditLog
    requires a.audit <= b.audit
  {
    b.audit[|a.audit|..]
  }

  /** Whoever knew the rows before knows them after, from the new entries alone. */
  ghost predicate Tells(a: Db, b: Db) {
    && a.audit <= b.audit
    && forall p :: Depicts(p, a) ==> Depicts(Replay(p, News(a, b)), b) && Legal(p, News(a, b))
  }

  lemma TellsNothing(a: Db)
    ensures Tells(a, a)
  {
    assert News(a, a) == [];
  }

  lemma TellsTransitive(a: Db, b: Db, c: Db)
    requires Tells(a, b) && Tells(b, c)
    ensures Tells(a, c)
  {
    hide Depicts, Told, Legal;
    assert News(a, c) == News(a, b) + News(b, c);
    forall p | Depicts(p, a) ensures Depicts(Replay(p, News(a, c)), c) && Legal(p, News(a, c)) {
      ReplayTwice(p, News(a, b), News(b, c));
      assert Depicts(Replay(p, News(a, b)), b);
      LegalTwice(p, News(a, b), News(b, c));
    }
  }

  /** One entry for one change of the rows. */
  lemma OneEntry(a: Db, x: Db, u: Unit, event: Event)
    requires x.audit == a.audit
    requires forall p :: Depicts(p, a) ==> Adds(p, Entry(u.actor, u.now, event), x)
    ensures Tells(a, Log(x, u, event))
  {
    hide Told, MayFollow, Depicts;
    var b := Log(x, u, event);
    assert |News(a, b)| == 1 && News(a, b)[0].entry == Entry(u.actor, u.now, event);
    forall p | Depicts(p, a) ensures Depicts(Replay(p, News(a, b)), b) && Legal(p, News(a, b)) {
      assert Adds(p, Entry(u.actor, u.now, event), x);
      assert News(a, b)[..0] == [];
      assert Replay(p, News(a, b)[..0]) == p;
      LogKeepsRows(x, u, event, Told(p, Entry(u.actor, u.now, event)));
    }
  }

  /** The entry may come next, and says what became of the rows. */
  ghost predicate Adds(p: Picture, e: Entry, x: Db) {
    MayFollow(p, e) && Depicts(Told(p, e), x)
  }

  lemma LogKeepsRows(x: Db, u: Unit, event: Event, p: Picture)
    requires Depicts(p, x)
    ensures Depicts(p, Log(x, u, event))
  {
  }

  // ---------- the operations of the state store ----------

  lemma RunTells(db: Db, u: Unit, expected: RunStatus, revision: nat, target: RunStatus, stop: Option<StopReason>,
                 verdict: Option<Acceptance>)
    requires TransitionRun(db, u, expected, revision, target, stop, verdict).Ok?
    ensures Tells(db, TransitionRun(db, u, expected, revision, target, stop, verdict).value)
  {
    hide Quiet, Evolves, Tells, Told, MayFollow, Depicts, RunRowOk;
    var kept := if stop == Some(StopReason.BudgetExhausted) then NotEvaluated else verdict.GetOr(db.run.acceptance);
    var run := db.run.(status := target, stopReason := stop, acceptance := kept,
                       endedAt := if TerminalRun(target) then Some(u.now) else None, revision := db.run.revision + 1);
    MovedRun(db.run, run);
    var e := Entry(u.actor, u.now, RunMoved(target));
    forall p | Depicts(p, db) ensures Adds(p, e, db.(run := run)) {
      RunPicture(p, db, run, e);
    }
    OneEntry(db, db.(run := run), u, RunMoved(target));
  }

  lemma MovedRun(a: Run, b: Run)
    requires b.status.Completed? ==> !b.acceptance.NotEvaluated?
    requires b.stopReason.Some? == (b.status.Stopped? || b.status.Failed? || b.status.Blocked?)
    requires b.endedAt.Some? == TerminalRun(b.status)
    requires b.stopReason == Some(StopReason.BudgetExhausted) ==> b.acceptance.NotEvaluated?
    requires RunMoveAllowed(a.status, b.status)
    ensures RunRowOk(b) && RunMay(a.status, b.status)
  {
  }

  lemma RunPicture(p: Picture, db: Db, run: Run, e: Entry)
    requires Depicts(p, db) && e.event == RunMoved(run.status) && run.revision == db.run.revision + 1
    requires run.endedAt == (if TerminalRun(run.status) then Some(e.at) else None)
    requires run.lastCheckpoint == db.run.lastCheckpoint && RunRowOk(run) && RunMay(db.run.status, run.status)
    ensures Adds(p, e, db.(run := run))
  {
    hide RunRowOk, CallRowOk, RunMay;
  }

  lemma StepTells(db: Db, u: Unit, n: nat, revision: nat)
    requires CreateStep(db, u, n, revision).Ok?
    ensures Tells(db, CreateStep(db, u, n, revision).value)
  {
    hide Quiet, Evolves, Tells, Told, MayFollow, Depicts;
    var e := Entry(u.actor, u.now, StepPlanned(n));
    forall p | Depicts(p, db) ensures Adds(p, e, Touch(db.(steps := db.steps + {n}))) {
      StepPicture(p, db, n, e);
    }
    OneEntry(db, Touch(db.(steps := db.steps + {n})), u, StepPlanned(n));
  }

  lemma StepPicture(p: Picture, db: Db, n: nat, e: Entry)
    requires Depicts(p, db) && e.event == StepPlanned(n) && n !in db.steps && !TerminalRun(db.run.status)
    ensures Adds(p, e, Touch(db.(steps := db.steps + {n})))
  {
    hide CallRowOk;
  }

  lemma CallTells(db: Db, u: Unit, c: CallId, i: Invocation, revision: nat)
    requires CreateInvocation(db, u, c, i, revision).Ok?
    requires i.revision == 0 && i.updatedAt == u.now && i.error.None?
    ensures Tells(db, CreateInvocation(db, u, c, i, revision).value)
  {
    hide Quiet, Evolves, Tells, Told, MayFollow, Depicts;
    var e := Entry(u.actor, u.now, ToolPrepared(c));
    forall p | Depicts(p, db) ensures Adds(p, e, Touch(db.(calls := db.calls[c := i]))) {
      CallPictured(p, db, c, i, e);
    }
    OneEntry(db, Touch(db.(calls := db.calls[c := i])), u, ToolPrepared(c));
  }

  lemma CallPictured(p: Picture, db: Db, c: CallId, i: Invocation, e: Entry)
    requires Depicts(p, db) && e.event == ToolPrepared(c) && c !in db.calls && !TerminalRun(db.run.status)
    requires i.status.Prepared? && i.revision == 0 && i.updatedAt == e.at && i.error.None?
    ensures Adds(p, e, Touch(db.(calls := db.calls[c := i])))
  {
    CallFollows(p, db, c, e);
    hide MayFollow, RunRowOk;
    RowTouched(db.run);
  }

  lemma CallFollows(p: Picture, db: Db, c: CallId, e: Entry)
    requires Depicts(p, db) && e.event == ToolPrepared(c) && c !in db.calls && !TerminalRun(db.run.status)
    ensures MayFollow(p, e)
  {
    hide RunRowOk, CallRowOk;
  }

  /** Raising the revision changes nothing else about the run's row. */
  lemma RowTouched(run: Run)
    ensures RunRowOk(run) ==> RunRowOk(run.(revision := run.revision + 1))
  {
  }

  lemma MoveTells(db: Db, u: Unit, c: CallId, expected: InvocationStatus, revision: nat, target: InvocationStatus,
                  error: Option<ErrorCode>)
    requires TransitionInvocation(db, u, c, expected, revision, target, error).Ok?
    requires target.Started? ==> error.None?
    ensures Tells(db, TransitionInvocation(db, u, c, expected, revision, target, error).value)
  {
    hide Quiet, Evolves, Tells, Told, MayFollow, Depicts;
    var i := db.calls[c];
    var moved := i.(status := target, error := error, revision := i.revision + 1, updatedAt := u.now);
    var x, e := Touch(db.(calls := db.calls[c := moved])), Entry(u.actor, u.now, ToolMoved(c, target));
    forall p | Depicts(p, db) ensures Adds(p, e, x) {
      MovePicture(p, db, c, moved, e);
    }
    OneEntry(db, x, u, ToolMoved(c, target));
  }

  lemma MovePicture(p: Picture, db: Db, c: CallId, moved: Invocation, e: Entry)
    requires Depicts(p, db) && c in db.calls && e.event == ToolMoved(c, moved.status)
    requires moved.revision == db.calls[c].revision + 1 && moved.updatedAt == e.at
    requires CallMay(db.calls[c].status, moved.status) && CallRowOk(moved)
    ensures Adds(p, e, Touch(db.(calls := db.calls[c := moved])))
  {
    hide RunRowOk, CallRowOk, CallMay;
    RowTouched(db.run);
  }

  lemma FactTells(db: Db, u: Unit, fact: Evidence)
    requires AddEvidence(db, u, fact).Ok?
    ensures Tells(db, AddEvidence(db, u, fact).value)
  {
    hide Quiet, Evolves, Tells, Told, MayFollow, Depicts;
    var id := db.nextId;
    var x := Touch(db.(evidence := db.evidence[id := fact], nextId := id + 1));
    var e := Entry(u.actor, u.now, EvidenceRecorded(id));
    forall p | Depicts(p, db) ensures Adds(p, e, x) {
      FactPicture(p, db, fact, e);
    }
    OneEntry(db, x, u, EvidenceRecorded(id));
  }

  lemma FactPicture(p: Picture, db: Db, fact: Evidence, e: Entry)
    requires Depicts(p, db) && e.event == EvidenceRecorded(db.nextId)
    ensures Adds(p, e, Touch(db.(evidence := db.evidence[db.nextId := fact], nextId := db.nextId + 1)))
  {
    hide RunRowOk, CallRowOk;
    RowTouched(db.run);
    assert db.evidence[db.nextId := fact].Keys == db.evidence.Keys + {db.nextId};
  }

  lemma DropTells(db: Db, u: Unit, id: nat)
    requires InvalidateEvidence(db, u, id).Ok?
    ensures Tells(db, InvalidateEvidence(db, u, id).value)
  {
    hide Quiet, Evolves, Tells, Told, MayFollow, Depicts;
    TellsNothing(db);
    if db.evidence[id].valid {
      var stale := db.evidence[id].(valid := false);
      var x, e := Touch(db.(evidence := db.evidence[id := stale])), Entry(u.actor, u.now, EvidenceInvalidated(id));
      forall p | Depicts(p, db) ensures Adds(p, e, x) {
        DropPicture(p, db, id, e);
      }
      OneEntry(db, x, u, EvidenceInvalidated(id));
    }
  }

  lemma DropPicture(p: Picture, db: Db, id: nat, e: Entry)
    requires Depicts(p, db) && e.event == EvidenceInvalidated(id) && !TerminalRun(db.run.status)
    requires id in db.evidence && db.evidence[id].valid
    ensures Adds(p, e, Touch(db.(evidence := db.evidence[id := db.evidence[id].(valid := false)])))
  {
    hide RunRowOk, CallRowOk;
    RowTouched(db.run);
  }

  lemma ChargeTells(db: Db, u: Unit, key: LedgerKey, delta: nat, revision: nat)
    requires RecordBudgetDelta(db, u, key, delta, revision).Ok?
    ensures Tells(db, RecordBudgetDelta(db, u, key, delta, revision).value)
  {
    hide Quiet, Evolves, Tells, Told, MayFollow, Depicts;
    TellsNothing(db);
    if key !in db.ledger {
      var used := db.run.used.Put(key.category, db.run.used.Get(key.category) + delta);
      var charged := db.(ledger := db.ledger[key := delta], run := db.run.(used := used));
      var e := Entry(u.actor, u.now, BudgetUpdated(key, delta));
      forall p | Depicts(p, db) ensures Adds(p, e, Touch(charged)) {
        ChargePicture(p, db, used, e);
      }
      OneEntry(db, Touch(charged), u, BudgetUpdated(key, delta));
    }
  }

  lemma ChargePicture(p: Picture, db: Db, used: Usage, e: Entry)
    requires Depicts(p, db) && e.event.BudgetUpdated? && e.event.key !in db.ledger && !TerminalRun(db.run.status)
    ensures Adds(p, e, Touch(db.(ledger := db.ledger[e.event.key := e.event.delta], run := db.run.(used := used))))
  {
    hide CallRowOk;
  }

  lemma MarkTells(db: Db, u: Unit, id: nat)
    requires MarkCheckpointWritten(db, u, id).Ok?
    ensures Tells(db, MarkCheckpointWritten(db, u, id).value)
  {
    hide Quiet, Evolves, Tells, Told, MayFollow, Depicts;
    TellsNothing(db);
    if db.run.lastCheckpoint != Some(id) {
      var x := Touch(db.(run := db.run.(lastCheckpoint := Some(id))));
      var e := Entry(u.actor, u.now, CheckpointWritten(id));
      forall p | Depicts(p, db) ensures Adds(p, e, x) {
        MarkPicture(p, db, id, e);
      }
      OneEntry(db, x, u, CheckpointWritten(id));
    }
  }

  lemma MarkPicture(p: Picture, db: Db, id: nat, e: Entry)
    requires Depicts(p, db) && e.event == CheckpointWritten(id) && db.run.lastCheckpoint != Some(id)
    ensures Adds(p, e, Touch(db.(run := db.run.(lastCheckpoint := Some(id)))))
  {
    hide CallRowOk;
  }

  lemma NoteTells(db: Db, u: Unit)
    requires Note(db, u).Ok?
    ensures Tells(db, Note(db, u).value)
  {
    hide Quiet, Evolves, Tells, Told, MayFollow, Depicts;
    var e := Entry(u.actor, u.now, HarnessNote);
    forall p | Depicts(p, db) ensures Adds(p, e, Touch(db)) {
      NotePicture(p, db, e);
    }
    OneEntry(db, Touch(db), u, HarnessNote);
  }

  lemma NotePicture(p: Picture, db: Db, e: Entry)
    requires Depicts(p, db) && e.event.HarnessNote?
    ensures Adds(p, e, Touch(db))
  {
    hide RunRowOk, CallRowOk;
    RowTouched(db.run);
  }

  lemma AcquireTells(db: Db, u: Unit, ttl: nat)
    requires AcquireLease(db, u, ttl).Ok?
    ensures Tells(db, AcquireLease(db, u, ttl).value)
  {
    hide Quiet, Evolves, Tells, Told, MayFollow, Depicts;
    var taken := db.(lease := Some(Lease(db.nextToken, u.actor, u.now + ttl)), nextToken := db.nextToken + 1);
    var event := if db.lease.Some? then LeaseTakenOver else LeaseAcquired;
    forall p | Depicts(p, db) ensures Adds(p, Entry(u.actor, u.now, event), taken) {
      LeasePicture(p, db, taken, Entry(u.actor, u.now, event));
    }
    OneEntry(db, taken, u, event);
  }

  lemma LeasePicture(p: Picture, db: Db, taken: Db, e: Entry)
    requires Depicts(p, db) && e.event == if db.lease.Some? then LeaseTakenOver else LeaseAcquired
    requires taken == db.(lease := taken.lease, nextToken := taken.nextToken)
    requires taken.lease.Some? && taken.lease.value.owner == e.actor
    ensures Adds(p, e, taken)
  {
    hide RunRowOk, CallRowOk;
  }

  lemma RenewTells(db: Db, u: Unit, ttl: nat)
    requires RenewLease(db, u, ttl).Ok?
    ensures Tells(db, RenewLease(db, u, ttl).value)
  {
    hide Quiet, Evolves;
    assert News(db, RenewLease(db, u, ttl).value) == [];
  }

  lemma ReleaseTells(db: Db, u: Unit)
    requires ReleaseLease(db, u).Ok?
    ensures Tells(db, ReleaseLease(db, u).value)
  {
    hide Quiet, Evolves, Tells, Told, MayFollow, Depicts;
    var e := Entry(u.actor, u.now, LeaseReleased);
    forall p | Depicts(p, db) ensures Adds(p, e, db.(lease := None)) {
      ReleasePicture(p, db, e);
    }
    OneEntry(db, db.(lease := None), u, LeaseReleased);
  }

  lemma ReleasePicture(p: Picture, db: Db, e: Entry)
    requires Depicts(p, db) && e.event.LeaseReleased? && db.lease.Some?
    ensures Adds(p, e, db.(lease := None))
  {
    hide RunRowOk, CallRowOk;
  }

  // ---------- the operations of the approval store ----------

  /** What an event about an approval row says of it, and when it may be made. */
  predicate ApprovalEvent(db: Db, c: CallId, e: Entry, status: ApprovalStatus)
    requires c in db.approvals
  {
    var a := db.approvals[c];
    match e.event
    case ApprovalDecided(id, approver, _, granted) =>
      && id == a.id && a.status.Pending? && db.run.status.WaitingApproval? && e.actor == approver
      && status == if granted then ApprovalStatus.Approved else ApprovalStatus.Rejected
    case ApprovalClaimed(id, intent) =>
      id == a.id && status.Claimed? && a.status.Approved? && db.run.status.WaitingApproval? && intent == c
    case ApprovalConsumed(id, target) =>
      && id == a.id && status.Consumed? && a.status.Claimed? && db.run.status.Running?
      && c in db.calls && db.calls[c].status == target && (target.Succeeded? || target.Failed? || target.TimedOut?)
    case ApprovalInvalidated(id) =>
      && id == a.id && status.Invalidated?
      && (a.status.Pending? || a.status.Approved?
          || (a.status.Claimed? && c in db.calls && db.calls[c].status.Prepared?))
    case ApprovalExpiredAt(id) => id == a.id && status.Expired? && (a.status.Pending? || a.status.Approved?)
    case _ => false
  }

  lemma PutTells(db: Db, u: Unit, c: CallId, a: Approval, event: Event)
    requires c in db.approvals && a.id == db.approvals[c].id && a.revision == db.approvals[c].revision
    requires ApprovalEvent(db, c, Entry(u.actor, u.now, event), a.status)
    ensures Tells(db, Log(PutApproval(db, c, a), u, event))
  {
    hide Quiet, Evolves, Tells, Told, MayFollow, Depicts, ApprovalEvent;
    var e := Entry(u.actor, u.now, event);
    forall p | Depicts(p, db) ensures Adds(p, e, PutApproval(db, c, a)) {
      ApprovalPictured(p, db, c, a, e);
    }
    OneEntry(db, PutApproval(db, c, a), u, event);
  }

  /** A row that moved on: one revision more, the same identity. */
  lemma ApprovalPictured(p: Picture, db: Db, c: CallId, a: Approval, e: Entry)
    requires Depicts(p, db) && c in db.approvals && a.id == db.approvals[c].id
    requires a.revision == db.approvals[c].revision && ApprovalEvent(db, c, e, a.status)
    ensures Adds(p, e, PutApproval(db, c, a))
  {
    hide Quiet, Evolves, Told, ApprovalEvent, MayFollow, Depicts, ApprovalMoved;
    ToldOfApproval(p, db, c, a.status, e);
    RowMoved(p, db, c, a);
    PutIs(db, c, a);
  }

  lemma PutIs(db: Db, c: CallId, a: Approval)
    requires c in db.approvals
    ensures PutApproval(db, c, a) == db.(approvals := db.approvals[c := a.(revision := a.revision + 1)])
  {
    hide Quiet;
  }

  lemma ToldOfApproval(p: Picture, db: Db, c: CallId, status: ApprovalStatus, e: Entry)
    requires Depicts(p, db) && c in db.approvals && ApprovalEvent(db, c, e, status)
    ensures Told(p, e) == ApprovalMoved(p, db.approvals[c].id, status)
    ensures MayFollow(p, e)
  {
    hide ApprovalMoved, RunRowOk, CallRowOk;
  }

  lemma RowMoved(p: Picture, db: Db, c: CallId, a: Approval)
    requires Depicts(p, db) && c in db.approvals && a.id == db.approvals[c].id
    requires a.revision == db.approvals[c].revision
    ensures Depicts(ApprovalMoved(p, a.id, a.status),
                    db.(approvals := db.approvals[c := a.(revision := a.revision + 1)]))
  {
    hide RunRowOk, CallRowOk;
  }

  lemma CreateFollows(p: Picture, db: Db, c: CallId, e: Entry)
    requires Depicts(p, db) && c in db.calls && c !in db.approvals && e.event == ApprovalRequestedFor(c, db.nextId)
    requires db.calls[c].status.Prepared? && db.run.status.Running?
    ensures MayFollow(p, e)
    ensures Told(p, e)
         == CallMoved(p, c, db.calls[c].status, e.at).(owners := p.owners[db.nextId := c],
                                                      approvals := p.approvals[c := ApprovalPicture(Pending, 0)])
  {
    hide RunRowOk, CallRowOk, CallMoved;
  }

  lemma CallTouched(p: Picture, db: Db, c: CallId, linked: Invocation, at: Time)
    requires Depicts(p, db) && c in db.calls
    requires linked == db.calls[c].(approval := linked.approval, revision := db.calls[c].revision + 1, updatedAt := at)
    ensures Depicts(CallMoved(p, c, db.calls[c].status, at), db.(calls := db.calls[c := linked]))
  {
    hide RunRowOk;
  }

  lemma RowAdded(p: Picture, db: Db, c: CallId, a: Approval)
    requires Depicts(p, db) && c !in db.approvals && a.id == db.nextId && a.status.Pending? && a.revision == 0
    ensures Depicts(p.(owners := p.owners[a.id := c], approvals := p.approvals[c := ApprovalPicture(Pending, 0)]),
                    db.(approvals := db.approvals[c := a], nextId := a.id + 1))
  {
    hide RunRowOk, CallRowOk;
  }

  lemma CreatePicture(p: Picture, db: Db, c: CallId, a: Approval, linked: Invocation, e: Entry)
    requires Depicts(p, db) && c in db.calls && c !in db.approvals && e.event == ApprovalRequestedFor(c, a.id)
    requires db.calls[c].status.Prepared? && db.run.status.Running?
    requires a.id == db.nextId && a.status.Pending? && a.revision == 0
    requires linked == db.calls[c].(approval := linked.approval, revision := db.calls[c].revision + 1,
             updatedAt := e.at)
    ensures Adds(p, e, db.(approvals := db.approvals[c := a], calls := db.calls[c := linked], nextId := a.id + 1))
  {
    hide Depicts, MayFollow, Told;
    CreateFollows(p, db, c, e);
    CallTouched(p, db, c, linked, e.at);
    var q := CallMoved(p, c, db.calls[c].status, e.at);
    RowAdded(q, db.(calls := db.calls[c := linked]), c, a);
    assert q.owners == p.owners && q.approvals == p.approvals;
  }

  lemma CreateTells(db: Db, u: Unit, ask: Ask)
    requires ApprovalStore.Create(db, u, ask).Ok?
    ensures Tells(db, ApprovalStore.Create(db, u, ask).value)
  {
    hide Quiet, Evolves, BindingOf, BindingHolds, Tells, Told, MayFollow, Depicts;
    var c := ask.call;
    TellsNothing(db);
    if c !in db.approvals {
      var i, expiresAt := db.calls[c], u.now + ask.ttl;
      var binding := BindingOf(db.run, c, i.tool, i.digest, ask.requestedBy, ask.roles, u.now, expiresAt);
      var a := Approval(db.nextId, i.tool, i.digest, binding, ask.requestedBy, ask.roles, ApprovalStatus.Pending, 0,
                        u.now, expiresAt, None, None, None, None, None, None);
      var linked := i.(approval := Some(a.id), revision := i.revision + 1, updatedAt := u.now);
      var x := db.(approvals := db.approvals[c := a], calls := db.calls[c := linked], nextId := a.id + 1);
      var e := Entry(u.actor, u.now, ApprovalRequestedFor(c, a.id));
      forall p | Depicts(p, db) ensures Adds(p, e, x) {
        CreatePicture(p, db, c, a, linked, e);
      }
      OneEntry(db, x, u, ApprovalRequestedFor(c, a.id));
    }
  }

  lemma StopTells(db: Db, u: Unit, reason: StopReason)
    requires StopRun(db, u, reason).Ok?
    ensures Tells(db, StopRun(db, u, reason).value)
  {
    hide Quiet, Evolves, Tells, TransitionRun;
    RunTells(db, u, WaitingApproval, db.run.revision, Stopped, Some(reason), Some(NotEvaluated));
  }

  lemma ExpireTells(db: Db, u: Unit, c: CallId)
    requires c in db.approvals && Active(db.approvals[c].status) && Expire(db, u, c).Ok?
    ensures Tells(db, Expire(db, u, c).value)
  {
    hide Quiet, Evolves, Tells, StopRun;
    var a := db.approvals[c];
    var marked := Log(PutApproval(db, c, a.(status := ApprovalStatus.Expired)), u, ApprovalExpiredAt(a.id));
    PutTells(db, u, c, a.(status := ApprovalStatus.Expired), ApprovalExpiredAt(a.id));
    if marked.run.status.WaitingApproval? {
      StopTells(marked, u, StopReason.ApprovalExpired);
      TellsTransitive(db, marked, StopRun(marked, u, StopReason.ApprovalExpired).value);
    }
  }

  lemma MaterializeTells(db: Db, u: Unit, c: CallId)
    requires c in db.approvals && MaterializeExpiry(db, u, c).Ok?
    ensures Tells(db, MaterializeExpiry(db, u, c).value)
  {
    hide Quiet, Evolves, Tells, Expire;
    if Due(db.approvals[c], u.now) {
      ExpireTells(db, u, c);
    } else {
      TellsNothing(db);
    }
  }

  lemma LoadTells(db: Db, u: Unit, c: CallId)
    requires Load(db, u, c).Ok?
    ensures Tells(db, Load(db, u, c).value)
  {
    hide Quiet, Evolves, Tells, MaterializeExpiry;
    MaterializeTells(db, u, c);
  }

  lemma ClaimTells(db0: Db, u: Unit, c: CallId, revision: nat, intent: CallId)
    requires Claim(db0, u, c, revision, intent).Ok?
    ensures Tells(db0, Claim(db0, u, c, revision, intent).value)
  {
    hide Quiet, Evolves, Tells, MaterializeExpiry, BindingHolds;
    MaterializeTells(db0, u, c);
    var db := MaterializeExpiry(db0, u, c).value;
    var a := db.approvals[c];
    var claimed := a.(status := ApprovalStatus.Claimed, claimedAt := Some(u.now), intent := Some(intent));
    PutTells(db, u, c, claimed, ApprovalClaimed(a.id, intent));
    TellsTransitive(db0, db, Claim(db0, u, c, revision, intent).value);
  }

  lemma ResumeTells(db: Db, u: Unit, c: CallId, revision: nat, intent: CallId)
    requires ResumeClaim(db, u, c, revision, intent).Ok?
    ensures Tells(db, ResumeClaim(db, u, c, revision, intent).value)
  {
    hide Quiet, Evolves, BindingHolds, Depicts, Tells, Told, MayFollow;
    var e := Entry(u.actor, u.now, ApprovalClaimRecovered(db.approvals[c].id));
    forall p | Depicts(p, db) ensures Adds(p, e, db) {
      BoundCall(db, c);
      ResumePicture(p, db, c, e);
    }
    OneEntry(db, db, u, ApprovalClaimRecovered(db.approvals[c].id));
  }

  lemma BoundCall(db: Db, c: CallId)
    requires c in db.approvals
    ensures BindingHolds(db, c) ==> c in db.calls
  {
  }

  lemma ResumePicture(p: Picture, db: Db, c: CallId, e: Entry)
    requires Depicts(p, db) && c in db.approvals && db.approvals[c].status.Claimed? && db.run.status.Running?
    requires c in db.calls && db.calls[c].status.Prepared?
    requires e.event == ApprovalClaimRecovered(db.approvals[c].id)
    ensures Adds(p, e, db)
  {
    hide RunRowOk, CallRowOk;
  }

  lemma ConsumeTells(db: Db, u: Unit, c: CallId, revision: nat, intent: CallId, result: InvocationStatus,
                     code: Option<ErrorCode>)
    requires Consume(db, u, c, revision, intent, result, code).Ok?
    ensures Tells(db, Consume(db, u, c, revision, intent, result, code).value)
  {
    hide Quiet, Evolves, Tells;
    var a := db.approvals[c];
    var consumed := a.(status := ApprovalStatus.Consumed, consumedAt := Some(u.now), consumptionCode := code);
    PutTells(db, u, c, consumed, ApprovalConsumed(a.id, result));
  }

  lemma InvalidateTells(db0: Db, u: Unit, c: CallId, revision: nat)
    requires Invalidate(db0, u, c, revision).Ok?
    ensures Tells(db0, Invalidate(db0, u, c, revision).value)
  {
    hide Quiet, Evolves, Tells, MaterializeExpiry;
    MaterializeTells(db0, u, c);
    var db := MaterializeExpiry(db0, u, c).value;
    var a := db.approvals[c];
    var withdrawn := a.(status := Invalidated, claimedAt := None, intent := None, consumedAt := None,
                        consumptionCode := None);
    PutTells(db, u, c, withdrawn, ApprovalInvalidated(a.id));
    TellsTransitive(db0, db, Invalidate(db0, u, c, revision).value);
  }

  lemma DecideTells(db0: Db, u: Unit, c: CallId, revision: nat, approver: Actor, roles: set<Role>, grant: bool)
    requires Decide(db0, u, c, revision, approver, roles, grant).Ok?
    ensures Tells(db0, Decide(db0, u, c, revision, approver, roles, grant).value)
  {
    hide Quiet, Evolves, Tells, MaterializeExpiry, DecideCurrent;
    MaterializeTells(db0, u, c);
    var db := MaterializeExpiry(db0, u, c).value;
    DecideCurrentTells(db, u, c, revision, approver, roles, grant);
    TellsTransitive(db0, db, DecideCurrent(db, u, c, revision, approver, roles, grant).value);
  }

  lemma DecideCurrentTells(db: Db, u: Unit, c: CallId, revision: nat, approver: Actor, roles: set<Role>, grant: bool)
    requires DecideCurrent(db, u, c, revision, approver, roles, grant).Ok?
    ensures Tells(db, DecideCurrent(db, u, c, revision, approver, roles, grant).value)
  {
    hide Quiet, Evolves, Tells, StopRun;
    var a := db.approvals[c];
    var decided := a.(status := if grant then ApprovalStatus.Approved else ApprovalStatus.Rejected,
                      decidedAt := Some(u.now), decidedBy := Some(approver));
    var event := ApprovalDecided(a.id, approver, roles, grant);
    PutTells(db, u, c, decided, event);
    if !grant {
      var recorded := Log(PutApproval(db, c, decided), u, event);
      StopTells(recorded, u, StopReason.ApprovalRejected);
      TellsTransitive(db, recorded, StopRun(recorded, u, StopReason.ApprovalRejected).value);
    }
  }

  lemma {:induction false} ExpireEachTells(db: Db, u: Unit, ids: set<CallId>)
    requires ExpireEach(db, u, ids).Ok?
    ensures Tells(db, ExpireEach(db, u, ids).value)
    decreases |ids|
  {
    hide Quiet, Evolves, Tells, Expire, IsEarliest;
    if ids == {} {
      TellsNothing(db);
    } else {
      var c := Earliest(ids, RequestTimes(db.approvals));
      EarliestIsIn(ids, RequestTimes(db.approvals));
      if !Active(db.approvals[c].status) {
        ExpireEachTells(db, u, ids - {c});
      } else {
        ExpireTells(db, u, c);
        var next := Expire(db, u, c).value;
        ExpireEachTells(next, u, ids - {c});
        TellsTransitive(db, next, ExpireEach(next, u, ids - {c}).value);
      }
    }
  }

  lemma EarliestIsIn(ids: set<nat>, at: map<nat, Time>)
    requires ids != {} && ids <= at.Keys
    ensures Earliest(ids, at) in ids
  {
  }

  /** An entry that changes no row. */
  predicate Silent(e: Event) {
    e.RecoveryRecorded? || e.GateAllowed? || e.GatePending? || e.GateDenied?
  }

  lemma SilentEntry(db: Db, u: Unit, event: Event)
    requires Silent(event)
    ensures Tells(db, Log(db, u, event))
  {
    hide Depicts, Tells;
    forall p | Depicts(p, db) ensures Adds(p, Entry(u.actor, u.now, event), db) {
    }
    OneEntry(db, db, u, event);
  }

  // ---------- the Gate ----------

  lemma OpenTells(cfg: Config, db: Db, u: Unit, pass: Pass, existing: bool)
    requires OpenApproval(cfg, db, u, pass, existing).Ok?
    ensures Tells(db, OpenApproval(cfg, db, u, pass, existing).value)
  {
    hide Quiet, Evolves, CreateInvocation, ApprovalStore.Create, TransitionRun, Tells;
    var i := NewInvocation(pass, u.now);
    if existing {
      TellsNothing(db);
    } else {
      CallTells(db, u, pass.req.call, i, db.run.revision);
    }
    var prepared := if existing then db else CreateInvocation(db, u, pass.req.call, i, db.run.revision).value;
    var ask := Ask(pass.req.call, pass.digest, pass.req.actor, cfg.approvalRoles, cfg.approvalTtl);
    CreateTells(prepared, u, ask);
    var asked := ApprovalStore.Create(prepared, u, ask).value;
    TellsTransitive(db, prepared, asked);
    var waiting := if db.run.status.Running?
                   then TransitionRun(asked, u, Running, asked.run.revision, WaitingApproval, None, None).value
                   else asked;
    if db.run.status.Running? {
      RunTells(asked, u, Running, asked.run.revision, WaitingApproval, None, None);
      TellsTransitive(db, asked, waiting);
    }
    SilentEntry(waiting, u, GatePending(pass.req.call));
    TellsTransitive(db, waiting, Log(waiting, u, GatePending(pass.req.call)));
  }

  lemma PollTells(db: Db, u: Unit, req: Request)
    requires PollApproval(db, u, req).Ok?
    ensures Tells(db, PollApproval(db, u, req).value)
  {
    hide Quiet, Evolves, Load, Tells;
    LoadTells(db, u, req.call);
    var loaded := Load(db, u, req.call).value;
    SilentEntry(loaded, u, GatePending(req.call));
    TellsTransitive(db, loaded, Log(loaded, u, GatePending(req.call)));
  }

  lemma ClaimTransactionTells(db: Db, u: Unit, c: CallId)
    requires ClaimTransaction(db, u, c).Ok?
    ensures Tells(db, ClaimTransaction(db, u, c).value)
  {
    hide Quiet, Evolves, Load, Claim, TransitionRun, RecordBudgetDelta, Tells;
    LoadTells(db, u, c);
    LoadEffect(db, u, c);
    var loaded := Load(db, u, c).value;
    ClaimTells(loaded, u, c, loaded.approvals[c].revision, c);
    var claimed := Claim(loaded, u, c, loaded.approvals[c].revision, c).value;
    RunTells(claimed, u, WaitingApproval, claimed.run.revision, Running, None, None);
    var running := TransitionRun(claimed, u, WaitingApproval, claimed.run.revision, Running, None, None).value;
    ChargeTells(running, u, ToolCallKey(c), 1, running.run.revision);
    TellsTransitive(db, loaded, claimed);
    TellsTransitive(db, claimed, running);
    TellsTransitive(db, running, ClaimTransaction(db, u, c).value);
  }

  lemma AllowedTells(db: Db, x: Db, u: Unit, c: CallId)
    requires Tells(db, x)
    ensures Tells(db, Log(x, u, GateAllowed(c)))
  {
    hide Tells;
    SilentEntry(x, u, GateAllowed(c));
    TellsTransitive(db, x, Log(x, u, GateAllowed(c)));
  }

  lemma PrepareCallTells(db: Db, u: Unit, pass: Pass)
    requires PrepareAndAllow(db, u, pass).Ok?
    ensures Tells(db, PrepareAndAllow(db, u, pass).value)
  {
    hide Quiet, Evolves, CreateInvocation, RecordBudgetDelta, Tells;
    CallTells(db, u, pass.req.call, NewInvocation(pass, u.now), db.run.revision);
    var prepared := CreateInvocation(db, u, pass.req.call, NewInvocation(pass, u.now), db.run.revision).value;
    if pass.internal {
      AllowedTells(db, prepared, u, pass.req.call);
    } else {
      ChargeTells(prepared, u, ToolCallKey(pass.req.call), 1, prepared.run.revision);
      var charged := RecordToolBudget(prepared, u, pass.req.call).value;
      TellsTransitive(db, prepared, charged);
      AllowedTells(db, charged, u, pass.req.call);
    }
  }

  lemma ResumeOrClaimTells(db: Db, u: Unit, pass: Pass)
    requires ResumeOrClaim(db, u, pass).Ok?
    ensures Tells(db, ResumeOrClaim(db, u, pass).value)
  {
    hide Quiet, Evolves, Load, ClaimTransaction, ResumeClaim, Tells;
    var c := pass.req.call;
    LoadTells(db, u, c);
    LoadEffect(db, u, c);
    var loaded := Load(db, u, c).value;
    var a := loaded.approvals[c];
    if a.status.Claimed? {
      ResumeTells(loaded, u, c, a.revision, c);
      TellsTransitive(db, loaded, ResumeClaim(loaded, u, c, a.revision, c).value);
      AllowedTells(db, ResumeClaim(loaded, u, c, a.revision, c).value, u, c);
    } else {
      ClaimTransactionTells(loaded, u, c);
      TellsTransitive(db, loaded, ClaimTransaction(loaded, u, c).value);
      AllowedTells(db, ClaimTransaction(loaded, u, c).value, u, c);
    }
  }

  lemma {:induction false} FactsTell(db: Db, u: Unit, c: CallId, facts: seq<Fact>)
    requires AddFacts(db, u, c, facts).Ok?
    ensures Tells(db, AddFacts(db, u, c, facts).value)
    decreases |facts|
  {
    hide Quiet, Evolves, AddEvidence, Tells;
    if facts == [] {
      TellsNothing(db);
    } else {
      var fact := Evidence(Some(c), facts[0].kind, facts[0].path, facts[0].content, u.now, true);
      FactTells(db, u, fact);
      var next := AddEvidence(db, u, fact).value;
      FactsTell(next, u, c, facts[1..]);
      TellsTransitive(db, next, AddFacts(next, u, c, facts[1..]).value);
    }
  }

  lemma PersistTells(db: Db, u: Unit, pass: Pass, outcome: Outcome)
    requires PersistResult(db, u, pass, outcome).Ok?
    ensures Tells(db, PersistResult(db, u, pass, outcome).value)
  {
    hide Quiet, Evolves, AddFacts, TransitionInvocation, Load, Consume, MapOutcome, Tells;
    var c, target := pass.req.call, MapOutcome(outcome, pass.spec.idempotent);
    FactsTell(db, u, c, outcome.facts);
    var noted := AddFacts(db, u, c, outcome.facts).value;
    MoveTells(noted, u, c, InvocationStatus.Started, noted.calls[c].revision, target, outcome.error);
    var moved := TransitionInvocation(noted, u, c, InvocationStatus.Started, noted.calls[c].revision, target,
                                      outcome.error).value;
    TellsTransitive(db, noted, moved);
    if pass.approved && Deterministic(target) {
      LoadTells(moved, u, c);
      LoadEffect(moved, u, c);
      var loaded := Load(moved, u, c).value;
      ConsumeTells(loaded, u, c, loaded.approvals[c].revision, c, target, outcome.error);
      TellsTransitive(db, moved, loaded);
      TellsTransitive(db, loaded, PersistResult(db, u, pass, outcome).value);
    }
  }

  lemma StartTells(db: Db, u: Unit, c: CallId)
    requires MarkStarted(db, u, c).Ok?
    ensures Tells(db, MarkStarted(db, u, c).value)
  {
    hide Quiet, Evolves, TransitionInvocation, Tells;
    MoveTells(db, u, c, InvocationStatus.Prepared, db.calls[c].revision, InvocationStatus.Started, None);
  }

  lemma DenialTells(db: Db, u: Unit, req: Request, code: ErrorCode)
    ensures Tells(db, LogDenial(db, u, req, code))
  {
    hide Quiet, Evolves, Tells;
    TellsNothing(db);
    SilentEntry(db, u, GateDenied(req.call, code));
  }

  lemma TurnTells(cfg: Config, g: Gate, db: Db, now: Time, t: Token, outcome: Outcome)
    ensures Tells(db, TakeTurn(cfg, g, db, now, t, outcome).db)
  {
    hide Quiet, Evolves, OpenApproval, PollApproval, ClaimTransaction, PrepareAndAllow, ResumeOrClaim, MarkStarted,
         PersistResult, LogDenial, DecideInvoke, DecideReentry, DecideInternal, DecideLoad, Tells;
    TellsNothing(db);
    match g
    case OpeningApproval(pass, existing) =>
      var u := Unit(now, t, pass.req.actor);
      if OpenApproval(cfg, db, u, pass, existing).Ok? { OpenTells(cfg, db, u, pass, existing); }
    case AwaitingDecision(req) =>
      var u := Unit(now, t, req.actor);
      if PollApproval(db, u, req).Ok? { PollTells(db, u, req); }
    case ClaimingApproval(pass) =>
      var u := Unit(now, t, pass.req.actor);
      if ClaimTransaction(db, u, pass.req.call).Ok? {
        ClaimTransactionTells(db, u, pass.req.call);
        AllowedTells(db, ClaimTransaction(db, u, pass.req.call).value, u, pass.req.call);
      }
    case PreparingCall(pass) =>
      var u := Unit(now, t, pass.req.actor);
      if PrepareAndAllow(db, u, pass).Ok? { PrepareCallTells(db, u, pass); }
    case RecordingReentry(pass) => AllowedTells(db, db, Unit(now, t, pass.req.actor), pass.req.call);
    case ResumingClaim(pass) =>
      var u := Unit(now, t, pass.req.actor);
      if ResumeOrClaim(db, u, pass).Ok? { ResumeOrClaimTells(db, u, pass); }
    case Starting(pass) =>
      var u := Unit(now, t, pass.req.actor);
      if MarkStarted(db, u, pass.req.call).Ok? { StartTells(db, u, pass.req.call); }
    case Persisting(pass, result) =>
      var u := Unit(now, t, pass.req.actor);
      if PersistResult(db, u, pass, result).Ok? { PersistTells(db, u, pass, result); }
    case Denying(req, code) => DenialTells(db, Unit(now, t, req.actor), req, code);
    case _ =>
  }

  // ---------- recovery ----------

  /** A row that the log does not describe was added. */
  lemma UntoldRow(db: Db, x: Db)
    requires x == db.(checkpoints := x.checkpoints, recoveries := x.recoveries, nextId := x.nextId)
    requires db.nextId <= x.nextId
    ensures Tells(db, x)
  {
    assert News(db, x) == [];
  }

  lemma CheckpointTells(cfg: Config, db: Db, u: Unit, b: Boundary, world: World)
    requires CreateCheckpoint(cfg, db, u, b, world).Ok?
    ensures Tells(db, CreateCheckpoint(cfg, db, u, b, world).value.db)
  {
    hide Quiet, Evolves, TakeSnapshot, FindBoundary, BoundaryAllowed, MaxSequence, Tells, MarkCheckpointWritten;
    TellsNothing(db);
    if FindBoundary(db.checkpoints, b).None? {
      var row := NewCheckpoint(db, u, b, world);
      var inserted := db.(checkpoints := db.checkpoints + [row], nextId := row.id + 1);
      UntoldRow(db, inserted);
      MarkTells(inserted, u, row.id);
      TellsTransitive(db, inserted, MarkCheckpointWritten(inserted, u, row.id).value);
    }
  }

  lemma PlanTells(db: Db, u: Unit, key: RecoveryKey)
    ensures Tells(db, RecordPlan(db, u, key).db)
  {
    hide Quiet, Evolves, Tells;
    TellsNothing(db);
    if key !in db.recoveries {
      var plan := RecoveryPlan(db.nextId, key, u.now);
      var filed := db.(recoveries := db.recoveries[key := plan], nextId := plan.id + 1);
      UntoldRow(db, filed);
      SilentEntry(filed, u, RecoveryRecorded(plan.id));
      TellsTransitive(db, filed, Log(filed, u, RecoveryRecorded(plan.id)));
    }
  }

  lemma {:induction false} WithdrawEachTells(db: Db, u: Unit, ids: set<CallId>)
    requires WithdrawEach(db, u, ids).Ok?
    ensures Tells(db, WithdrawEach(db, u, ids).value)
    decreases |ids|
  {
    hide Quiet, Evolves, Tells, Invalidate, IsEarliest;
    if ids == {} {
      TellsNothing(db);
    } else {
      var c := Earliest(ids, RequestTimes(db.approvals));
      EarliestIsIn(ids, RequestTimes(db.approvals));
      InvalidateTells(db, u, c, db.approvals[c].revision);
      var next := Invalidate(db, u, c, db.approvals[c].revision).value;
      WithdrawEachTells(next, u, ids - {c});
      TellsTransitive(db, next, WithdrawEach(next, u, ids - {c}).value);
    }
  }

  lemma BlockTells(db: Db, u: Unit, action: RecoveryAction, stop: StopReason, reason: Option<ErrorCode>,
                   call: Option<CallId>, approval: Option<nat>)
    requires BlockAndRecord(db, u, action, stop, reason, call, approval).Ok?
    ensures Tells(db, BlockAndRecord(db, u, action, stop, reason, call, approval).value.db)
  {
    hide Quiet, Evolves, Tells, WithdrawEach, TransitionRun, RecordPlan, KeyFor, Withdrawable;
    WithdrawEachTells(db, u, Withdrawable(db));
    var withdrawn := WithdrawEach(db, u, Withdrawable(db)).value;
    var blocked := BlockRun(withdrawn, u, stop).value;
    TellsNothing(withdrawn);
    if withdrawn.run.status.Running? || withdrawn.run.status.WaitingApproval? {
      RunTells(withdrawn, u, withdrawn.run.status, withdrawn.run.revision, Blocked, Some(stop), Some(NotEvaluated));
    }
    TellsTransitive(db, withdrawn, blocked);
    var key := KeyFor(blocked, blocked.run.lastCheckpoint, action, NeedsReview, reason, call, approval);
    PlanTells(blocked, u, key);
    TellsTransitive(db, blocked, RecordPlan(blocked, u, key).db);
  }

  lemma MarkUnknownTells(db: Db, u: Unit, c: CallId)
    requires MarkUnknownAndRecord(db, u, c).Ok?
    ensures Tells(db, MarkUnknownAndRecord(db, u, c).value.db)
  {
    hide Quiet, Evolves, Tells, TransitionInvocation, BlockAndRecord;
    MoveTells(db, u, c, InvocationStatus.Started, db.calls[c].revision, InvocationStatus.UnknownResult,
        Some(ResultUnknown));
    var marked := TransitionInvocation(db, u, c, InvocationStatus.Started, db.calls[c].revision,
                                       InvocationStatus.UnknownResult, Some(ResultUnknown)).value;
    BlockTells(marked, u, MarkUnknownResult, StopReason.UnknownResult, Some(RecoveryManualReviewRequired), Some(c),
        None);
    TellsTransitive(db, marked, MarkUnknownAndRecord(db, u, c).value.db);
  }

  lemma RebuildTells(cfg: Config, db: Db, u: Unit, world: World, c: CallId)
    requires RebuildAndRecord(cfg, db, u, world, c).Ok?
    ensures Tells(db, RebuildAndRecord(cfg, db, u, world, c).value.db)
  {
    hide Quiet, Evolves, Tells, CreateCheckpoint, RecordPlan, KeyFor, RebuildBoundary;
    CheckpointTells(cfg, db, u, RebuildBoundary(db, c), world);
    var written := CreateCheckpoint(cfg, db, u, RebuildBoundary(db, c), world).value;
    var key := KeyFor(written.db, Some(written.checkpoint.id), RebuildCheckpointThenContinue, Resumable, None, Some(c),
                      db.calls[c].approval);
    PlanTells(written.db, u, key);
    TellsTransitive(db, written.db, RecordPlan(written.db, u, key).db);
  }

  lemma CarryOutTells(cfg: Config, db: Db, u: Unit, world: World, v: Verdict)
    requires CarryOut(cfg, db, u, world, v).Ok?
    ensures Tells(db, CarryOut(cfg, db, u, world, v).value.db)
  {
    hide Quiet, Evolves, Tells, RecordPlan, BlockAndRecord, MarkUnknownAndRecord, RebuildAndRecord, KeyFor;
    match v
    case Record(action, status, reason, call, approval) =>
      PlanTells(db, u, KeyFor(db, db.run.lastCheckpoint, action, status, reason, call, approval));
    case Block(action, stop, reason, call, approval) => BlockTells(db, u, action, stop, reason, call, approval);
    case MarkUnknown(c) => MarkUnknownTells(db, u, c);
    case Rebuild(c) => RebuildTells(cfg, db, u, world, c);
  }

  lemma {:induction false} InvalidateEachTells(db: Db, u: Unit, ids: set<nat>)
    requires InvalidateEach(db, u, ids).Ok?
    ensures Tells(db, InvalidateEach(db, u, ids).value)
    decreases |ids|
  {
    hide Quiet, Evolves, Tells, InvalidateEvidence, IsEarliest;
    if ids == {} {
      TellsNothing(db);
    } else {
      var e := Earliest(ids, RecordTimes(db.evidence));
      EarliestIsIn(ids, RecordTimes(db.evidence));
      DropTells(db, u, e);
      var next := InvalidateEvidence(db, u, e).value;
      InvalidateEachTells(next, u, ids - {e});
      TellsTransitive(db, next, InvalidateEach(next, u, ids - {e}).value);
    }
  }

  lemma RefreshTells(db: Db, u: Unit, world: World)
    requires Refresh(db, u, world).Ok?
    ensures Tells(db, Refresh(db, u, world).value)
  {
    hide Quiet, Evolves, Tells, ExpireEach, InvalidateEach, StaleIds, DueCalls;
    ExpireEachTells(db, u, DueCalls(db, u.now));
    var expired := ExpireDue(db, u).value;
    if !(expired.run.status.Completed? || expired.run.status.Stopped? || expired.run.status.Failed?) {
      InvalidateEachTells(expired, u, StaleIds(expired, world));
      TellsTransitive(db, expired, Refresh(db, u, world).value);
    }
  }

  lemma PrepareTells(cfg: Config, db: Db, u: Unit, world: World)
    requires Prepare(cfg, db, u, world).Ok?
    ensures Tells(db, Prepare(cfg, db, u, world).value.db)
  {
    hide Quiet, Evolves, Tells, Triage, Refresh, CarryOut, JudgeRefreshed;
    var early := Triage(cfg, db, world);
    if early.Some? {
      CarryOutTells(cfg, db, u, world, early.value);
    } else {
      RefreshTells(db, u, world);
      var current := Refresh(db, u, world).value;
      CarryOutTells(cfg, current, u, world, JudgeRefreshed(current, world));
      TellsTransitive(db, current, Prepare(cfg, db, u, world).value.db);
    }
  }

  // ---------- every run ----------

  lemma StoreTells(cfg: Config, s: System, step: Step)
    requires !step.Advance? && StoreStep(cfg, s, step).Ok?
    ensures Tells(s.db, StoreStep(cfg, s, step).value)
  {
    hide Quiet, Evolves, TransitionRun, CreateStep, Note, RecordBudgetDelta, AddEvidence, InvalidateEvidence, Decide,
         Load, ExpireEach, Invalidate, CreateCheckpoint, Prepare, AcquireLease, RenewLease, ReleaseLease, Tells;
    TellsNothing(s.db);
    match step
    case Acquire(owner, ttl) => AcquireTells(s.db, Unit(s.now, 0, owner), ttl);
    case Renew(t, ttl) => RenewTells(s.db, Unit(s.now, t, HARNESS), ttl);
    case Release(t) => ReleaseTells(s.db, Unit(s.now, t, HARNESS));
    case MoveRun(t, target, stop, acceptance) =>
      RunTells(s.db, Unit(s.now, t, HARNESS), s.db.run.status, s.db.run.revision, target, stop, acceptance);
    case PlanStep(t, n) => StepTells(s.db, Unit(s.now, t, HARNESS), n, s.db.run.revision);
    case WriteNote(t) => NoteTells(s.db, Unit(s.now, t, HARNESS));
    case Charge(t, key, delta) => ChargeTells(s.db, Unit(s.now, t, HARNESS), key, delta, s.db.run.revision);
    case RecordFact(t, fact) => FactTells(s.db, Unit(s.now, t, HARNESS), fact);
    case DropFact(t, id) => DropTells(s.db, Unit(s.now, t, HARNESS), id);
    case DecideApproval(t, actor, c, revision, roles, grant) =>
      DecideTells(s.db, Unit(s.now, t, actor), c, revision, actor, roles, grant);
    case LoadApproval(t, c) => LoadTells(s.db, Unit(s.now, t, HARNESS), c);
    case ExpireApprovals(t) => ExpireEachTells(s.db, Unit(s.now, t, HARNESS), DueCalls(s.db, s.now));
    case WithdrawApproval(t, c, revision) => InvalidateTells(s.db, Unit(s.now, t, HARNESS), c, revision);
    case WriteCheckpoint(t, b) => CheckpointTells(cfg, s.db, Unit(s.now, t, HARNESS), b, s.world);
    case Recover(t) => PrepareTells(cfg, s.db, Unit(s.now, t, HARNESS), s.world);
    case _ =>
  }

  lemma NextTells(cfg: Config, s: System, step: Step)
    ensures Tells(s.db, Next(cfg, s, step).db)
  {
    hide Quiet, Evolves, TakeTurn, StoreStep, Tells;
    TellsNothing(s.db);
    if step.Advance? {
      TurnTells(cfg, GateOf(s, step.token), s.db, s.now, step.token, step.outcome);
    } else if StoreStep(cfg, s, step).Ok? {
      StoreTells(cfg, s, step);
    }
  }

  lemma {:induction false} ExecTells(cfg: Config, s: System, steps: seq<Step>)
    ensures Tells(s.db, Exec(cfg, s, steps).db)
    decreases |steps|
  {
    hide Tells, Next;
    if steps == [] {
      TellsNothing(s.db);
    } else {
      NextTells(cfg, s, steps[0]);
      ExecTells(cfg, Next(cfg, s, steps[0]), steps[1..]);
      TellsTransitive(s.db, Next(cfg, s, steps[0]).db, Exec(cfg, s, steps).db);
    }
  }

  /** What is known of a run that was just created. */
  function Blank(db: Db): Picture {
    Picture(db.run.status, db.run.revision, db.run.endedAt, {}, map[], map[], map[], map[], {}, {},
            db.run.lastCheckpoint, if db.lease.Some? then Some(db.lease.value.owner) else None)
  }

  lemma BlankDepicts(cfg: Config, s: System)
    requires Initial(cfg, s)
    ensures Depicts(Blank(s.db), s.db)
  {
    hide Chained;
  }

  /**
    The audit log is complete: in every run, what was appended since the run was created gives back,
    read in order, the status, revision and end of the run, the status, revision and last change of
    every call, the status and revision of every approval, the ledger, the steps, the facts, the last
    checkpoint and the holder of the lease.
   */
  lemma LogGivesBackTheRows(cfg: Config, s0: System, steps: seq<Step>)
    requires Initial(cfg, s0)
    ensures var db := Exec(cfg, s0, steps).db;
            && s0.db.audit <= db.audit
            && Depicts(Replay(Blank(s0.db), db.audit[|s0.db.audit|..]), db)
  {
    hide Exec, Depicts, Replay, Legal;
    BlankDepicts(cfg, s0);
    ExecTells(cfg, s0, steps);
  }

  /**
    ... and it is a legal history: in every run, every entry may follow what the log said before it.
    Runs, calls and approvals move along their diagrams only, an approval is decided by the actor of
    the entry while the run waits, spent only by the known result of its own call, and nothing is
    prepared, charged or planned once the run is over.
   */
  lemma LogIsALegalHistory(cfg: Config, s0: System, steps: seq<Step>)
    requires Initial(cfg, s0)
    ensures var db := Exec(cfg, s0, steps).db;
            s0.db.audit <= db.audit && Legal(Blank(s0.db), db.audit[|s0.db.audit|..])
  {
    hide Exec, Depicts, Replay, Legal;
    BlankDepicts(cfg, s0);
    ExecTells(cfg, s0, steps);
  }

  /**
    In every run, the row of the run names a reason and an end exactly if the run ended, and a run is
    COMPLETED only with a verdict; a call has an error exactly if it ended without success.
   */
  lemma RowsStayOk(cfg: Config, s0: System, steps: seq<Step>)
    requires Initial(cfg, s0)
    ensures var db := Exec(cfg, s0, steps).db;
            RunRowOk(db.run) && forall c :: c in db.calls ==> CallRowOk(db.calls[c])
  {
    hide Exec, Depicts, Replay, Legal, RunRowOk, CallRowOk;
    LogGivesBackTheRows(cfg, s0, steps);
    var db := Exec(cfg, s0, steps).db;
    DepictedRowsAreOk(Replay(Blank(s0.db), db.audit[|s0.db.audit|..]), db);
  }

  lemma DepictedRowsAreOk(p: Picture, db: Db)
    requires Depicts(p, db)
    ensures RunRowOk(db.run) && forall c :: c in db.calls ==> CallRowOk(db.calls[c])
  {
    hide RunRowOk, CallRowOk;
  }
}
