/**
  Checkpoints and recovery planning: `CheckpointService`.

  `Prepare` is one transaction.  It looks at the stored rows and at the working tree, decides what
  may happen next, and stores that decision under a key made of everything it depends on.
 */
module Recovery {
  import opened Domain
  import opened Wrappers
  import opened StateStore
  import opened ApprovalStore

  /** The working tree as the sandbox reads it: its Git facts, and the files that can be read. */
  datatype World = World(workspace: Workspace, files: map<Path, nat>)

  // ---------- checkpoints ----------

  predicate BoundaryWellFormed(b: Boundary) {
    && (b.kind.StepCompleted? ==> b.step.Some?)
    && (ToolBoundary(b.kind) ==> b.call.Some?)
    && (b.kind.ApprovalRequested? || b.kind.ApprovalSettled? ==> b.approval.Some?)
  }

  /** The reference of a tool boundary is the call it captures. */
  predicate RefersToCall(b: Boundary) {
    ToolBoundary(b.kind) ==> b.call == Some(b.ref)
  }

  predicate BoundaryStateOk(status: RunStatus, kind: BoundaryKind) {
    match kind
    case CompletionRecorded => status.Verifying? || status.Completed? || status.Failed?
    case ApprovalRequested => status.Running? || status.WaitingApproval?
    case ApprovalSettled => status.Running? || status.WaitingApproval?
    case _ => status.Running?
  }

  function BoundaryFor(status: InvocationStatus): BoundaryKind {
    match status
    case Succeeded => ToolSucceeded
    case Failed => ToolFailed
    case TimedOut => ToolTimedOut
    case _ => ToolUnknownResult
  }

  /** `_validate_boundary`. */
  predicate BoundaryAllowed(db: Db, b: Boundary) {
    && BoundaryWellFormed(b)
    && BoundaryStateOk(db.run.status, b.kind)
    && (b.step.Some? ==> b.step.value in db.steps)
    && (b.call.Some? ==>
          && b.call.value in db.calls
          && (ToolBoundary(b.kind) ==>
                var status := db.calls[b.call.value].status;
                TerminalCall(status) && b.kind == BoundaryFor(status)))
    && (b.approval.Some? ==>
          && b.approval.value in db.approvals
          && (b.kind.ApprovalSettled? ==> !db.approvals[b.approval.value].status.Pending?)
          && (b.kind.ApprovalRequested? ==> db.approvals[b.approval.value].status.Pending?))
  }

  function MaxSequence(cs: seq<Checkpoint>): (m: nat)
    ensures forall i :: 0 <= i < |cs| ==> cs[i].sequence <= m
    ensures cs == [] ==> m == 0
    ensures cs != [] ==> exists i :: 0 <= i < |cs| && cs[i].sequence == m
  {
    if cs == [] then 0
    else
      var n := |cs| - 1;
      var rest := MaxSequence(cs[..n]);
      assert forall i :: 0 <= i < n ==> cs[..n][i] == cs[i];
      if n > 0 && cs[n].sequence <= rest then rest else cs[n].sequence
  }

  function TakeSnapshot(db: Db, u: Unit, world: World): Snapshot
    requires db.audit != []
  {
    var head := db.audit[|db.audit| - 1];
    Snapshot(db.run, db.calls, db.approvals, db.evidence, head.sequence, head.hash, world.workspace, u.now)
  }

  predicate SameBoundary(c: Checkpoint, b: Boundary) {
    c.boundary.kind == b.kind && c.boundary.ref == b.ref
  }

  function FindBoundary(cs: seq<Checkpoint>, b: Boundary): (r: Option<Checkpoint>)
    ensures r.None? <==> forall i :: 0 <= i < |cs| ==> !SameBoundary(cs[i], b)
    ensures r.Some? ==> r.value in cs && SameBoundary(r.value, b)
  {
    if cs == [] then None
    else if SameBoundary(cs[0], b) then Some(cs[0])
    else FindBoundary(cs[1..], b)
  }

  function NewCheckpoint(db: Db, u: Unit, b: Boundary, world: World): Checkpoint
    requires db.audit != []
  {
    var head := db.audit[|db.audit| - 1];
    Checkpoint(db.nextId, MaxSequence(db.checkpoints) + 1, b, db.run.revision, head.sequence, head.hash,
               TakeSnapshot(db, u, world), u.now)
  }

  datatype Written = Written(db: Db, checkpoint: Checkpoint)

  /** `_create_checkpoint_in_unit`. */
  function CreateCheckpoint(cfg: Config, db: Db, u: Unit, b: Boundary, world: World): (r: Result<Written>)
    ensures r.Ok? ==> Quiet(db, r.value.db)
    ensures r.Ok? ==> HoldsLease(db, u) && BoundaryAllowed(db, b) && db.audit != []
    ensures r.Ok? && FindBoundary(db.checkpoints, b).None? ==> r.value.checkpoint == NewCheckpoint(db, u, b, world)
  {
    if !HoldsLease(db, u) then Err(LeaseFault(db, u))
    else if db.run.config != cfg.fingerprint then Err(RecoveryConfigMismatch)
    else if !BoundaryAllowed(db, b) then Err(CheckpointInvalid)
    else if db.audit == [] then Err(CheckpointInvalid)
    else
      var existing := FindBoundary(db.checkpoints, b);
      if existing.Some? then
        if existing.value.snapshot != TakeSnapshot(db, u, world) then Err(CheckpointSequenceConflict)
        else Ok(Written(db, existing.value))
      else
        var row := NewCheckpoint(db, u, b, world);
        var inserted := db.(checkpoints := db.checkpoints + [row], nextId := row.id + 1);
        var marked :- MarkCheckpointWritten(inserted, u, row.id);
        QuietTransitive(db, inserted, marked);
        Ok(Written(marked, row))
  }

  /** `_validate_checkpoint_references`: what a stored checkpoint must still agree with. */
  ghost predicate CheckpointVerifies(db: Db, c: Checkpoint) {
    && c.runRevision <= db.run.revision
    && (exists i :: 0 <= i < |db.audit| && db.audit[i].sequence == c.auditSequence && db.audit[i].hash == c.auditHash)
    && c.snapshot.auditSequence == c.auditSequence
    && c.snapshot.auditHash == c.auditHash
    && c.snapshot.run.identity == db.run.identity
    && (c.boundary.step.Some? ==> c.boundary.step.value in db.steps)
    && (c.boundary.call.Some? ==> c.boundary.call.value in db.calls)
    && (c.boundary.approval.Some? ==> c.boundary.approval.value in db.approvals)
    && (c.sequence > 1 ==> exists i :: 0 <= i < |db.checkpoints| && db.checkpoints[i].sequence == c.sequence - 1)
    && c.snapshot.evidence.Keys <= db.evidence.Keys
    && c.snapshot.calls.Keys <= db.calls.Keys
    && c.snapshot.approvals.Keys <= db.approvals.Keys
  }

  function Later(c: Checkpoint, d: Option<Checkpoint>): Checkpoint {
    if d.Some? && d.value.sequence >= c.sequence then d.value else c
  }

  /** The row with the highest sequence number. */
  function Latest(cs: seq<Checkpoint>): (r: Option<Checkpoint>)
    ensures r.None? <==> cs == []
    ensures r.Some? ==> r.value in cs
  {
    if cs == [] then None else Some(Later(cs[0], Latest(cs[1..])))
  }

  // ---------- the working tree ----------

  predicate IdentityChanged(base: Workspace, now: Workspace) {
    base.identity != now.identity
  }

  predicate ExternalChanged(base: Workspace, now: Workspace) {
    base.externalProtected && base.external != now.external
  }

  predicate WorkspaceDiffers(base: Workspace, now: Workspace) {
    base.status != now.status || base.diff != now.diff
  }

  function ChangedPaths(base: Workspace, now: Workspace): set<Path> {
    set p | p in base.entries.Keys + now.entries.Keys &&
            !(p in base.entries && p in now.entries && base.entries[p] == now.entries[p])
  }

  /** `_workspace_delta_attributable`: every change since the checkpoint can be owed to a finished call. */
  predicate DeltaAttributable(db: Db, base: Checkpoint, now: Workspace) {
    && !base.snapshot.workspace.truncated
    && var changed := ChangedPaths(base.snapshot.workspace, now);
       (changed == {} ||
        var later := set c | c in db.calls && Deterministic(db.calls[c].status)
            && db.calls[c].updatedAt >= base.createdAt;
        var related := set e | e in db.evidence && db.evidence[e].call.Some? && db.evidence[e].call.value in later;
        && later != {}
        && ((forall p :: p in changed ==> exists e :: e in related && db.evidence[e].path == Some(p))
            || exists e :: e in related && (db.evidence[e].kind.CommandFact? || db.evidence[e].kind.TestReportFact?)))
  }

  // ---------- evidence ----------

  /** A valid fact about a file whose content is no longer what the fact says. */
  predicate Stale(fact: Evidence, world: World) {
    && fact.valid
    && (fact.kind.ReadFact? || fact.kind.DocumentFact? || fact.kind.DiffFact?)
    && fact.path.Some?
    && !(fact.path.value in world.files && world.files[fact.path.value] == fact.content)
  }

  function StaleIds(db: Db, world: World): set<nat> {
    set e | e in db.evidence && Stale(db.evidence[e], world)
  }

  function RecordTimes(evidence: map<nat, Evidence>): map<nat, Time> {
    map e | e in evidence :: evidence[e].createdAt
  }

  function InvalidateEach(db: Db, u: Unit, ids: set<nat>): (r: Result<Db>)
    ensures r.Ok? ==> Quiet(db, r.value) && EvidenceOnly(db, r.value)
    ensures ids == {} ==> r == Ok(db)
    decreases |ids|
  {
    if ids == {} then Ok(db)
    else if !(ids <= db.evidence.Keys) then Err(StateNotFound)
    else
      var e := Earliest(ids, RecordTimes(db.evidence));
      var next :- InvalidateEvidence(db, u, e);
      var rest := InvalidateEach(next, u, ids - {e});
      if rest.Ok? then QuietTransitive(db, next, rest.value); rest else rest
  }

  function ValidIds(db: Db): set<nat> {
    set e | e in db.evidence && db.evidence[e].valid
  }

  function InvalidIds(db: Db): set<nat> {
    set e | e in db.evidence && !db.evidence[e].valid
  }

  // ---------- selecting rows ----------

  function CallsWith(calls: map<CallId, Invocation>, status: InvocationStatus): set<CallId> {
    set c | c in calls && calls[c].status == status
  }

  function CreationTimes(calls: map<CallId, Invocation>): map<nat, Time> {
    map c | c in calls :: calls[c].createdAt
  }

  function UpdateTimes(calls: map<CallId, Invocation>): map<nat, Time> {
    map c | c in calls :: calls[c].updatedAt
  }

  function FirstCall(calls: map<CallId, Invocation>, ids: set<CallId>): (r: Option<CallId>)
    requires ids <= calls.Keys
    ensures r.None? <==> ids == {}
    ensures r.Some? ==> r.value in ids
  {
    if ids == {} then None else Some(Earliest(ids, CreationTimes(calls)))
  }

  predicate HasToolCheckpoint(cs: seq<Checkpoint>, c: CallId) {
    exists i :: 0 <= i < |cs| && cs[i].boundary.call == Some(c) && ToolBoundary(cs[i].boundary.kind)
  }

  /** Finished calls whose result no checkpoint has captured. */
  function Uncheckpointed(db: Db): set<CallId> {
    set c | c in db.calls && Deterministic(db.calls[c].status) && !HasToolCheckpoint(db.checkpoints, c)
  }

  /** `_missing_checkpoint_invocation`. */
  function MissingCheckpoint(db: Db): (r: Option<CallId>)
    ensures r.None? <==> Uncheckpointed(db) == {}
    ensures r.Some? ==> r.value in Uncheckpointed(db)
  {
    var ids := Uncheckpointed(db);
    if ids == {} then None else Some(Earliest(ids, UpdateTimes(db.calls)))
  }

  // ---------- recovery decisions ----------

  datatype Verdict =
    | Record(action: RecoveryAction, status: RecoveryStatus, reason: Option<ErrorCode>, call: Option<CallId>,
        approval: Option<nat>)
    | Block(action: RecoveryAction, stop: StopReason, reason: Option<ErrorCode>, call: Option<CallId>,
        approval: Option<nat>)
    | MarkUnknown(started: CallId)
    | Rebuild(missing: CallId)

  function BlockFor(reason: ErrorCode, stop: StopReason): Verdict {
    Block(ManualReview, stop, Some(reason), None, None)
  }

  function FinishedVerdict(): Verdict {
    Record(AlreadyTerminal, Finished, None, None, None)
  }

  /** The checks `prepare_recovery` makes before it touches any row. */
  function Triage(cfg: Config, db: Db, world: World): Option<Verdict> {
    if db.run.status.Completed? || db.run.status.Stopped? || db.run.status.Failed? then Some(FinishedVerdict())
    else if db.run.status.Blocked? then
      Some(Record(ManualReview, NeedsReview, Some(RecoveryManualReviewRequired),
                  FirstCall(db.calls, CallsWith(db.calls, InvocationStatus.UnknownResult)), None))
    else if !(db.run.status.Running? || db.run.status.WaitingApproval?) then
      Some(Record(ManualReview, NeedsReview, Some(RecoveryNotAllowed), None, None))
    else if db.run.config != cfg.fingerprint then Some(BlockFor(RecoveryConfigMismatch, WorkspaceChanged))
    else
      match Latest(db.checkpoints)
      case None =>
        if db.calls != map[] || db.approvals != map[] || db.evidence != map[]
        then Some(BlockFor(RecoveryCheckpointRequired, GateBlocked)) else None
      case Some(latest) =>
        if IdentityChanged(latest.snapshot.workspace, world.workspace)
            || ExternalChanged(latest.snapshot.workspace, world.workspace)
        then Some(BlockFor(RecoveryWorkspaceChanged, WorkspaceChanged)) else None
  }

  /** What to do about the single PREPARED call. */
  function JudgePrepared(db: Db, c: CallId): Verdict {
    if c !in db.approvals then
      if !db.run.status.Running? then BlockFor(RecoveryStateAmbiguous, GateBlocked)
      else Record(ReenterGate, Resumable, None, Some(c), None)
    else
      var a := db.approvals[c];
      match a.status
      case Pending =>
        if !db.run.status.WaitingApproval? then BlockFor(RecoveryStateAmbiguous, GateBlocked)
        else Record(WaitForApproval, AwaitingApproval, Some(ApprovalRequired), Some(c), Some(a.id))
      case Approved => Record(ReenterGate, Resumable, None, Some(c), Some(a.id))
      case Claimed =>
        if !db.run.status.Running? then BlockFor(RecoveryStateAmbiguous, GateBlocked)
        else Record(ResumeClaimThenReenterGate, Resumable, None, Some(c), Some(a.id))
      case _ => Block(ManualReview, WorkspaceChanged, Some(RecoveryApprovalInvalid), None, Some(a.id))
  }

  /** The checks made once expiry and evidence are up to date. */
  function Judge(db: Db, world: World): Verdict {
    var unknown := CallsWith(db.calls, InvocationStatus.UnknownResult);
    var started := CallsWith(db.calls, InvocationStatus.Started);
    var prepared := CallsWith(db.calls, InvocationStatus.Prepared);
    if unknown != {} then
      Block(ManualReview, StopReason.UnknownResult, Some(RecoveryManualReviewRequired), FirstCall(db.calls, unknown),
          None)
    else if |started + prepared| > 1 then BlockFor(RecoveryStateAmbiguous, GateBlocked)
    else if started != {} then MarkUnknown(FirstCall(db.calls, started).value)
    else if prepared == {} && (exists c ::
        c in db.approvals && (Active(db.approvals[c].status) || db.approvals[c].status.Claimed?))
      then BlockFor(RecoveryStateAmbiguous, GateBlocked)
    else if prepared != {} then JudgePrepared(db, FirstCall(db.calls, prepared).value)
    else
      var missing := MissingCheckpoint(db);
      match Latest(db.checkpoints)
      case None =>
        if missing.Some? then BlockFor(RecoveryCheckpointRequired, GateBlocked)
        else Record(ContinueAgent, Resumable, None, None, None)
      case Some(latest) =>
        var moved := WorkspaceDiffers(latest.snapshot.workspace, world.workspace);
        if missing.Some? then
          if moved && !DeltaAttributable(db, latest, world.workspace)
              then BlockFor(RecoveryWorkspaceChanged, WorkspaceChanged)
          else Rebuild(missing.value)
        else if moved then BlockFor(RecoveryWorkspaceChanged, WorkspaceChanged)
        else Record(ContinueAgent, Resumable, None, None, None)
  }

  // ---------- carrying a decision out ----------

  datatype Planned = Planned(db: Db, plan: RecoveryPlan)

  function KeyFor(db: Db, checkpoint: Option<nat>, action: RecoveryAction, status: RecoveryStatus,
                  reason: Option<ErrorCode>, call: Option<CallId>, approval: Option<nat>): RecoveryKey {
    RecoveryKey(checkpoint, db.run.revision, action, status, reason, call, approval, ValidIds(db), InvalidIds(db))
  }

  /** `_record_plan`: a decision that was stored before is returned, not stored again. */
  function RecordPlan(db: Db, u: Unit, key: RecoveryKey): (r: Planned)
    ensures Quiet(db, r.db)
    ensures key in r.db.recoveries && r.db.recoveries[key] == r.plan
  {
    if key in db.recoveries then Planned(db, db.recoveries[key])
    else
      var plan := RecoveryPlan(db.nextId, key, u.now);
      Planned(Log(db.(recoveries := db.recoveries[key := plan], nextId := plan.id + 1), u, RecoveryRecorded(plan.id)),
          plan)
  }

  /** Approvals that blocking withdraws: active ones, and claims whose call has not started. */
  function Withdrawable(db: Db): set<CallId> {
    set c | c in db.approvals &&
            (Active(db.approvals[c].status) ||
             (db.approvals[c].status.Claimed? && c in db.calls && db.calls[c].status.Prepared?))
  }

  function WithdrawEach(db: Db, u: Unit, ids: set<CallId>): (r: Result<Db>)
    ensures r.Ok? ==> Quiet(db, r.value)
    ensures ids == {} ==> r == Ok(db)
    decreases |ids|
  {
    if ids == {} then Ok(db)
    else if !(ids <= db.approvals.Keys) then Err(ApprovalNotFound)
    else
      var c := Earliest(ids, RequestTimes(db.approvals));
      var next :- Invalidate(db, u, c, db.approvals[c].revision);
      var rest := WithdrawEach(next, u, ids - {c});
      if rest.Ok? then QuietTransitive(db, next, rest.value); rest else rest
  }

  function BlockRun(db: Db, u: Unit, stop: StopReason): (r: Result<Db>)
    ensures r.Ok? ==> Quiet(db, r.value)
  {
    if db.run.status.Running? || db.run.status.WaitingApproval?
    then TransitionRun(db, u, db.run.status, db.run.revision, Blocked, Some(stop), Some(NotEvaluated))
    else Ok(db)
  }

  /** `_block_recovery`: withdraw what could still authorise execution, and stop the run. */
  function BlockRecovery(db: Db, u: Unit, stop: StopReason): (r: Result<Db>)
    ensures r.Ok? ==> Quiet(db, r.value)
  {
    var withdrawn :- WithdrawEach(db, u, Withdrawable(db));
    var blocked :- BlockRun(withdrawn, u, stop);
    QuietTransitive(db, withdrawn, blocked);
    Ok(blocked)
  }

  function BlockAndRecord(db: Db, u: Unit, action: RecoveryAction, stop: StopReason, reason: Option<ErrorCode>,
                                call: Option<CallId>, approval: Option<nat>): (r: Result<Planned>)
    ensures r.Ok? ==> Quiet(db, r.value.db)
  {
    var blocked :- BlockRecovery(db, u, stop);
    var planned := RecordPlan(blocked, u, KeyFor(blocked, blocked.run.lastCheckpoint, action, NeedsReview, reason, call,
        approval));
    QuietTransitive(db, blocked, planned.db);
    Ok(planned)
  }

  function MarkUnknownAndRecord(db: Db, u: Unit, c: CallId): (r: Result<Planned>)
    ensures r.Ok? ==> Quiet(db, r.value.db)
  {
    if c !in db.calls then Err(StateNotFound)
    else
      var marked :- TransitionInvocation(db, u, c, InvocationStatus.Started, db.calls[c].revision,
                                         InvocationStatus.UnknownResult, Some(ResultUnknown));
      var planned :- BlockAndRecord(marked, u, MarkUnknownResult, StopReason.UnknownResult,
                                    Some(RecoveryManualReviewRequired), Some(c), None);
      QuietTransitive(db, marked, planned.db);
      Ok(planned)
  }

  function RebuildBoundary(db: Db, c: CallId): Boundary
    requires c in db.calls
  {
    Boundary(BoundaryFor(db.calls[c].status), c, Some(db.calls[c].step), Some(c), None)
  }

  function RebuildAndRecord(cfg: Config, db: Db, u: Unit, world: World, c: CallId): (r: Result<Planned>)
    ensures r.Ok? ==> Quiet(db, r.value.db)
  {
    if c !in db.calls then Err(StateNotFound)
    else
      var written :- CreateCheckpoint(cfg, db, u, RebuildBoundary(db, c), world);
      var key := KeyFor(written.db, Some(written.checkpoint.id), RebuildCheckpointThenContinue, Resumable, None,
                        Some(c), db.calls[c].approval);
      var planned := RecordPlan(written.db, u, key);
      QuietTransitive(db, written.db, planned.db);
      Ok(planned)
  }

  function CarryOut(cfg: Config, db: Db, u: Unit, world: World, v: Verdict): (r: Result<Planned>)
    ensures r.Ok? ==> Quiet(db, r.value.db)
  {
    match v
    case Record(action, status, reason, call, approval) =>
      Ok(RecordPlan(db, u, KeyFor(db, db.run.lastCheckpoint, action, status, reason, call, approval)))
    case Block(action, stop, reason, call, approval) => BlockAndRecord(db, u, action, stop, reason, call, approval)
    case MarkUnknown(c) => MarkUnknownAndRecord(db, u, c)
    case Rebuild(c) => RebuildAndRecord(cfg, db, u, world, c)
  }

  /** Expiry, then evidence: the rows are brought up to date before they are judged. */
  function Refresh(db: Db, u: Unit, world: World): (r: Result<Db>)
    ensures r.Ok? ==> Quiet(db, r.value)
  {
    var expired :- ExpireDue(db, u);
    if expired.run.status.Completed? || expired.run.status.Stopped? || expired.run.status.Failed? then Ok(expired)
    else
      var checked :- InvalidateEach(expired, u, StaleIds(expired, world));
      QuietTransitive(db, expired, checked);
      Ok(checked)
  }

  function JudgeRefreshed(db: Db, world: World): Verdict {
    if db.run.status.Completed? || db.run.status.Stopped? || db.run.status.Failed? then FinishedVerdict()
    else Judge(db, world)
  }

  /** `prepare_recovery`. */
  ghost function Prepare(cfg: Config, db: Db, u: Unit, world: World): (r: Result<Planned>)
    ensures r.Ok? ==> Quiet(db, r.value.db)
  {
    if !HoldsLease(db, u) then Err(LeaseFault(db, u))
    else if !Chained(db.audit) then Err(RecoveryAuditInvalid)
    else
      var early := Triage(cfg, db, world);
      if early.Some? then CarryOut(cfg, db, u, world, early.value)
      else
        var current :- Refresh(db, u, world);
        var planned :- CarryOut(cfg, current, u, world, JudgeRefreshed(current, world));
        QuietTransitive(db, current, planned.db);
        Ok(planned)
  }
}
