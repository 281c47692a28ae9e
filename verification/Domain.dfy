/**
  The persistent state of one run: the rows that the harness keeps in its database, the fixed
  configuration it runs under, and the errors its operations raise.

  Identities, digests, lease tokens and times are numbers.  A digest of structured data is the
  data itself (a symbolic digest), so two digests are equal exactly when the data are.
 */
module Domain {
  import opened Audit
  import opened Wrappers

  type CallId = nat
  type Token = nat
  type Time = nat
  type Actor = string
  type Role = string
  type Tool = string
  type Path = string

  // ---------- status enumerations ----------

  datatype RunStatus = New | Running | WaitingApproval | Verifying | Completed | Stopped | Failed | Blocked

  datatype InvocationStatus = Prepared | Started | Succeeded | Failed | TimedOut | UnknownResult

  datatype ApprovalStatus = Pending | Approved | Claimed | Consumed | Rejected | Expired | Invalidated

  datatype Risk = Read | Write | Execute

  datatype StopReason =
    | FinalAnswer | BudgetExhausted | ApprovalRejected | ApprovalExpired
    | GateBlocked | UnknownResult | WorkspaceChanged | InternalError

  datatype Acceptance = NotEvaluated | Accepted | Rejected | Unverifiable

  predicate TerminalRun(s: RunStatus) {
    s.Completed? || s.Stopped? || s.Failed? || s.Blocked?
  }

  /** A result the harness knows: the handler's effect, or its absence, is confirmed. */
  predicate Deterministic(s: InvocationStatus) {
    s.Succeeded? || s.Failed? || s.TimedOut?
  }

  predicate TerminalCall(s: InvocationStatus) {
    Deterministic(s) || s.UnknownResult?
  }

  predicate Active(s: ApprovalStatus) {
    s.Pending? || s.Approved?
  }

  // ---------- errors ----------

  datatype ErrorCode =
    | StateNotFound | StateConflict | StateInvalidTransition | StateInvariantViolation
    | StateLeaseInvalid | StateLeaseExpired | StateLeaseHeld | StateBudgetExceeded
    | ApprovalNotFound | ApprovalBindingMismatch | ApprovalInvalid | ApprovalExpired
    | ApprovalRejected | ApprovalNotExecutable | ApprovalAlreadyClaimed | ApprovalReplayed
    | ApprovalConflict | ApproverDenied | SelfApprovalDenied | ApprovalChannelUnavailable
    | ApprovalStateInvalid
    | CheckpointInvalid | CheckpointNotFound | CheckpointSequenceConflict
    | RecoveryConfigMismatch | RecoveryAuditInvalid | RecoveryCheckpointRequired
    | RecoveryWorkspaceChanged | RecoveryManualReviewRequired | RecoveryStateAmbiguous
    | RecoveryApprovalInvalid | RecoveryNotAllowed | ApprovalRequired
    | ToolNotFound | ToolNotVisible | SemanticInvalid | PermissionDenied | CallIdConflict
    | ResultUnknown | ReplaySuppressed | RepeatedCall | BudgetExhausted | GateInternal
    | InternalAccessDenied | CompletionStateInvalid
    | IntentWriteFailed | StartWriteFailed | ResultWriteFailed

  datatype Result<+T> = Ok(value: T) | Err(code: ErrorCode) {
    predicate IsFailure() { Err? }
    function PropagateFailure<U>(): Result<U>
      requires Err?
    { Err(code) }
    function Extract(): T
      requires Ok?
    { value }
  }

  // ---------- budget ----------

  datatype Category = Steps | ToolCalls | TokenCost | WallTime

  datatype Usage = Usage(steps: nat, toolCalls: nat, tokenCost: nat, wallTime: nat) {
    function Get(c: Category): nat {
      match c
      case Steps => steps
      case ToolCalls => toolCalls
      case TokenCost => tokenCost
      case WallTime => wallTime
    }
    function Put(c: Category, amount: nat): Usage {
      match c
      case Steps => this.(steps := amount)
      case ToolCalls => this.(toolCalls := amount)
      case TokenCost => this.(tokenCost := amount)
      case WallTime => this.(wallTime := amount)
    }
  }

  datatype SourceKind = StepSource | ToolCallSource | HarnessSource

  datatype LedgerKey = LedgerKey(kind: SourceKind, source: nat, category: Category)

  function ToolCallKey(c: CallId): LedgerKey {
    LedgerKey(ToolCallSource, c, ToolCalls)
  }

  // ---------- rows ----------

  datatype Run = Run(
    identity: nat,              // run, task and workspace columns, fixed at creation
    config: nat,                // the configuration fingerprint the run was created under
    limits: Usage,
    used: Usage,
    status: RunStatus,
    stopReason: Option<StopReason>,
    acceptance: Acceptance,
    revision: nat,
    lastCheckpoint: Option<nat>,
    startedAt: Option<Time>,    // the creation value: no later statement writes this column
    endedAt: Option<Time>)

  datatype Invocation = Invocation(
    tool: Tool,
    digest: nat,
    risk: Risk,
    idempotent: bool,
    step: nat,
    status: InvocationStatus,
    revision: nat,
    approval: Option<nat>,
    error: Option<ErrorCode>,
    createdAt: Time,
    updatedAt: Time)

  /** The digest that ties an approval to everything it authorises. */
  datatype Binding = Binding(
    identity: nat, call: CallId, tool: Tool, digest: nat, config: nat,
    requestedBy: Actor, roles: set<Role>, requestedAt: Time, expiresAt: Time)

  datatype Approval = Approval(
    id: nat,
    tool: Tool,
    digest: nat,
    binding: Binding,
    requestedBy: Actor,
    roles: set<Role>,           // allowed approver roles, case-folded
    status: ApprovalStatus,
    revision: nat,
    requestedAt: Time,
    expiresAt: Time,
    decidedAt: Option<Time>,
    decidedBy: Option<Actor>,
    claimedAt: Option<Time>,
    intent: Option<CallId>,
    consumedAt: Option<Time>,
    consumptionCode: Option<ErrorCode>)

  datatype EvidenceKind = ReadFact | DocumentFact | CommandFact | TestReportFact | DiffFact | AuditFact

  datatype Evidence = Evidence(call: Option<CallId>, kind: EvidenceKind, path: Option<Path>, content: nat,
      createdAt: Time, valid: bool)

  /** Git and file facts about the working tree, as one capture sees them. */
  datatype Workspace = Workspace(
    identity: nat,              // roots, HEAD and index
    status: nat,
    diff: nat,
    external: nat,
    externalProtected: bool,
    entries: map<Path, nat>,
    truncated: bool)

  datatype BoundaryKind =
    | StepCompleted | ToolSucceeded | ToolFailed | ToolTimedOut | ToolUnknownResult
    | ApprovalRequested | ApprovalSettled | CompletionRecorded

  predicate ToolBoundary(k: BoundaryKind) {
    k.ToolSucceeded? || k.ToolFailed? || k.ToolTimedOut? || k.ToolUnknownResult?
  }

  datatype Boundary = Boundary(kind: BoundaryKind, ref: nat, step: Option<nat>, call: Option<CallId>,
      approval: Option<CallId>)

  datatype Snapshot = Snapshot(
    run: Run,
    calls: map<CallId, Invocation>,
    approvals: map<CallId, Approval>,
    evidence: map<nat, Evidence>,
    auditSequence: nat,
    auditHash: Hash,
    workspace: Workspace,
    createdAt: Time)

  datatype Checkpoint = Checkpoint(
    id: nat,
    sequence: nat,
    boundary: Boundary,
    runRevision: nat,
    auditSequence: nat,
    auditHash: Hash,
    snapshot: Snapshot,
    createdAt: Time)

  datatype RecoveryAction =
    | ContinueAgent | WaitForApproval | ReenterGate | ResumeClaimThenReenterGate
    | RebuildCheckpointThenContinue | MarkUnknownResult | ManualReview | AlreadyTerminal

  datatype RecoveryStatus = Resumable | AwaitingApproval | NeedsReview | Finished

  /** The columns that the recovery idempotency key is computed from. */
  datatype RecoveryKey = RecoveryKey(
    checkpoint: Option<nat>,
    runRevision: nat,
    action: RecoveryAction,
    status: RecoveryStatus,
    reason: Option<ErrorCode>,
    call: Option<CallId>,
    approval: Option<nat>,
    validEvidence: set<nat>,
    invalidEvidence: set<nat>)

  datatype RecoveryPlan = RecoveryPlan(id: nat, key: RecoveryKey, createdAt: Time)

  datatype Lease = Lease(token: Token, owner: Actor, expiresAt: Time)

  // ---------- audit ----------

  datatype Event =
    | ToolPrepared(call: CallId)
    | ToolMoved(call: CallId, target: InvocationStatus)
    | ApprovalRequestedFor(call: CallId, approval: nat)
    | ApprovalDecided(approval: nat, approver: Actor, roles: set<Role>, granted: bool)
    | ApprovalClaimed(approval: nat, intent: CallId)
    | ApprovalClaimRecovered(approval: nat)
    | ApprovalConsumed(approval: nat, target: InvocationStatus)
    | ApprovalInvalidated(approval: nat)
    | ApprovalExpiredAt(approval: nat)
    | RunMoved(to: RunStatus)
    | BudgetUpdated(key: LedgerKey, delta: nat)
    | EvidenceRecorded(evidence: nat)
    | EvidenceInvalidated(evidence: nat)
    | CheckpointWritten(checkpoint: nat)
    | RecoveryRecorded(recovery: nat)
    | LeaseAcquired | LeaseTakenOver | LeaseReleased
    | GateAllowed(call: CallId)
    | GatePending(call: CallId)
    | GateDenied(call: CallId, code: ErrorCode)
    | StepPlanned(step: nat)
    | HarnessNote

  datatype Entry = Entry(actor: Actor, at: Time, event: Event)

  /** Symbolic SHA-256: a hash is the payload it was computed from. */
  datatype Hash = Genesis | EventHash(payload: Payload<Entry, Hash>)

  type AuditLog = seq<Record<Entry, Hash>>

  function HashOf(p: Payload<Entry, Hash>): Hash {
    EventHash(p)
  }

  ghost predicate Chained(log: AuditLog) {
    Audit.ChainValid(log, Genesis, HashOf)
  }

  /** Stored recovery decisions are found under the columns they were computed from. */
  predicate Filed(recoveries: map<RecoveryKey, RecoveryPlan>) {
    forall k :: k in recoveries ==> recoveries[k].key == k
  }

  // ---------- the database ----------

  datatype Db = Db(
    run: Run,
    steps: set<nat>,
    calls: map<CallId, Invocation>,
    approvals: map<CallId, Approval>,       // at most one per call: UNIQUE (run_id, tool_call_id)
    ledger: map<LedgerKey, nat>,
    evidence: map<nat, Evidence>,
    checkpoints: seq<Checkpoint>,
    recoveries: map<RecoveryKey, RecoveryPlan>,
    audit: AuditLog,
    lease: Option<Lease>,
    nextToken: Token,                        // lease tokens below this one have been handed out
    nextId: nat)                             // row identities below this one have been handed out

  /** One transaction: its clock reading, the lease token it presents, its trusted actor. */
  datatype Unit = Unit(now: Time, token: Token, actor: Actor)

  predicate HoldsLease(db: Db, u: Unit) {
    db.lease.Some? && db.lease.value.token == u.token && u.now < db.lease.value.expiresAt
  }

  function LeaseFault(db: Db, u: Unit): ErrorCode {
    if db.lease.None? || db.lease.value.token != u.token then StateLeaseInvalid else StateLeaseExpired
  }

  // ---------- configuration ----------

  datatype ToolSpec = ToolSpec(risk: Risk, idempotent: bool, approvalRequired: bool)

  datatype Config = Config(
    registry: map<Tool, ToolSpec>,
    internal: map<Tool, ToolSpec>,
    visible: set<Tool>,
    approvalTools: set<Tool>,
    approvalRoles: set<Role>,
    approvalTtl: nat,
    readLimit: nat,
    writeLimit: nat,
    fingerprint: nat)

  predicate ValidConfig(cfg: Config) {
    && cfg.registry.Keys !! cfg.internal.Keys
    && 1 <= cfg.approvalTtl <= 86400
  }

  predicate RequiresApproval(cfg: Config, tool: Tool) {
    tool in cfg.registry && (cfg.registry[tool].approvalRequired || tool in cfg.approvalTools)
  }

  function ExecutionLimit(cfg: Config, spec: ToolSpec): nat {
    if spec.risk.Read? then cfg.readLimit else cfg.writeLimit
  }

  // ---------- how rows may change ----------

  predicate SameCall(i: Invocation, j: Invocation) {
    && i.tool == j.tool && i.digest == j.digest && i.risk == j.risk && i.idempotent == j.idempotent
    && i.step == j.step && i.createdAt == j.createdAt
  }

  /** Calls move forward only, and a terminal call is frozen: not one of its columns changes. */
  predicate CallAdvances(i: Invocation, j: Invocation) {
    && SameCall(i, j)
    && (i.status.Started? ==> !j.status.Prepared?)
    && (i.approval.Some? ==> j.approval == i.approval)
    && (TerminalCall(i.status) ==> i == j)
  }

  ghost predicate CallsAdvance(a: map<CallId, Invocation>, b: map<CallId, Invocation>) {
    forall c :: c in a ==> c in b && CallAdvances(a[c], b[c])
  }

  predicate HasStarted(calls: map<CallId, Invocation>, c: CallId) {
    c in calls && !calls[c].status.Prepared?
  }

  ghost predicate NothingStarts(a: map<CallId, Invocation>, b: map<CallId, Invocation>) {
    forall c :: HasStarted(b, c) ==> HasStarted(a, c)
  }

  ghost predicate LedgerGrows(a: map<LedgerKey, nat>, b: map<LedgerKey, nat>) {
    forall k :: k in a ==> k in b && a[k] == b[k]
  }

  predicate RunAdvances(a: Run, b: Run) {
    && a.identity == b.identity && a.config == b.config && a.limits == b.limits
    && a.startedAt == b.startedAt
    && a.revision <= b.revision
    && (TerminalRun(a.status) ==> a.status == b.status)
  }

  /** A lease keeps its token, or is taken over under a token that was never handed out before. */
  predicate LeaseMoves(a: Db, b: Db) {
    b.lease.Some? ==>
      || (a.lease.Some? && a.lease.value.token == b.lease.value.token)
      || a.nextToken <= b.lease.value.token < b.nextToken
  }

  /** What every committed transaction keeps. */
  ghost predicate Evolves(a: Db, b: Db) {
    && RunAdvances(a.run, b.run)
    && CallsAdvance(a.calls, b.calls)
    && LedgerGrows(a.ledger, b.ledger)
    && a.approvals.Keys <= b.approvals.Keys <= a.approvals.Keys + b.calls.Keys
    && a.evidence.Keys <= b.evidence.Keys
    && a.steps <= b.steps
    && a.audit <= b.audit && (Chained(a.audit) ==> Chained(b.audit))
    && (Filed(a.recoveries) ==> Filed(b.recoveries))
    && a.checkpoints <= b.checkpoints
    && a.nextToken <= b.nextToken
    && a.nextId <= b.nextId
    && LeaseMoves(a, b)
  }

  /** ... and what every transaction but the one that marks a call STARTED keeps as well. */
  ghost predicate Quiet(a: Db, b: Db) {
    Evolves(a, b) && NothingStarts(a.calls, b.calls)
  }

  lemma EvolvesTransitive(a: Db, b: Db, c: Db)
    requires Evolves(a, b) && Evolves(b, c)
    ensures Evolves(a, c)
  {
  }

  lemma QuietTransitive(a: Db, b: Db, c: Db)
    requires Quiet(a, b) && Quiet(b, c)
    ensures Quiet(a, c)
  {
  }

  lemma QuietReflexive(db: Db)
    ensures Quiet(db, db)
  {
  }
}
