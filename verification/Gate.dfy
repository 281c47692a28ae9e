/**
  The Gate: one governed tool call is a chain of transactions with a handler run inside it.

  Between two transactions the Gate holds only what its call frames hold, which is the `Gate`
  value below; each function from a database to a result is one transaction, all or nothing.
 */
module Gate {
  import opened Domain
  import opened Wrappers
  import opened StateStore
  import opened ApprovalStore

  /** One candidate call.  `digest` is None when normalisation of the arguments fails. */
  datatype Request = Request(
    call: CallId, tool: Tool, step: nat, actor: Actor,
    contextMatches: bool,       // task identity in the trusted context equals the run's
    admitted: bool,             // role permissions and risk policy allow the tool
    digest: Option<nat>)

  /** What a call carries once its checks against a snapshot have passed. */
  datatype Pass = Pass(
    req: Request,
    spec: ToolSpec,
    digest: nat,
    internal: bool,             // fixed verifier tool: no policy, no budget, no approval
    approved: bool,             // the snapshot held an approval for the call
    seen: nat)                  // equivalent calls past PREPARED in the snapshot

  datatype Fact = Fact(kind: EvidenceKind, path: Option<Path>, content: nat)

  datatype Outcome = Outcome(
    status: InvocationStatus, facts: seq<Fact>, error: Option<ErrorCode>,
    breaks: bool)               // the Gate itself fails on the output, before it stores anything

  datatype Gate =
    | Idle
    | Snapshotting(req: Request)
    | Loading(req: Request)
    | SnapshottingReentry(req: Request)
    | SnapshottingInternal(req: Request, allowed: set<RunStatus>, readOnly: bool)
    | OpeningApproval(pass: Pass, existing: bool)
    | AwaitingDecision(req: Request)
    | ClaimingApproval(pass: Pass)
    | PreparingCall(pass: Pass)
    | RecordingReentry(pass: Pass)
    | ResumingClaim(pass: Pass)
    | Starting(pass: Pass)
    | Executing(pass: Pass)
    | Persisting(pass: Pass, outcome: Outcome)
    | Denying(req: Request, code: ErrorCode)

  // ---------- repeat, replay and budget checks ----------

  /** Calls with the same tool and arguments that have left PREPARED. */
  function Equivalent(calls: map<CallId, Invocation>, tool: Tool, digest: nat): set<CallId> {
    set c | c in calls && calls[c].tool == tool && calls[c].digest == digest && !calls[c].status.Prepared?
  }

  function WriteReplay(calls: map<CallId, Invocation>, tool: Tool, digest: nat): Option<ErrorCode> {
    var matching := Equivalent(calls, tool, digest);
    if matching == {} then None
    else if exists c :: c in matching && calls[c].status.Succeeded? then Some(ReplaySuppressed)
    else Some(RepeatedCall)
  }

  /** `_check_repeat_and_replay`. */
  function RepeatFault(cfg: Config, calls: map<CallId, Invocation>, spec: ToolSpec, tool: Tool,
      digest: nat): Option<ErrorCode> {
    if !spec.risk.Read? && WriteReplay(calls, tool, digest).Some? then WriteReplay(calls, tool, digest)
    else if |Equivalent(calls, tool, digest)| >= ExecutionLimit(cfg, spec) then Some(RepeatedCall)
    else None
  }

  predicate WallTimeSpent(run: Run, now: Time) {
    run.startedAt.Some? && now >= run.startedAt.value && now - run.startedAt.value >= run.limits.wallTime
  }

  /** `_check_recovery_budget`: the tool-call budget is not looked at here. */
  predicate RecoveryBudgetSpent(run: Run, now: Time) {
    run.used.steps >= run.limits.steps || run.used.tokenCost >= run.limits.tokenCost || WallTimeSpent(run, now)
  }

  predicate BudgetSpent(run: Run, now: Time) {
    run.used.toolCalls >= run.limits.toolCalls || RecoveryBudgetSpent(run, now)
  }

  // ---------- decisions taken on a snapshot ----------

  function ApprovalCode(s: ApprovalStatus): ErrorCode {
    match s
    case Rejected => ErrorCode.ApprovalRejected
    case Expired => ErrorCode.ApprovalExpired
    case Invalidated => ApprovalInvalid
    case Consumed => ApprovalReplayed
    case Claimed => ApprovalAlreadyClaimed
    case _ => ApprovalNotExecutable
  }

  /** Checks that look at the request alone, in the order the Gate makes them. */
  function RequestFault(cfg: Config, req: Request): Option<ErrorCode> {
    if req.tool !in cfg.visible then Some(ToolNotVisible)
    else if req.digest.None? then Some(SemanticInvalid)
    else if !req.admitted then Some(PermissionDenied)
    else None
  }

  function DuplicateCode(i: Invocation): ErrorCode {
    if i.status.Started? then ResultUnknown
    else if i.status.Succeeded? then ReplaySuppressed
    else RepeatedCall
  }

  /** `_invoke_locked`, from its snapshot to the transaction it chooses. */
  function DecideInvoke(cfg: Config, db: Db, u: Unit, req: Request): Gate {
    if req.tool !in cfg.registry then Denying(req, ToolNotFound)
    else if !HoldsLease(db, u) then Denying(req, GateInternal)
    else if !req.contextMatches then Denying(req, PermissionDenied)
    else
      var spec := cfg.registry[req.tool];
      var approval := if req.call in db.approvals then Some(db.approvals[req.call]) else None;
      if db.run.status.Completed? || db.run.status.Stopped? || db.run.status.Failed? then
        if approval.Some? && (approval.value.status.Rejected? || approval.value.status.Expired?)
        then Denying(req, ApprovalCode(approval.value.status))
        else Denying(req, GateInternal)
      else if !(db.run.status.Running? || db.run.status.WaitingApproval?) then Denying(req, GateInternal)
      else if RequestFault(cfg, req).Some? then Denying(req, RequestFault(cfg, req).value)
      else
        var digest := req.digest.value;
        var existing := if req.call in db.calls then Some(db.calls[req.call]) else None;
        var needed := RequiresApproval(cfg, req.tool);
        var pass := Pass(req, spec, digest, false, approval.Some?, |Equivalent(db.calls, req.tool, digest)|);
        if existing.Some? && (existing.value.tool != req.tool || existing.value.digest != digest)
            then Denying(req, CallIdConflict)
        else if existing.Some? && !existing.value.status.Prepared? then Denying(req, DuplicateCode(existing.value))
        else if existing.None? && !spec.risk.Read? && WriteReplay(db.calls, req.tool, digest).Some?
          then Denying(req, WriteReplay(db.calls, req.tool, digest).value)
        else if approval.Some? && approval.value.status.Pending? then AwaitingDecision(req)
        else if approval.Some? && !approval.value.status.Approved?
            then Denying(req, ApprovalCode(approval.value.status))
        else if needed && approval.None? then
          if cfg.approvalRoles == {} then Denying(req, ApprovalChannelUnavailable)
              else OpeningApproval(pass, existing.Some?)
        else if existing.Some? && approval.None? then Denying(req, CallIdConflict)
        else if RepeatFault(cfg, db.calls, spec, req.tool, digest).Some?
          then Denying(req, RepeatFault(cfg, db.calls, spec, req.tool, digest).value)
        else if BudgetSpent(db.run, u.now) then Denying(req, ErrorCode.BudgetExhausted)
        else if approval.Some? then ClaimingApproval(pass)
        else PreparingCall(pass)
  }

  /** `_load_prepared_request`: re-entry takes the tool from the stored call. */
  function DecideLoad(db: Db, u: Unit, req: Request): Gate {
    if !HoldsLease(db, u) then Denying(req, GateInternal)
    else if req.call !in db.calls then Denying(req, ToolNotFound)
    else if !db.calls[req.call].status.Prepared? then Denying(req, RepeatedCall)
    else SnapshottingReentry(req.(tool := db.calls[req.call].tool))
  }

  /** `_reenter_prepared_locked`, from its snapshot to the transaction it chooses. */
  function DecideReentry(cfg: Config, db: Db, u: Unit, req: Request): Gate {
    if req.tool !in cfg.registry then Denying(req, ToolNotFound)
    else if !HoldsLease(db, u) then Denying(req, GateInternal)
    else if !req.contextMatches then Denying(req, PermissionDenied)
    else if !(db.run.status.Running? || db.run.status.WaitingApproval?) then Denying(req, GateInternal)
    else if RequestFault(cfg, req).Some? then Denying(req, RequestFault(cfg, req).value)
    else
      var spec := cfg.registry[req.tool];
      var digest := req.digest.value;
      if req.call !in db.calls || !db.calls[req.call].status.Prepared? then Denying(req, RepeatedCall)
      else if db.calls[req.call].tool != req.tool || db.calls[req.call].digest != digest
          then Denying(req, CallIdConflict)
      else if RepeatFault(cfg, db.calls, spec, req.tool, digest).Some?
        then Denying(req, RepeatFault(cfg, db.calls, spec, req.tool, digest).value)
      else if RecoveryBudgetSpent(db.run, u.now) then Denying(req, ErrorCode.BudgetExhausted)
      else
        var seen := |Equivalent(db.calls, req.tool, digest)|;
        if req.call !in db.approvals then
          if !db.run.status.Running? then Denying(req, GateInternal)
          else RecordingReentry(Pass(req, spec, digest, false, false, seen))
        else
          var pass := Pass(req, spec, digest, false, true, seen);
          match db.approvals[req.call].status
          case Pending =>
            // returns a WAITING_APPROVAL observation without writing anything
            if !db.run.status.WaitingApproval? then Denying(req, ApprovalStateInvalid) else Idle
          case Approved =>
            if !db.run.status.WaitingApproval? then Denying(req, ApprovalStateInvalid) else ResumingClaim(pass)
          case Claimed =>
            if !db.run.status.Running? then Denying(req, ApprovalStateInvalid) else ResumingClaim(pass)
          case _ => Denying(req, ApprovalNotExecutable)
  }

  /** `_invoke_internal_locked`: the verifier's own tools. */
  function DecideInternal(cfg: Config, db: Db, u: Unit, req: Request, allowed: set<RunStatus>, readOnly: bool): Gate {
    if req.tool !in cfg.internal then Denying(req, InternalAccessDenied)
    else
      var spec := cfg.internal[req.tool];
      if readOnly && !spec.risk.Read? then Denying(req, InternalAccessDenied)
      else if !HoldsLease(db, u) then Denying(req, GateInternal)
      else if !req.contextMatches then Denying(req, PermissionDenied)
      else if db.run.status !in allowed then Denying(req, CompletionStateInvalid)
      else if req.digest.None? then Denying(req, SemanticInvalid)
      else if req.call in db.calls && (db.calls[req.call].tool != req.tool
          || db.calls[req.call].digest != req.digest.value)
        then Denying(req, CallIdConflict)
      else if req.call in db.calls && !db.calls[req.call].status.Prepared?
          then Denying(req, DuplicateCode(db.calls[req.call]))
      else PreparingCall(Pass(req, spec, req.digest.value, true, false,
          |Equivalent(db.calls, req.tool, req.digest.value)|))
  }

  // ---------- transactions ----------

  function NewInvocation(pass: Pass, now: Time): Invocation {
    Invocation(pass.req.tool, pass.digest, pass.spec.risk, pass.spec.idempotent, pass.req.step,
               InvocationStatus.Prepared, 0, None, None, now, now)
  }

  function RecordToolBudget(db: Db, u: Unit, c: CallId): (r: Result<Db>)
    ensures r.Ok? ==> Quiet(db, r.value)
  {
    RecordBudgetDelta(db, u, ToolCallKey(c), 1, db.run.revision)
  }

  /** `_open_approval`: the call, its approval and the run's wait appear together. */
  function OpenApproval(cfg: Config, db: Db, u: Unit, pass: Pass, existing: bool): (r: Result<Db>) {
    if !HoldsLease(db, u) then Err(LeaseFault(db, u))
    else
      var prepared :- if existing then Ok(db)
                      else CreateInvocation(db, u, pass.req.call, NewInvocation(pass, u.now), db.run.revision);
      var asked :- ApprovalStore.Create(prepared, u,
                     Ask(pass.req.call, pass.digest, pass.req.actor, cfg.approvalRoles, cfg.approvalTtl));
      var waiting :- if db.run.status.Running?
                     then TransitionRun(asked, u, Running, asked.run.revision, WaitingApproval, None, None)
                     else Ok(asked);
      Ok(Log(waiting, u, GatePending(pass.req.call)))
  }

  lemma OpenApprovalQuiet(cfg: Config, db: Db, u: Unit, pass: Pass, existing: bool)
    ensures OpenApproval(cfg, db, u, pass, existing).Ok? ==> Quiet(db, OpenApproval(cfg, db, u, pass, existing).value)
  {
    hide Quiet, CreateInvocation, ApprovalStore.Create, TransitionRun, Log;
    if OpenApproval(cfg, db, u, pass, existing).Ok? {
      var prepared :=
        if existing then db
        else CreateInvocation(db, u, pass.req.call, NewInvocation(pass, u.now), db.run.revision).value;
      var asked := ApprovalStore.Create(prepared, u,
                     Ask(pass.req.call, pass.digest, pass.req.actor, cfg.approvalRoles, cfg.approvalTtl)).value;
      var waiting := if db.run.status.Running?
                     then TransitionRun(asked, u, Running, asked.run.revision, WaitingApproval, None, None).value
                     else asked;
      var last := Log(waiting, u, GatePending(pass.req.call));
      QuietReflexive(db);
      QuietReflexive(asked);
      LogQuiet(waiting, u, GatePending(pass.req.call));
      QuietTransitive(db, prepared, asked);
      QuietTransitive(db, asked, waiting);
      QuietTransitive(db, waiting, last);
    }
  }

  /** The write of `_wait_for_existing_approval`; it commits an expiry it happens to find. */
  function PollApproval(db: Db, u: Unit, req: Request): (r: Result<Db>)
    ensures r.Ok? ==> Quiet(db, r.value) && req.call in r.value.approvals
  {
    if !HoldsLease(db, u) then Err(LeaseFault(db, u))
    else if !db.run.status.WaitingApproval? then Err(ApprovalStateInvalid)
    else
      var loaded :- Load(db, u, req.call);
      if loaded.approvals[req.call].status.Pending? then Ok(Log(loaded, u, GatePending(req.call))) else Ok(loaded)
  }

  function ClaimTransaction(db: Db, u: Unit, c: CallId): (r: Result<Db>)
    ensures r.Ok? ==> Quiet(db, r.value)
  {
    var loaded :- Load(db, u, c);
    var claimed :- Claim(loaded, u, c, loaded.approvals[c].revision, c);
    QuietTransitive(db, loaded, claimed);
    var running :- TransitionRun(claimed, u, WaitingApproval, claimed.run.revision, Running, None, None);
    QuietTransitive(db, claimed, running);
    var charged :- RecordToolBudget(running, u, c);
    QuietTransitive(db, running, charged);
    Ok(charged)
  }

  /** `_claim_and_allow`: claim, resume the run and charge the call in one step. */
  function ClaimAndAllow(db: Db, u: Unit, pass: Pass): (r: Result<Db>)
    ensures r.Ok? ==> Quiet(db, r.value)
  {
    if !HoldsLease(db, u) then Err(LeaseFault(db, u))
    else
      var charged :- ClaimTransaction(db, u, pass.req.call);
      Ok(Log(charged, u, GateAllowed(pass.req.call)))
  }

  /** `_prepare_and_allow` and `_prepare_internal_and_allow`: only a model's call is charged. */
  function PrepareAndAllow(db: Db, u: Unit, pass: Pass): (r: Result<Db>)
    ensures r.Ok? ==> Quiet(db, r.value)
  {
    if !HoldsLease(db, u) then Err(LeaseFault(db, u))
    else
      var prepared :- CreateInvocation(db, u, pass.req.call, NewInvocation(pass, u.now), db.run.revision);
      var charged :- if pass.internal then Ok(prepared) else RecordToolBudget(prepared, u, pass.req.call);
      Ok(Log(charged, u, GateAllowed(pass.req.call)))
  }

  /** `_record_recovery_allow`. */
  function RecordRecoveryAllow(db: Db, u: Unit, pass: Pass): (r: Result<Db>)
    ensures r.Ok? ==> Quiet(db, r.value)
  {
    if !HoldsLease(db, u) then Err(LeaseFault(db, u)) else Ok(Log(db, u, GateAllowed(pass.req.call)))
  }

  /** `_resume_or_claim_recovery`. */
  function ResumeOrClaim(db: Db, u: Unit, pass: Pass): (r: Result<Db>)
    ensures r.Ok? ==> Quiet(db, r.value)
  {
    var c := pass.req.call;
    if !HoldsLease(db, u) then Err(LeaseFault(db, u))
    else
      var loaded :- Load(db, u, c);
      var a := loaded.approvals[c];
      var ready :-
        if a.status.Claimed? then ResumeClaim(loaded, u, c, a.revision, c)
        else if a.status.Approved? then ClaimTransaction(loaded, u, c)
        else Err(ApprovalNotExecutable);
      QuietTransitive(db, loaded, ready);
      Ok(Log(ready, u, GateAllowed(c)))
  }

  /** `_mark_started`: the one transaction that lets a handler run. */
  function MarkStarted(db: Db, u: Unit, c: CallId): (r: Result<Db>)
    ensures r.Ok? ==> HoldsLease(db, u) && c in db.calls && db.calls[c].status.Prepared?
    ensures r.Ok? ==>
              && Evolves(db, r.value) && r.value.calls == db.calls[c := r.value.calls[c]]
              && r.value.calls[c].status.Started?
  {
    if c !in db.calls then Err(StateNotFound)
    else TransitionInvocation(db, u, c, InvocationStatus.Prepared, db.calls[c].revision, InvocationStatus.Started, None)
  }

  predicate ValidOutcome(o: Outcome) {
    && TerminalCall(o.status)
    && (o.status.Succeeded? <==> o.error.None?)
    && (o.status.UnknownResult? ==> o.facts == [])
  }

  /** A handler that raises, or returns something malformed, leaves its effect unknown. */
  function Confirm(o: Outcome): Outcome {
    if ValidOutcome(o) then o else Outcome(InvocationStatus.UnknownResult, [], Some(ResultUnknown), o.breaks)
  }

  /** `_map_handler_result`: a time-out is a known result only for idempotent tools. */
  function MapOutcome(o: Outcome, idempotent: bool): InvocationStatus {
    if o.status.Succeeded? then InvocationStatus.Succeeded
    else if o.status.Failed? then InvocationStatus.Failed
    else if o.status.TimedOut? && idempotent then TimedOut
    else InvocationStatus.UnknownResult
  }

  function AddFacts(db: Db, u: Unit, c: CallId, facts: seq<Fact>): (r: Result<Db>)
    ensures r.Ok? ==> Quiet(db, r.value) && EvidenceOnly(db, r.value)
    decreases |facts|
  {
    if facts == [] then Ok(db)
    else
      var fact := Evidence(Some(c), facts[0].kind, facts[0].path, facts[0].content, u.now, true);
      var next :- AddEvidence(db, u, fact);
      var rest := AddFacts(next, u, c, facts[1..]);
      if rest.Ok? then QuietTransitive(db, next, rest.value); rest else rest
  }

  /** `_persist_result`: evidence, the terminal status and the spent approval appear together. */
  function PersistResult(db: Db, u: Unit, pass: Pass, outcome: Outcome): (r: Result<Db>)
    ensures r.Ok? ==> Quiet(db, r.value) && HoldsLease(db, u)
  {
    var c := pass.req.call;
    var target := MapOutcome(outcome, pass.spec.idempotent);
    var noted :- AddFacts(db, u, c, outcome.facts);
    if c !in noted.calls then Err(StateNotFound)
    else
      var moved :- TransitionInvocation(noted, u, c, InvocationStatus.Started, noted.calls[c].revision, target,
          outcome.error);
      QuietTransitive(db, noted, moved);
      if pass.approved && Deterministic(target) then
        var loaded :- Load(moved, u, c);
        QuietTransitive(db, moved, loaded);
        var consumed :- Consume(loaded, u, c, loaded.approvals[c].revision, c, target, outcome.error);
        QuietTransitive(db, loaded, consumed);
        Ok(consumed)
      else Ok(moved)
  }

  /** `_deny_observation`: the denial is logged when the lease still allows it. */
  function LogDenial(db: Db, u: Unit, req: Request, code: ErrorCode): (r: Db)
    ensures Quiet(db, r)
  {
    if HoldsLease(db, u) then Log(db, u, GateDenied(req.call, code)) else db
  }

  // ---------- one turn of one Gate ----------

  datatype Turn = Turn(gate: Gate, db: Db, ran: Option<CallId>)

  /** Commits a transaction and moves on, or rolls it back and denies the call. */
  function Commit(db: Db, r: Result<Db>, next: Gate, req: Request, code: ErrorCode): Turn {
    if r.Ok? then Turn(next, r.value, None) else Turn(Denying(req, code), db, None)
  }

  function AfterPoll(db: Db, req: Request): Gate
    requires req.call in db.approvals
  {
    match db.approvals[req.call].status
    case Approved => Snapshotting(req)
    case Pending => Idle
    case other => Denying(req, ApprovalCode(other))
  }

  /**
    The next transaction of a Gate, or its handler run.  `now` and `token` are those of the
    transaction, `outcome` is what the handler reports if this turn runs it.
   */
  function TakeTurn(cfg: Config, gate: Gate, db: Db, now: Time, token: Token, outcome: Outcome): Turn {
    match gate
    case Idle => Turn(Idle, db, None)
    case Snapshotting(req) => Turn(DecideInvoke(cfg, db, Unit(now, token, req.actor), req), db, None)
    case Loading(req) => Turn(DecideLoad(db, Unit(now, token, req.actor), req), db, None)
    case SnapshottingReentry(req) => Turn(DecideReentry(cfg, db, Unit(now, token, req.actor), req), db, None)
    case SnapshottingInternal(req, allowed, readOnly) =>
      Turn(DecideInternal(cfg, db, Unit(now, token, req.actor), req, allowed, readOnly), db, None)
    case OpeningApproval(pass, existing) =>
      Commit(db, OpenApproval(cfg, db, Unit(now, token, pass.req.actor), pass, existing), Idle, pass.req,
          IntentWriteFailed)
    case AwaitingDecision(req) =>
      var polled := PollApproval(db, Unit(now, token, req.actor), req);
      if polled.Ok? then Turn(AfterPoll(polled.value, req), polled.value, None)
      else Turn(Denying(req, GateInternal), db, None)
    case ClaimingApproval(pass) =>
      Commit(db, ClaimAndAllow(db, Unit(now, token, pass.req.actor), pass), Starting(pass), pass.req, IntentWriteFailed)
    case PreparingCall(pass) =>
      Commit(db, PrepareAndAllow(db, Unit(now, token, pass.req.actor), pass), Starting(pass), pass.req,
             if pass.internal then InternalAccessDenied else IntentWriteFailed)
    case RecordingReentry(pass) =>
      Commit(db, RecordRecoveryAllow(db, Unit(now, token, pass.req.actor), pass), Starting(pass), pass.req,
          IntentWriteFailed)
    case ResumingClaim(pass) =>
      Commit(db, ResumeOrClaim(db, Unit(now, token, pass.req.actor), pass), Starting(pass), pass.req, IntentWriteFailed)
    case Starting(pass) =>
      Commit(db, MarkStarted(db, Unit(now, token, pass.req.actor), pass.req.call), Executing(pass), pass.req,
          StartWriteFailed)
    case Executing(pass) =>
      var next := if outcome.breaks then Denying(pass.req, GateInternal) else Persisting(pass, Confirm(outcome));
      Turn(next, db, Some(pass.req.call))
    case Persisting(pass, result) =>
      Commit(db, PersistResult(db, Unit(now, token, pass.req.actor), pass, result), Idle, pass.req, ResultWriteFailed)
    case Denying(req, code) => Turn(Idle, LogDenial(db, Unit(now, token, req.actor), req, code), None)
  }
}
