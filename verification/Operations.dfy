/**
  Which operations of the harness, the approvers and the Gate take effect, and which are refused,
  read off the rows they meet.
 */
module Operations {
  import opened Domain
  import opened Wrappers
  import opened StateStore
  import opened ApprovalStore
  import opened Gate
  import opened Recovery
  import opened Protocol
  import opened ApprovalEffects
  import opened Approvals
  import Admission
  import AuditTrail
  import Results

  // ---------- moving the run ----------

  /** The end of a run without success, and no other move, has a reason; a success has a verdict. */
  predicate Reasoned(run: Run, target: RunStatus, stop: Option<StopReason>, verdict: Option<Acceptance>) {
    && (stop.Some? <==> target.Stopped? || target.Failed? || target.Blocked?)
    && (target.Completed? ==>
          (if verdict.Some? then !verdict.value.NotEvaluated? else !run.acceptance.NotEvaluated?))
  }

  /**
    The holder of the lease, who knows the row as it is, can make exactly the moves of the diagram that
    are properly reasoned.
   */
  lemma RunMovesExactly(db: Db, u: Unit, expected: RunStatus, revision: nat, target: RunStatus,
                        stop: Option<StopReason>, verdict: Option<Acceptance>)
    ensures var r := TransitionRun(db, u, expected, revision, target, stop, verdict);
            && (r.Ok? <==>
                  && HoldsLease(db, u) && expected == db.run.status && revision == db.run.revision
                  && AuditTrail.RunMay(db.run.status, target) && Reasoned(db.run, target, stop, verdict))
            && (r.Ok? ==>
                  && r.value.run.status == target && r.value.run.stopReason == stop
                  && r.value.run.acceptance ==
                       (if stop == Some(StopReason.BudgetExhausted) then NotEvaluated
                        else if verdict.Some? then verdict.value else db.run.acceptance)
                  && r.value.run.used == db.run.used && r.value.run.lastCheckpoint == db.run.lastCheckpoint)
  {
    hide Quiet, Evolves;
  }

  /** A step is planned exactly by the holder of the lease, in a run that is not over, and once. */
  lemma StepPlannedExactly(db: Db, u: Unit, n: nat)
    ensures var r := CreateStep(db, u, n, db.run.revision);
            && (r.Ok? <==>
                  && HoldsLease(db, u) && n !in db.steps
                  && !(db.run.status.Completed? || db.run.status.Stopped? || db.run.status.Failed?
                      || db.run.status.Blocked?))
            && (r.Ok? ==> r.value.steps == db.steps + {n} && r.value.run.status == db.run.status)
  {
    hide Quiet, Evolves;
  }

  // ---------- rows that others have changed ----------

  /** Who knows the run's row at another revision changes nothing of it, and repeats no charge but as it was. */
  lemma OldRunIsRefused(db: Db, u: Unit, revision: nat, target: RunStatus, stop: Option<StopReason>,
                        verdict: Option<Acceptance>, n: nat, c: CallId, i: Invocation, key: LedgerKey, delta: nat)
    requires HoldsLease(db, u) && revision != db.run.revision
    ensures TransitionRun(db, u, db.run.status, revision, target, stop, verdict) == Err(StateConflict)
    ensures CreateStep(db, u, n, revision) == Err(StateConflict)
    ensures CreateInvocation(db, u, c, i, revision) == Err(StateConflict)
    ensures RecordBudgetDelta(db, u, key, delta, revision)
         == if key in db.ledger && db.ledger[key] == delta then Ok(db) else Err(StateConflict)
  {
    hide Quiet, Evolves;
  }

  /** The same for the row of a call, and of an approval that is not due. */
  lemma OldRowIsRefused(db: Db, u: Unit, c: CallId, revision: nat, target: InvocationStatus, error: Option<ErrorCode>)
    requires HoldsLease(db, u) && c in db.calls && c in db.approvals
    ensures revision != db.calls[c].revision ==>
              TransitionInvocation(db, u, c, db.calls[c].status, revision, target, error) == Err(StateConflict)
    ensures revision != db.approvals[c].revision && !Due(db.approvals[c], u.now) ==>
              && Claim(db, u, c, revision, c).Err? && ResumeClaim(db, u, c, revision, c).Err?
              && Consume(db, u, c, revision, c, target, error).Err? && Invalidate(db, u, c, revision).Err?
  {
    hide Quiet, Evolves, Expire, BindingHolds;
  }

  // ---------- deciding an approval ----------

  /** Someone else, who has an allowed role, decides a current row while the run waits for it. */
  predicate MayDecide(db: Db, c: CallId, revision: nat, actor: Actor, roles: set<Role>)
    requires c in db.approvals
  {
    && db.approvals[c].revision == revision && db.run.status.WaitingApproval?
    && actor != db.approvals[c].requestedBy && exists r :: r in roles && r in db.approvals[c].roles
  }

  function Decided(a: Approval, actor: Actor, now: Time, grant: bool): Approval {
    a.(status := if grant then ApprovalStatus.Approved else ApprovalStatus.Rejected, decidedAt := Some(now),
       decidedBy := Some(actor), revision := a.revision + 1)
  }

  function StoppedRun(run: Run, reason: StopReason, now: Time): Run {
    run.(status := Stopped, stopReason := Some(reason), acceptance := NotEvaluated, endedAt := Some(now),
         revision := run.revision + 1)
  }

  /** Stopping the run that waits ends it now, for that reason and without a verdict. */
  lemma StopsExactly(db: Db, u: Unit, reason: StopReason)
    requires HoldsLease(db, u) && db.run.status.WaitingApproval?
    ensures StopRun(db, u, reason).Ok?
    ensures var b := StopRun(db, u, reason).value;
            && b.run == StoppedRun(db.run, reason, u.now) && b.approvals == db.approvals && b.calls == db.calls
            && b.lease == db.lease
  {
    hide Quiet, Evolves;
  }

  lemma RolesMeet(a: set<Role>, b: set<Role>)
    ensures a !! b <==> !(exists r :: r in b && r in a)
  {
    if exists r :: r in b && r in a {
      var r :| r in b && r in a;
      assert r in a * b;
    }
  }

  lemma DecidesExactly(db: Db, u: Unit, c: CallId, revision: nat, roles: set<Role>, grant: bool)
    requires HoldsLease(db, u) && c in db.approvals && db.approvals[c].status.Pending?
    ensures var r := DecideCurrent(db, u, c, revision, u.actor, roles, grant);
            && (r.Ok? <==> MayDecide(db, c, revision, u.actor, roles))
            && (r.Ok? ==>
                  && r.value.approvals == db.approvals[c := Decided(db.approvals[c], u.actor, u.now, grant)]
                  && r.value.calls == db.calls
                  && r.value.run == if grant then db.run else StoppedRun(db.run, StopReason.ApprovalRejected, u.now))
  {
    hide Quiet, Evolves, StopRun;
    RolesMeet(db.approvals[c].roles, roles);
    var a := db.approvals[c];
    var decided := a.(status := if grant then ApprovalStatus.Approved else ApprovalStatus.Rejected,
                      decidedAt := Some(u.now), decidedBy := Some(u.actor));
    var recorded := Log(PutApproval(db, c, decided), u, ApprovalDecided(a.id, u.actor, roles, grant));
    if MayDecide(db, c, revision, u.actor, roles) && !grant {
      StopsExactly(recorded, u, StopReason.ApprovalRejected);
    }
  }

  /** A decision on a pending row that is not due takes effect exactly then, and else changes nothing. */
  lemma DecisionTakesEffectExactly(cfg: Config, s: System, t: Token, actor: Actor, c: CallId, revision: nat,
                                   roles: set<Role>, grant: bool)
    requires HoldsLease(s.db, Unit(s.now, t, actor)) && c in s.db.approvals
    requires s.db.approvals[c].status.Pending? && s.now < s.db.approvals[c].expiresAt
    ensures var b := Next(cfg, s, DecideApproval(t, actor, c, revision, roles, grant)).db;
            if MayDecide(s.db, c, revision, actor, roles) then
              && b.approvals == s.db.approvals[c := Decided(s.db.approvals[c], actor, s.now, grant)]
              && b.calls == s.db.calls
              && b.run == if grant then s.db.run else StoppedRun(s.db.run, StopReason.ApprovalRejected, s.now)
            else b == s.db
  {
    hide Quiet, Evolves, DecideCurrent, MayDecide, Expire, Decided, StoppedRun;
    DecidesExactly(s.db, Unit(s.now, t, actor), c, revision, roles, grant);
  }

  // ---------- asking again ----------

  /** The approval that stands is the one asked for: same asker, arguments, roles and lifetime. */
  predicate SameAsk(a: Approval, ask: Ask) {
    && a.requestedBy == ask.requestedBy && a.digest == ask.digest && a.roles == ask.roles
    && a.expiresAt == a.requestedAt + ask.ttl
  }

  /** Asking again for a call that has an approval answers with it, exactly while it can still be used. */
  lemma AskingAgainExactly(db: Db, u: Unit, ask: Ask)
    requires HoldsLease(db, u) && ask.requestedBy == u.actor
    requires ask.call in db.approvals && ask.call in db.calls && ask.digest == db.calls[ask.call].digest
    ensures var r, a := ApprovalStore.Create(db, u, ask), db.approvals[ask.call];
            && (r.Ok? <==>
                  && (a.status.Pending? || a.status.Approved?) && u.now < a.expiresAt && SameAsk(a, ask)
                  && db.run.status.WaitingApproval? && BindingHolds(db, ask.call))
            && (r.Ok? ==> r.value == db)
  {
    hide Quiet, Evolves, BindingHolds;
  }

  // ---------- using an approval ----------

  lemma BoundMeans(db: Db, c: CallId)
    requires c in db.approvals
    ensures BindingHolds(db, c) <==> c in db.calls && BoundTo(db.run, c, db.calls[c], db.approvals[c])
  {
  }

  /**
    An approval that is not due is claimed exactly once granted, for its own call, bound to it,
    while the run waits.
   */
  lemma ClaimTakenExactly(db: Db, u: Unit, c: CallId, revision: nat, intent: CallId)
    requires HoldsLease(db, u) && c in db.approvals && c in db.calls && !Due(db.approvals[c], u.now)
    ensures var a, r := db.approvals[c], Claim(db, u, c, revision, intent);
            && (r.Ok? <==>
                  && a.status.Approved? && a.revision == revision && intent == c && db.run.status.WaitingApproval?
                  && BoundTo(db.run, c, db.calls[c], a))
            && (r.Ok? ==>
                  && r.value.calls == db.calls && r.value.run == db.run
                  && r.value.approvals == db.approvals[c := a.(
                       status := Claimed, claimedAt := Some(u.now), intent := Some(c), revision := a.revision + 1)])
  {
    hide Quiet, Evolves, BindingHolds, BoundTo, Expire;
    BoundMeans(db, c);
  }

  /** A claim is taken up again exactly by the call that made it, while that is PREPARED and the run goes on. */
  lemma ClaimRecoveredExactly(db: Db, u: Unit, c: CallId, revision: nat, intent: CallId)
    requires HoldsLease(db, u) && c in db.approvals && c in db.calls
    ensures var a, r := db.approvals[c], ResumeClaim(db, u, c, revision, intent);
            && (r.Ok? <==>
                  && a.status.Claimed? && a.revision == revision && a.intent == Some(intent) && intent == c
                  && db.run.status.Running? && db.calls[c].status.Prepared? && BoundTo(db.run, c, db.calls[c], a))
            && (r.Ok? ==> r.value.approvals == db.approvals && r.value.calls == db.calls && r.value.run == db.run)
  {
    hide Quiet, Evolves, BindingHolds, BoundTo;
    BoundMeans(db, c);
  }

  /** A claim is spent exactly by the known result that its own call has, while the run goes on. */
  lemma ClaimSpentExactly(db: Db, u: Unit, c: CallId, revision: nat, intent: CallId, result: InvocationStatus,
                          code: Option<ErrorCode>)
    requires HoldsLease(db, u) && c in db.approvals && c in db.calls
    ensures var a, r := db.approvals[c], Consume(db, u, c, revision, intent, result, code);
            && (r.Ok? <==>
                  && a.status.Claimed? && a.revision == revision && a.intent == Some(intent) && intent == c
                  && db.run.status.Running? && db.calls[c].status == result
                  && (result.Succeeded? || result.Failed? || result.TimedOut?))
            && (r.Ok? ==>
                  && r.value.calls == db.calls && r.value.run == db.run
                  && r.value.approvals == db.approvals[c := a.(
                       status := Consumed, consumedAt := Some(u.now), consumptionCode := code,
                       revision := a.revision + 1)])
  {
    hide Quiet, Evolves;
  }

  // ---------- waiting for a decision ----------

  function ExpiredNow(a: Approval): Approval {
    a.(status := ApprovalStatus.Expired, revision := a.revision + 1)
  }

  /**
    A Gate that looks after the approval it waits for: while that is pending it goes on waiting; once
    it is granted, the call is looked at again; if its time is up, the row expires, the run stops, and
    the call is denied.
   */
  lemma WaitingGateLooks(cfg: Config, s: System, t: Token, req: Request, outcome: Outcome)
    requires GateOf(s, t) == AwaitingDecision(req) && HoldsLease(s.db, Unit(s.now, t, req.actor))
    requires req.call in s.db.approvals && s.db.run.status.WaitingApproval?
    requires Active(s.db.approvals[req.call].status)
    ensures var a, e := s.db.approvals[req.call], Next(cfg, s, Advance(t, outcome));
            && e.db.calls == s.db.calls
            && if a.expiresAt <= s.now then
                 && GateOf(e, t) == Denying(req, ErrorCode.ApprovalExpired)
                 && e.db.approvals == s.db.approvals[req.call := ExpiredNow(a)]
                 && e.db.run == StoppedRun(s.db.run, StopReason.ApprovalExpired, s.now)
               else
                 && e.db == (if a.status.Pending?
                             then Log(s.db, Unit(s.now, t, req.actor), GatePending(req.call)) else s.db)
                 && GateOf(e, t) == if a.status.Pending? then Idle else Snapshotting(req)
  {
    hide Quiet, Evolves, StoreStep, PollApproval, StoppedRun;
    PollExactly(s.db, Unit(s.now, t, req.actor), req);
  }

  /** An active row that expires stops the run that waits for it, in the same transaction. */
  lemma ExpiresExactly(db: Db, u: Unit, c: CallId)
    requires HoldsLease(db, u) && c in db.approvals && db.run.status.WaitingApproval?
    requires Active(db.approvals[c].status)
    ensures Expire(db, u, c).Ok?
    ensures var b := Expire(db, u, c).value;
            && b.approvals == db.approvals[c := ExpiredNow(db.approvals[c])] && b.calls == db.calls
            && b.run == StoppedRun(db.run, StopReason.ApprovalExpired, u.now)
  {
    hide Quiet, Evolves, StopRun;
    var a := db.approvals[c];
    var marked := Log(PutApproval(db, c, a.(status := ApprovalStatus.Expired)), u, ApprovalExpiredAt(a.id));
    StopsExactly(marked, u, StopReason.ApprovalExpired);
  }

  lemma PollExactly(db: Db, u: Unit, req: Request)
    requires HoldsLease(db, u) && req.call in db.approvals && db.run.status.WaitingApproval?
    requires Active(db.approvals[req.call].status)
    ensures var a, r := db.approvals[req.call], PollApproval(db, u, req);
            && r.Ok? && r.value.calls == db.calls
            && if a.expiresAt <= u.now then
                 && r.value.approvals == db.approvals[req.call := ExpiredNow(a)]
                 && r.value.run == StoppedRun(db.run, StopReason.ApprovalExpired, u.now)
               else r.value == if a.status.Pending? then Log(db, u, GatePending(req.call)) else db
  {
    hide Quiet, Evolves, Expire, StoppedRun;
    if db.approvals[req.call].expiresAt <= u.now {
      ExpiresExactly(db, u, req.call);
    }
  }

  // ---------- calls that are known ----------

  /** Why a call that was made before is not made again. */
  function KnownCode(i: Invocation): ErrorCode {
    match i.status
    case Started => ResultUnknown
    case Succeeded => ReplaySuppressed
    case _ => RepeatedCall
  }

  /** A call of a live run that is asked for again under its identity is denied for what became of it. */
  lemma KnownCallIsDenied(cfg: Config, db: Db, u: Unit, req: Request)
    requires HoldsLease(db, u) && Admission.AskedRightly(cfg, req) && Admission.Live(db.run) && req.call in db.calls
    ensures var i, g := db.calls[req.call], DecideInvoke(cfg, db, u, req);
            && (i.tool != req.tool || Some(i.digest) != req.digest ==> g == Denying(req, CallIdConflict))
            && (i.tool == req.tool && Some(i.digest) == req.digest && !i.status.Prepared? ==>
                  g == Denying(req, KnownCode(i)))
            && (i.tool == req.tool && Some(i.digest) == req.digest && i.status.Prepared? && req.call in db.approvals ==>
                  match db.approvals[req.call].status
                  case Pending => g == AwaitingDecision(req)
                  case Approved => g.ClaimingApproval? || g.Denying?
                  case Claimed => g == Denying(req, ApprovalAlreadyClaimed)
                  case Consumed => g == Denying(req, ApprovalReplayed)
                  case Rejected => g == Denying(req, ErrorCode.ApprovalRejected)
                  case Expired => g == Denying(req, ErrorCode.ApprovalExpired)
                  case Invalidated => g == Denying(req, ApprovalInvalid))
  {
    hide Equivalent, WriteReplay, RepeatFault, BudgetSpent, RequiresApproval;
  }

  /** A verifier's call that is asked for again under its identity: no repeat reaches a handler. */
  lemma KnownInternalCallIsDenied(cfg: Config, db: Db, u: Unit, req: Request, allowed: set<RunStatus>, readOnly: bool)
    requires HoldsLease(db, u) && Admission.MayVerify(cfg, db, req, allowed, readOnly) && req.call in db.calls
    ensures var i, g := db.calls[req.call], DecideInternal(cfg, db, u, req, allowed, readOnly);
            if i.tool != req.tool || Some(i.digest) != req.digest then g == Denying(req, CallIdConflict)
            else if !i.status.Prepared? then g == Denying(req, KnownCode(i))
            else g.PreparingCall? && PrepareAndAllow(db, u, g.pass).Err?
  {
    hide Equivalent, Quiet, Evolves;
  }

  /** In a run that ended because an approval was refused or ran out, the call is told so. */
  lemma EndedRunTellsWhy(cfg: Config, db: Db, u: Unit, req: Request)
    requires HoldsLease(db, u) && req.tool in cfg.registry && req.contextMatches
    requires db.run.status.Completed? || db.run.status.Stopped? || db.run.status.Failed?
    ensures DecideInvoke(cfg, db, u, req) == Denying(req,
              if req.call in db.approvals && db.approvals[req.call].status.Rejected? then ErrorCode.ApprovalRejected
              else if req.call in db.approvals && db.approvals[req.call].status.Expired? then ErrorCode.ApprovalExpired
              else GateInternal)
  {
    hide Equivalent, WriteReplay, RepeatFault, BudgetSpent, RequiresApproval;
  }

  /** A re-entry looks at the same things, but not at how many calls have been charged. */
  predicate MayGoBack(cfg: Config, db: Db, req: Request, now: Time)
    requires Admission.AskedRightly(cfg, req)
  {
    && Admission.NotRepeated(cfg, db.calls, cfg.registry[req.tool], req.tool, req.digest.value)
    && db.run.used.steps < db.run.limits.steps && db.run.used.tokenCost < db.run.limits.tokenCost
    && Admission.TimeLeft(db.run, now)
  }

  /** What re-entry of a known call comes to, by its approval and the status of the run; waiting writes nothing. */
  lemma ReentryDecidesExactly(cfg: Config, db: Db, u: Unit, req: Request)
    requires HoldsLease(db, u) && Admission.AskedRightly(cfg, req) && Admission.Live(db.run) && req.call in db.calls
    ensures var i, g := db.calls[req.call], DecideReentry(cfg, db, u, req);
            if !i.status.Prepared? then g == Denying(req, RepeatedCall)
            else if i.tool != req.tool || Some(i.digest) != req.digest then g == Denying(req, CallIdConflict)
            else if !MayGoBack(cfg, db, req, u.now) then
              g.Denying? && g.code in {ReplaySuppressed, RepeatedCall, ErrorCode.BudgetExhausted}
            else if req.call !in db.approvals then
              if db.run.status.Running? then g.RecordingReentry? && g.pass.req == req
                  else g == Denying(req, GateInternal)
            else
              match db.approvals[req.call].status
              case Pending => g == if db.run.status.WaitingApproval? then Idle else Denying(req, ApprovalStateInvalid)
              case Approved =>
                if db.run.status.WaitingApproval? then g.ResumingClaim? && g.pass.req == req
                else g == Denying(req, ApprovalStateInvalid)
              case Claimed =>
                if db.run.status.Running? then g.ResumingClaim? && g.pass.req == req
                else g == Denying(req, ApprovalStateInvalid)
              case _ => g == Denying(req, ApprovalNotExecutable)
  {
    hide Equivalent, WriteReplay, RepeatFault, Admission.NotRepeated, Admission.StartedAlike, RequiresApproval;
    Admission.RepeatMeans(cfg, db.calls, cfg.registry[req.tool], req.tool, req.digest.value);
    RepeatCodes(cfg, db.calls, cfg.registry[req.tool], req.tool, req.digest.value);
  }

  predicate SucceededBefore(calls: map<CallId, Invocation>, tool: Tool, digest: nat) {
    exists c :: c in calls && calls[c].tool == tool && calls[c].digest == digest && calls[c].status.Succeeded?
  }

  /** A write that was started before is a replay if it succeeded then; anything else is one call too many. */
  lemma RepeatCodes(cfg: Config, calls: map<CallId, Invocation>, spec: ToolSpec, tool: Tool, digest: nat)
    ensures var r := RepeatFault(cfg, calls, spec, tool, digest);
            r.Some? ==>
              r.value == if !spec.risk.Read? && SucceededBefore(calls, tool, digest) then ReplaySuppressed
                         else RepeatedCall
  {
    assert forall c :: c in Equivalent(calls, tool, digest) <==>
             c in calls && calls[c].tool == tool && calls[c].digest == digest && !calls[c].status.Prepared?;
  }

  /** A re-entry is of the stored tool, and of a call that is still PREPARED. */
  lemma ReentryLoadsExactly(db: Db, u: Unit, req: Request)
    requires HoldsLease(db, u)
    ensures DecideLoad(db, u, req)
         == if req.call !in db.calls then Denying(req, ToolNotFound)
            else if db.calls[req.call].status.Prepared?
            then SnapshottingReentry(req.(tool := db.calls[req.call].tool))
            else Denying(req, RepeatedCall)
  {
  }

  // ---------- new calls ----------

  /**
    A row that was just made for a request: what was asked for, as the tool is described, and
    nothing has happened to it.
   */
  predicate Fresh(i: Invocation, pass: Pass, now: Time) {
    && i.tool == pass.req.tool && i.digest == pass.digest && i.step == pass.req.step
    && i.risk == pass.spec.risk && i.idempotent == pass.spec.idempotent
    && i.status.Prepared? && i.revision == 0 && i.approval.None? && i.error.None?
    && i.createdAt == now && i.updatedAt == now
  }

  /** A call that is let through is recorded as it was asked for, and charged one unit unless it is the verifier's. */
  lemma NewCallIsRecorded(db: Db, u: Unit, pass: Pass)
    requires PrepareAndAllow(db, u, pass).Ok?
    ensures var b, c := PrepareAndAllow(db, u, pass).value, pass.req.call;
            && c !in db.calls && c in b.calls && b.calls == db.calls[c := b.calls[c]] && Fresh(b.calls[c], pass, u.now)
            && b.approvals == db.approvals && b.run.status == db.run.status
            && (pass.internal ==> b.run.used == db.run.used && b.ledger == db.ledger)
            && (!pass.internal ==> ToolCallKey(c) in b.ledger && b.ledger[ToolCallKey(c)] == 1)
  {
    hide Quiet, Evolves, RecordBudgetDelta;
    var prepared := CreateInvocation(db, u, pass.req.call, NewInvocation(pass, u.now), db.run.revision).value;
    if !pass.internal {
      ChargeKeepsRows(prepared, u, ToolCallKey(pass.req.call), 1, prepared.run.revision);
    }
  }

  lemma ChargeKeepsRows(db: Db, u: Unit, key: LedgerKey, delta: nat, revision: nat)
    requires RecordBudgetDelta(db, u, key, delta, revision).Ok?
    ensures var b := RecordBudgetDelta(db, u, key, delta, revision).value;
            && b.calls == db.calls && b.approvals == db.approvals && b.run.status == db.run.status
            && key in b.ledger && b.ledger[key] == delta
  {
    hide Quiet, Evolves;
  }

  // ---------- results ----------

  /** A report that the Gate takes as it is. */
  predicate Sound(o: Outcome) {
    match o.status
    case Succeeded => o.error.None?
    case Failed => o.error.Some?
    case TimedOut => o.error.Some?
    case UnknownResult => o.error.Some? && o.facts == []
    case _ => false
  }

  function Reported(o: Outcome, idempotent: bool): InvocationStatus {
    if Sound(o) && (o.status.TimedOut? ==> idempotent) then o.status else InvocationStatus.UnknownResult
  }

  function ReportedError(o: Outcome): Option<ErrorCode> {
    if Sound(o) then o.error else Some(ResultUnknown)
  }

  function ReportedFacts(o: Outcome): seq<Fact> {
    if Sound(o) then o.facts else []
  }

  /** Exactly the facts of the report are new, from identity `first` on: about this call, as of now, and valid. */
  predicate FactsOf(a: map<nat, Evidence>, first: nat, b: map<nat, Evidence>, c: CallId, facts: seq<Fact>, now: Time) {
    && (forall e :: e in a && e < first ==> e in b && b[e] == a[e])
    && (forall e :: e in b ==> e in a || first <= e < first + |facts|)
    && forall e :: first <= e < first + |facts| ==>
         e in b && b[e] == Evidence(Some(c), facts[e - first].kind, facts[e - first].path, facts[e - first].content,
             now,
                                    true)
  }

  lemma {:induction false} FactsAdded(db: Db, u: Unit, c: CallId, facts: seq<Fact>)
    requires AddFacts(db, u, c, facts).Ok?
    ensures var b := AddFacts(db, u, c, facts).value;
            && FactsOf(db.evidence, db.nextId, b.evidence, c, facts, u.now) && b.nextId == db.nextId + |facts|
            && b.calls == db.calls
    decreases |facts|
  {
    hide Quiet, Evolves, AddEvidence;
    if facts != [] {
      var fact := Evidence(Some(c), facts[0].kind, facts[0].path, facts[0].content, u.now, true);
      FactAdded(db, u, fact);
      var next := AddEvidence(db, u, fact).value;
      FactsAdded(next, u, c, facts[1..]);
      OneFactMore(db, next, AddFacts(next, u, c, facts[1..]).value, c, facts, u.now);
    }
  }

  lemma OneFactMore(db: Db, next: Db, b: Db, c: CallId, facts: seq<Fact>, now: Time)
    requires facts != [] && next.nextId == db.nextId + 1
    requires FactsOf(next.evidence, next.nextId, b.evidence, c, facts[1..], now)
    requires next.evidence
          == db.evidence[db.nextId := Evidence(Some(c), facts[0].kind, facts[0].path, facts[0].content, now, true)]
    ensures FactsOf(db.evidence, db.nextId, b.evidence, c, facts, now)
  {
    assert db.nextId in next.evidence;
    assert forall k :: 0 <= k < |facts[1..]| ==> facts[1..][k] == facts[k + 1];
  }

  lemma FactAdded(db: Db, u: Unit, fact: Evidence)
    requires AddEvidence(db, u, fact).Ok?
    ensures var b := AddEvidence(db, u, fact).value;
            b.evidence == db.evidence[db.nextId := fact] && b.nextId == db.nextId + 1 && b.calls == db.calls
  {
    hide Quiet, Evolves;
  }

  lemma ReportMeans(o: Outcome, idempotent: bool)
    ensures MapOutcome(Confirm(o), idempotent) == Reported(o, idempotent)
    ensures Confirm(o).error == ReportedError(o) && Confirm(o).facts == ReportedFacts(o)
  {
  }

  /** The row of the call and the facts after a result was stored are what the handler reported. */
  lemma ResultIsAsReported(db: Db, u: Unit, pass: Pass, o: Outcome)
    requires PersistResult(db, u, pass, Confirm(o)).Ok?
    ensures var c, b := pass.req.call, PersistResult(db, u, pass, Confirm(o)).value;
            && c in db.calls && c in b.calls
            && b.calls[c] == db.calls[c].(
                 status := Reported(o, pass.spec.idempotent), error := ReportedError(o), updatedAt := u.now,
                 revision := db.calls[c].revision + 1)
            && FactsOf(db.evidence, db.nextId, b.evidence, c, ReportedFacts(o), u.now)
  {
    hide Quiet, Evolves, AddFacts, TransitionInvocation, Load, Consume, MapOutcome, Confirm, FactsOf, Reported,
         ReportedError, ReportedFacts;
    var c, confirmed := pass.req.call, Confirm(o);
    var target := MapOutcome(confirmed, pass.spec.idempotent);
    ReportMeans(o, pass.spec.idempotent);
    FactsAdded(db, u, c, confirmed.facts);
    var noted := AddFacts(db, u, c, confirmed.facts).value;
    CallMoves(noted, u, c, noted.calls[c].revision, target, confirmed.error);
    var moved := TransitionInvocation(noted, u, c, InvocationStatus.Started, noted.calls[c].revision, target,
                                      confirmed.error).value;
    if pass.approved && Deterministic(target) {
      LoadEffect(moved, u, c);
      LoadKeepsFacts(moved, u, c);
      var loaded := Load(moved, u, c).value;
      ConsumeKeepsFacts(loaded, u, c, loaded.approvals[c].revision, c, target, confirmed.error);
    }
  }

  lemma CallMoves(db: Db, u: Unit, c: CallId, revision: nat, target: InvocationStatus, error: Option<ErrorCode>)
    requires TransitionInvocation(db, u, c, InvocationStatus.Started, revision, target, error).Ok?
    ensures var b := TransitionInvocation(db, u, c, InvocationStatus.Started, revision, target, error).value;
            && c in b.calls && b.evidence == db.evidence
            && b.calls[c] == db.calls[c].(status := target, error := error, updatedAt := u.now,
                                          revision := db.calls[c].revision + 1)
  {
    hide Quiet, Evolves;
  }

  lemma LoadKeepsFacts(db: Db, u: Unit, c: CallId)
    requires Load(db, u, c).Ok?
    ensures Load(db, u, c).value.evidence == db.evidence && Load(db, u, c).value.calls == db.calls
  {
    hide Quiet, Evolves;
  }

  lemma ConsumeKeepsFacts(db: Db, u: Unit, c: CallId, revision: nat, intent: CallId, result: InvocationStatus,
                          code: Option<ErrorCode>)
    requires Consume(db, u, c, revision, intent, result, code).Ok?
    ensures var b := Consume(db, u, c, revision, intent, result, code).value;
            b.evidence == db.evidence && b.calls == db.calls
  {
    hide Quiet, Evolves;
  }

  // ---------- checkpoints ----------

  /** The boundary is one that the rows have reached. */
  predicate Reached(db: Db, b: Boundary) {
    && (match b.kind
        case CompletionRecorded => db.run.status.Verifying? || db.run.status.Completed? || db.run.status.Failed?
        case ApprovalRequested => db.run.status.Running? || db.run.status.WaitingApproval?
        case ApprovalSettled => db.run.status.Running? || db.run.status.WaitingApproval?
        case _ => db.run.status.Running?)
    && (b.kind.StepCompleted? ==> b.step.Some?)
    && (b.step.Some? ==> b.step.value in db.steps)
    && (b.call.Some? ==> b.call.value in db.calls)
    && (b.kind.ToolSucceeded? ==> b.call.Some? && db.calls[b.call.value].status.Succeeded?)
    && (b.kind.ToolFailed? ==> b.call.Some? && db.calls[b.call.value].status.Failed?)
    && (b.kind.ToolTimedOut? ==> b.call.Some? && db.calls[b.call.value].status.TimedOut?)
    && (b.kind.ToolUnknownResult? ==> b.call.Some? && db.calls[b.call.value].status.UnknownResult?)
    && (b.approval.Some? ==> b.approval.value in db.approvals)
    && (b.kind.ApprovalRequested? ==> b.approval.Some? && db.approvals[b.approval.value].status.Pending?)
    && (b.kind.ApprovalSettled? ==> b.approval.Some? && !db.approvals[b.approval.value].status.Pending?)
  }

  /** A new checkpoint holds the rows, the head of the log and the working tree of this moment. */
  predicate Shows(db: Db, c: Checkpoint, b: Boundary, world: World, now: Time)
    requires db.audit != []
  {
    && c.boundary == b && c.runRevision == db.run.revision && c.createdAt == now
    && c.snapshot.run == db.run && c.snapshot.calls == db.calls && c.snapshot.approvals == db.approvals
    && c.snapshot.evidence == db.evidence && c.snapshot.workspace == world.workspace && c.snapshot.createdAt == now
    && c.snapshot.auditSequence == c.auditSequence == db.audit[|db.audit| - 1].sequence
    && c.snapshot.auditHash == c.auditHash == db.audit[|db.audit| - 1].hash
  }

  /** A checkpoint at a boundary that none was taken at is written exactly if the rows have reached it. */
  lemma CheckpointTakenExactly(cfg: Config, db: Db, u: Unit, b: Boundary, world: World)
    requires HoldsLease(db, u) && db.audit != [] && db.run.config == cfg.fingerprint
    requires forall i :: 0 <= i < |db.checkpoints| ==> !SameBoundary(db.checkpoints[i], b)
    ensures var r := CreateCheckpoint(cfg, db, u, b, world);
            && (r.Ok? <==> Reached(db, b))
            && (r.Ok? ==>
                  && r.value.db.checkpoints == db.checkpoints + [r.value.checkpoint]
                  && r.value.db.run == db.run.(lastCheckpoint := Some(r.value.checkpoint.id),
                                               revision := r.value.db.run.revision)
                  && Shows(db, r.value.checkpoint, b, world, u.now))
  {
    hide Quiet, Evolves, MaxSequence, BoundaryAllowed, MarkCheckpointWritten;
    ReachedMeans(db, b);
    var row := NewCheckpoint(db, u, b, world);
    var inserted := db.(checkpoints := db.checkpoints + [row], nextId := row.id + 1);
    assert inserted.checkpoints[|db.checkpoints|].id == row.id;
    MarkExactly(inserted, u, row.id);
  }

  lemma ReachedMeans(db: Db, b: Boundary)
    ensures BoundaryAllowed(db, b) <==> Reached(db, b)
  {
  }

  lemma MarkExactly(db: Db, u: Unit, id: nat)
    requires HoldsLease(db, u)
    ensures MarkCheckpointWritten(db, u, id).Ok? <==>
              exists i :: 0 <= i < |db.checkpoints| && db.checkpoints[i].id == id
    ensures MarkCheckpointWritten(db, u, id).Ok? ==>
              var b := MarkCheckpointWritten(db, u, id).value;
              && b.checkpoints == db.checkpoints
              && b.run == db.run.(lastCheckpoint := Some(id), revision := b.run.revision)
  {
    hide Quiet, Evolves;
  }

  /** A configuration that has changed since the run began takes no checkpoint. */
  lemma ChangedConfigTakesNone(cfg: Config, db: Db, u: Unit, b: Boundary, world: World)
    requires HoldsLease(db, u) && db.run.config != cfg.fingerprint
    ensures CreateCheckpoint(cfg, db, u, b, world) == Err(RecoveryConfigMismatch)
  {
    hide Quiet, Evolves, MaxSequence, BoundaryAllowed, MarkCheckpointWritten;
  }

  // ---------- facts ----------

  /** Who holds the lease records a fact exactly if it is about no call, or about one that has not ended. */
  lemma FactRecordedExactly(db: Db, u: Unit, fact: Evidence)
    requires HoldsLease(db, u)
    ensures AddEvidence(db, u, fact).Ok? <==>
              (fact.call.Some? ==>
                 && fact.call.value in db.calls
                 && (db.calls[fact.call.value].status.Prepared? || db.calls[fact.call.value].status.Started?))
  {
    hide Quiet, Evolves;
  }
}
