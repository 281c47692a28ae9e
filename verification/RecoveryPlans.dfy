/**
  What a recovery plan promises, that the Gate keeps that promise, and that asking again settles.
 */
module RecoveryPlans {
  import opened Domain
  import opened Wrappers
  import opened StateStore
  import opened ApprovalStore
  import opened Gate
  import opened Recovery
  import opened Protocol
  import opened ApprovalEffects
  import opened StepEffects
  import opened Approvals
  import opened Execution
  import opened Outstanding
  import Coupling

  // ---------- plans ----------

  function StatusFor(action: RecoveryAction): RecoveryStatus {
    match action
    case ContinueAgent => Resumable
    case ReenterGate => Resumable
    case ResumeClaimThenReenterGate => Resumable
    case RebuildCheckpointThenContinue => Resumable
    case WaitForApproval => AwaitingApproval
    case MarkUnknownResult => NeedsReview
    case ManualReview => NeedsReview
    case AlreadyTerminal => Finished
  }

  predicate NamesCall(action: RecoveryAction) {
    action.ReenterGate? || action.ResumeClaimThenReenterGate? || action.RebuildCheckpointThenContinue?
        || action.MarkUnknownResult?
  }

  /** `RecoveryPlan.model_post_init`. */
  predicate PlanCoherent(k: RecoveryKey) {
    && k.status == StatusFor(k.action)
    && k.validEvidence !! k.invalidEvidence
    && (NamesCall(k.action) ==> k.call.Some?)
    && (k.action.WaitForApproval? ==> k.approval.Some?)
  }

  predicate SingleOrNone(s: set<CallId>) {
    forall c, d :: c in s && d in s ==> c == d
  }

  lemma AtMostOneElement(s: set<CallId>)
    requires |s| <= 1
    ensures SingleOrNone(s)
  {
    forall c, d | c in s && d in s ensures c == d {
      assert |s - {c}| == 0;
      assert d !in s - {c};
    }
  }

  /** What the planner has checked when it sends a call back to the Gate. */
  ghost predicate Reenterable(db: Db, c: CallId) {
    && CallsWith(db.calls, InvocationStatus.UnknownResult) == {}
    && CallsWith(db.calls, InvocationStatus.Started) == {}
    && CallsWith(db.calls, InvocationStatus.Prepared) == {c}
    && if c !in db.approvals then db.run.status.Running?
       else db.approvals[c].status.Approved? || (db.approvals[c].status.Claimed? && db.run.status.Running?)
  }

  /** No call is open, and nothing is left that could authorise one. */
  ghost predicate NothingOpen(db: Db) {
    && CallsWith(db.calls, InvocationStatus.UnknownResult) == {}
    && CallsWith(db.calls, InvocationStatus.Started) == {}
    && CallsWith(db.calls, InvocationStatus.Prepared) == {}
    && forall c :: c in db.approvals ==> !Active(db.approvals[c].status) && !db.approvals[c].status.Claimed?
  }

  /** A verdict lets the run go on only in these states. */
  ghost predicate VerdictFits(db: Db, v: Verdict) {
    match v
    case Record(action, status, _, call, _) =>
      && status == StatusFor(action)
      && (action.ReenterGate? || action.ResumeClaimThenReenterGate? ==>
            call.Some? && Reenterable(db, call.value)
            && (action.ResumeClaimThenReenterGate? <==>
                  call.value in db.approvals && db.approvals[call.value].status.Claimed?))
      && (action.ContinueAgent? ==> NothingOpen(db))
      && (action.WaitForApproval? ==> v.approval.Some?)
      && !action.RebuildCheckpointThenContinue? && !action.MarkUnknownResult?
    case Block(action, _, _, _, _) => action.ManualReview?
    case MarkUnknown(c) => c in db.calls && db.calls[c].status.Started?
    case Rebuild(c) => NothingOpen(db) && c in Uncheckpointed(db)
  }

  lemma PreparedVerdictFits(db: Db, c: CallId)
    requires CallsWith(db.calls, InvocationStatus.UnknownResult) == {}
    requires CallsWith(db.calls, InvocationStatus.Started) == {}
    requires CallsWith(db.calls, InvocationStatus.Prepared) == {c}
    ensures VerdictFits(db, JudgePrepared(db, c))
  {
  }

  lemma JudgeFits(db: Db, world: World)
    ensures VerdictFits(db, Judge(db, world))
  {
    hide Latest, WorkspaceDiffers, DeltaAttributable, IsEarliest, JudgePrepared, VerdictFits, Uncheckpointed;
    var unknown := CallsWith(db.calls, InvocationStatus.UnknownResult);
    var started := CallsWith(db.calls, InvocationStatus.Started);
    var prepared := CallsWith(db.calls, InvocationStatus.Prepared);
    if unknown == {} && |started + prepared| <= 1 && started == {} && prepared != {} {
      var c := FirstCall(db.calls, prepared).value;
      assert started + prepared == prepared;
      AtMostOneElement(prepared);
      assert prepared == {c};
      PreparedVerdictFits(db, c);
    } else {
      OtherVerdictsFit(db, world);
    }
  }

  lemma OtherVerdictsFit(db: Db, world: World)
    requires var unknown := CallsWith(db.calls, InvocationStatus.UnknownResult);
             var started := CallsWith(db.calls, InvocationStatus.Started);
             var prepared := CallsWith(db.calls, InvocationStatus.Prepared);
             unknown != {} || |started + prepared| > 1 || started != {} || prepared == {}
    ensures VerdictFits(db, Judge(db, world))
  {
    hide Latest, WorkspaceDiffers, DeltaAttributable, IsEarliest, JudgePrepared;
  }

  lemma EvidenceSplit(db: Db)
    ensures ValidIds(db) !! InvalidIds(db)
  {
  }

  lemma TriageFits(cfg: Config, db: Db, world: World)
    requires Triage(cfg, db, world).Some?
    ensures var v := Triage(cfg, db, world).value;
            || (v.Record? && v.status == StatusFor(v.action) && (v.action.AlreadyTerminal? || v.action.ManualReview?))
            || (v.Block? && v.action.ManualReview?)
  {
    hide CallsWith, FirstCall, Latest, IdentityChanged, ExternalChanged;
  }

  /** What `RecordPlan` returns is filed under the key it was asked for. */
  lemma RecordPlanKey(db: Db, u: Unit, key: RecoveryKey)
    requires Filed(db.recoveries)
    ensures RecordPlan(db, u, key).plan.key == key
  {
    hide Quiet, Evolves;
  }

  lemma EvolvesFiled(a: Db, b: Db)
    requires Evolves(a, b) && Filed(a.recoveries)
    ensures Filed(b.recoveries)
  {
    hide Filed;
  }

  /** The plan that carrying out a verdict returns. */
  predicate PlanFor(k: RecoveryKey, v: Verdict) {
    match v
    case Record(action, status, reason, call, approval) =>
      k.action == action && k.status == status && k.reason == reason && k.call == call && k.approval == approval
    case Block(action, _, reason, call, approval) =>
      k.action == action && k.status.NeedsReview? && k.reason == reason && k.call == call && k.approval == approval
    case MarkUnknown(c) =>
      && k.action.MarkUnknownResult? && k.status.NeedsReview? && k.reason == Some(RecoveryManualReviewRequired)
      && k.call == Some(c)
    case Rebuild(c) =>
      k.action.RebuildCheckpointThenContinue? && k.status.Resumable? && k.reason.None? && k.call == Some(c)
  }

  lemma BlockPlan(db: Db, u: Unit, action: RecoveryAction, stop: StopReason, reason: Option<ErrorCode>,
                  call: Option<CallId>, approval: Option<nat>)
    requires Filed(db.recoveries) && BlockAndRecord(db, u, action, stop, reason, call, approval).Ok?
    ensures var k := BlockAndRecord(db, u, action, stop, reason, call, approval).value.plan.key;
            && k.action == action && k.status.NeedsReview? && k.reason == reason && k.call == call
            && k.approval == approval && k.validEvidence !! k.invalidEvidence
  {
    QuietIsEvolves(db);
    hide Quiet, Evolves, BlockRecovery, RecordPlan, Filed;
    var blocked := BlockRecovery(db, u, stop).value;
    EvolvesFiled(db, blocked);
    EvidenceSplit(blocked);
    RecordPlanKey(blocked, u, KeyFor(blocked, blocked.run.lastCheckpoint, action, NeedsReview, reason, call, approval));
  }

  lemma CarryOutPlan(cfg: Config, db: Db, u: Unit, world: World, v: Verdict)
    requires Filed(db.recoveries) && CarryOut(cfg, db, u, world, v).Ok?
    ensures var k := CarryOut(cfg, db, u, world, v).value.plan.key;
            PlanFor(k, v) && k.validEvidence !! k.invalidEvidence
  {
    QuietIsEvolves(db);
    EvidenceSplit(db);
    hide Quiet, Evolves, BlockAndRecord, RecordPlan, TransitionInvocation, CreateCheckpoint, Filed, ValidIds,
         InvalidIds;
    match v
    case Record(action, status, reason, call, approval) =>
      RecordPlanKey(db, u, KeyFor(db, db.run.lastCheckpoint, action, status, reason, call, approval));
    case Block(action, stop, reason, call, approval) => BlockPlan(db, u, action, stop, reason, call, approval);
    case MarkUnknown(c) =>
      var marked := TransitionInvocation(db, u, c, InvocationStatus.Started, db.calls[c].revision,
                                         InvocationStatus.UnknownResult, Some(ResultUnknown)).value;
      EvolvesFiled(db, marked);
      BlockPlan(marked, u, MarkUnknownResult, StopReason.UnknownResult, Some(RecoveryManualReviewRequired), Some(c),
          None);
    case Rebuild(c) =>
      var written := CreateCheckpoint(cfg, db, u, RebuildBoundary(db, c), world).value;
      EvolvesFiled(db, written.db);
      EvidenceSplit(written.db);
      RecordPlanKey(written.db, u, KeyFor(written.db, Some(written.checkpoint.id), RebuildCheckpointThenContinue,
          Resumable, None,
                                          Some(c), db.calls[c].approval));
  }

  // ---------- after expiry ----------

  lemma {:induction false} ExpireEachAll(db: Db, u: Unit, ids: set<CallId>)
    requires forall c :: c in ids ==> c in db.approvals && Due(db.approvals[c], u.now)
    requires ExpireEach(db, u, ids).Ok?
    ensures forall c :: c in ids ==>
              c in ExpireEach(db, u, ids).value.approvals && ExpireEach(db, u, ids).value.approvals[c].status.Expired?
    decreases |ids|
  {
    hide Quiet, Evolves, Expire;
    if ids != {} {
      var c := Earliest(ids, RequestTimes(db.approvals));
      ExpireEffect(db, u, c);
      var next := Expire(db, u, c).value;
      ExpireEachAll(next, u, ids - {c});
      ExpireEachEffect(next, u, ids - {c});
    }
  }

  /** Once recovery has brought the rows up to date, no approval is due. */
  lemma RefreshLeavesNoneDue(db: Db, u: Unit, world: World)
    requires Refresh(db, u, world).Ok?
    ensures DueCalls(Refresh(db, u, world).value, u.now) == {}
  {
    hide Quiet, Evolves, ExpireEach, InvalidateEach;
    var due := DueCalls(db, u.now);
    ExpireEachAll(db, u, due);
    ExpireEachEffect(db, u, due);
    var expired := ExpireEach(db, u, due).value;
    forall c | c in expired.approvals ensures !Due(expired.approvals[c], u.now) {
      assert Due(db.approvals[c], u.now) ==> c in due;
    }
  }

  // ---------- what a plan promises ----------

  /** The rows that a plan to go on leaves behind are the rows it was decided on. */
  predicate SameRows(a: Db, b: Db) {
    b.calls == a.calls && b.approvals == a.approvals && b.run.status == a.run.status
  }

  lemma CarryOutKeepsRows(cfg: Config, db: Db, u: Unit, world: World, v: Verdict)
    requires CarryOut(cfg, db, u, world, v).Ok? && !Stops(v)
    ensures SameRows(db, CarryOut(cfg, db, u, world, v).value.db)
  {
    hide Quiet, Evolves, RecordPlan, RebuildAndRecord;
    if v.Record? {
      RecordPlanEffect(db, u, KeyFor(db, db.run.lastCheckpoint, v.action, v.status, v.reason, v.call, v.approval));
    } else {
      RebuildEffect(cfg, db, u, world, v.missing);
    }
  }

  lemma SameRowsFit(a: Db, b: Db, c: CallId)
    requires SameRows(a, b)
    ensures Reenterable(a, c) <==> Reenterable(b, c)
    ensures NothingOpen(a) <==> NothingOpen(b)
  {
  }

  /**
    Every plan keeps the field rules of its kind.  A plan that lets the run go on is returned only
    when no call is STARTED or of unknown result; if it names a call to re-enter, that call is the
    only PREPARED one and no approval of the run is due.
   */
  lemma PlansAreSafe(cfg: Config, db: Db, u: Unit, world: World)
    requires Filed(db.recoveries) && Prepare(cfg, db, u, world).Ok?
    ensures var k, b := Prepare(cfg, db, u, world).value.plan.key, Prepare(cfg, db, u, world).value.db;
            && PlanCoherent(k)
            && (k.status.Resumable? ==>
                  && LiveRun(b.run.status)
                  && CallsWith(b.calls, InvocationStatus.Started) == {}
                  && CallsWith(b.calls, InvocationStatus.UnknownResult) == {}
                  && DueCalls(b, u.now) == {})
            && (k.action.ReenterGate? || k.action.ResumeClaimThenReenterGate? ==>
                  Reenterable(b, k.call.value)
                  && (k.action.ResumeClaimThenReenterGate? <==>
                        k.call.value in b.approvals && b.approvals[k.call.value].status.Claimed?))
            && (k.action.ContinueAgent? || k.action.RebuildCheckpointThenContinue? ==> NothingOpen(b))
  {
    QuietIsEvolves(db);
    hide Quiet, Evolves, CarryOut, Triage, Refresh, Judge, Filed, Reenterable, NothingOpen, CallsWith, DueCalls;
    var early := Triage(cfg, db, world);
    TriageStops(cfg, db, world);
    if early.Some? {
      TriageFits(cfg, db, world);
      CarryOutPlan(cfg, db, u, world, early.value);
    } else {
      RefreshEffect(db, u, world);
      var current := Refresh(db, u, world).value;
      var verdict := JudgeRefreshed(current, world);
      EvolvesFiled(db, current);
      CarryOutPlan(cfg, current, u, world, verdict);
      JudgeFits(current, world);
      RefreshLeavesNoneDue(db, u, world);
      if !Stops(verdict) {
        CarryOutKeepsRows(cfg, current, u, world, verdict);
        var b := CarryOut(cfg, current, u, world, verdict).value.db;
        DueSame(current, b, u.now);
        OpenMeans(current);
        if verdict.Record? && verdict.call.Some? {
          SameRowsFit(current, b, verdict.call.value);
          ReenterMeans(current, verdict.call.value);
        } else {
          SameRowsFit(current, b, 0);
        }
      }
    }
  }

  lemma DueSame(a: Db, b: Db, now: Time)
    requires SameRows(a, b)
    ensures DueCalls(a, now) == DueCalls(b, now)
  {
  }

  lemma OpenMeans(db: Db)
    ensures NothingOpen(db) ==> CallsWith(db.calls, InvocationStatus.Started) == {}
    ensures NothingOpen(db) ==> CallsWith(db.calls, InvocationStatus.UnknownResult) == {}
  {
  }

  lemma ReenterMeans(db: Db, c: CallId)
    ensures Reenterable(db, c) ==> CallsWith(db.calls, InvocationStatus.Started) == {}
    ensures Reenterable(db, c) ==> CallsWith(db.calls, InvocationStatus.UnknownResult) == {}
  {
  }

  // ---------- the Gate keeps the promise ----------

  /** The checks of re-entry that no stored row decides. */
  predicate RequestFits(cfg: Config, db: Db, req: Request, now: Time)
    requires req.call in db.calls
  {
    var i := db.calls[req.call];
    && i.tool in cfg.registry && i.tool in cfg.visible
    && req.contextMatches && req.admitted && req.digest == Some(i.digest)
    && RepeatFault(cfg, db.calls, cfg.registry[i.tool], i.tool, i.digest).None?
    && !RecoveryBudgetSpent(db.run, now)
  }

  /** Room for the charge that a first claim makes; a call that was charged before needs none. */
  predicate ChargeFits(db: Db, c: CallId) {
    if ToolCallKey(c) in db.ledger then db.ledger[ToolCallKey(c)] == 1
    else db.run.used.toolCalls + 1 <= db.run.limits.toolCalls
  }

  predicate NeedsCharge(db: Db, c: CallId) {
    c in db.approvals && db.approvals[c].status.Approved?
  }

  lemma ChargeSucceeds(db: Db, u: Unit, c: CallId)
    requires HoldsLease(db, u) && !TerminalRun(db.run.status)
    ensures RecordToolBudget(db, u, c).Ok? <==> ChargeFits(db, c)
  {
    hide Quiet, Evolves;
  }

  lemma LoadCurrent(db: Db, u: Unit, c: CallId)
    requires HoldsLease(db, u) && c in db.approvals && !Due(db.approvals[c], u.now)
    ensures Load(db, u, c) == Ok(db)
  {
    hide Quiet, Evolves;
  }

  lemma ClaimSucceeds(db: Db, u: Unit, c: CallId)
    requires HoldsLease(db, u) && c in db.approvals && db.approvals[c].status.Approved?
             && u.now < db.approvals[c].expiresAt
    requires db.run.status.WaitingApproval? && BindingHolds(db, c)
    ensures var r := Claim(db, u, c, db.approvals[c].revision, c);
            r.Ok? && r.value.run == db.run && r.value.lease == db.lease && r.value.ledger == db.ledger
                && r.value.calls == db.calls
  {
    hide Quiet, Evolves;
  }

  lemma ResumeRunSucceeds(db: Db, u: Unit)
    requires HoldsLease(db, u) && db.run.status.WaitingApproval?
    ensures var r := TransitionRun(db, u, WaitingApproval, db.run.revision, Running, None, None);
            && r.Ok? && r.value.run.status.Running? && r.value.lease == db.lease && r.value.ledger == db.ledger
            && r.value.run.used == db.run.used && r.value.run.limits == db.run.limits && r.value.calls == db.calls
  {
    hide Quiet, Evolves;
  }

  lemma ClaimTransactionSucceeds(db: Db, u: Unit, c: CallId)
    requires HoldsLease(db, u) && c in db.approvals && db.approvals[c].status.Approved?
             && u.now < db.approvals[c].expiresAt
    requires db.run.status.WaitingApproval? && BindingHolds(db, c)
    ensures ClaimTransaction(db, u, c).Ok? <==> ChargeFits(db, c)
    ensures ClaimTransaction(db, u, c).Ok? ==>
              ClaimTransaction(db, u, c).value.calls == db.calls && ClaimTransaction(db, u, c).value.lease == db.lease
  {
    hide Quiet, Evolves, Load, Claim, TransitionRun, RecordBudgetDelta, BindingHolds;
    LoadCurrent(db, u, c);
    ClaimSucceeds(db, u, c);
    var claimed := Claim(db, u, c, db.approvals[c].revision, c).value;
    ResumeRunSucceeds(claimed, u);
    var running := TransitionRun(claimed, u, WaitingApproval, claimed.run.revision, Running, None, None).value;
    ChargeSucceeds(running, u, c);
    if RecordToolBudget(running, u, c).Ok? { ChargeKeepsCalls(running, u, c); }
  }

  lemma ChargeKeepsCalls(db: Db, u: Unit, c: CallId)
    requires RecordToolBudget(db, u, c).Ok?
    ensures RecordToolBudget(db, u, c).value.calls == db.calls && RecordToolBudget(db, u, c).value.lease == db.lease
  {
    hide Quiet, Evolves;
  }

  lemma ResumeClaimSucceeds(db: Db, u: Unit, c: CallId)
    requires HoldsLease(db, u) && c in db.approvals && db.approvals[c].status.Claimed?
             && db.approvals[c].intent == Some(c)
    requires db.run.status.Running? && BindingHolds(db, c) && db.calls[c].status.Prepared?
    ensures var r := ResumeClaim(db, u, c, db.approvals[c].revision, c);
            r.Ok? && r.value.calls == db.calls && r.value.lease == db.lease
  {
    hide Quiet, Evolves;
  }

  /** The approval row that a re-entry acts on fits the run. */
  predicate RowReady(db: Db, c: CallId, now: Time)
    requires c in db.calls
  {
    if c !in db.approvals then db.run.status.Running?
    else
      && BindingHolds(db, c)
      && !Due(db.approvals[c], now)
      && ((db.approvals[c].status.Approved? && db.run.status.WaitingApproval?)
          || (db.approvals[c].status.Claimed? && db.approvals[c].intent == Some(c) && db.run.status.Running?))
  }

  /** The snapshot decision of re-entry lets the call through exactly when the request fits. */
  lemma ReentryDecides(cfg: Config, db: Db, u: Unit, req: Request)
    requires HoldsLease(db, u) && req.call in db.calls && db.calls[req.call].status.Prepared?
    requires req.tool == db.calls[req.call].tool && RowReady(db, req.call, u.now)
    ensures var g := DecideReentry(cfg, db, u, req);
            if RequestFits(cfg, db, req, u.now)
            then (g.RecordingReentry? || g.ResumingClaim?) && g.pass.req == req
                 && (g.ResumingClaim? <==> req.call in db.approvals)
            else g.Denying?
  {
    hide RepeatFault, RecoveryBudgetSpent, Equivalent, BindingHolds;
  }

  /** The transaction it chooses commits, unless a first claim finds no room in the tool-call budget. */
  lemma ReentryCommits(cfg: Config, db: Db, u: Unit, pass: Pass)
    requires var c := pass.req.call;
             && HoldsLease(db, u) && c in db.calls && db.calls[c].status.Prepared?
             && RowReady(db, c, u.now) && c in db.approvals
    ensures var c, r := pass.req.call, ResumeOrClaim(db, u, pass);
            && (r.Ok? <==> (NeedsCharge(db, c) ==> ChargeFits(db, c)))
            && (r.Ok? ==> r.value.calls == db.calls && r.value.lease == db.lease)
  {
    hide Quiet, Evolves, Load, ClaimTransaction, ResumeClaim, BindingHolds, ChargeFits;
    var c := pass.req.call;
    LoadCurrent(db, u, c);
    if db.approvals[c].status.Claimed? {
      ResumeClaimSucceeds(db, u, c);
    } else {
      ClaimTransactionSucceeds(db, u, c);
    }
  }

  lemma RecordingCommits(db: Db, u: Unit, pass: Pass)
    requires HoldsLease(db, u)
    ensures var r := RecordRecoveryAllow(db, u, pass); r.Ok? && r.value.calls == db.calls && r.value.lease == db.lease
  {
    hide Quiet, Evolves;
  }

  lemma StartCommits(db: Db, u: Unit, c: CallId)
    requires HoldsLease(db, u) && c in db.calls && db.calls[c].status.Prepared?
    ensures MarkStarted(db, u, c).Ok?
  {
    hide Quiet, Evolves;
  }

  /** Re-entry undisturbed: submit, load, decide, commit, start. */
  function Reentry(t: Token, req: Request, outcome: Outcome): seq<Step> {
    [Submit(t, Loading(req)), Advance(t, outcome), Advance(t, outcome), Advance(t, outcome), Advance(t, outcome)]
  }

  lemma ExecFive(cfg: Config, s: System, a: Step, b: Step, c: Step, d: Step, e: Step)
    ensures Exec(cfg, s, [a, b, c, d, e])
         == Next(cfg, Next(cfg, Next(cfg, Next(cfg, Next(cfg, s, a), b), c), d), e)
  {
    hide Next;
    assert [a, b, c, d, e][1..] == [b, c, d, e];
    assert [b, c, d, e][1..] == [c, d, e];
    assert [c, d, e][1..] == [d, e];
    assert [d, e][1..] == [e];
    assert [e][1..] == [];
    var s1 := Next(cfg, s, a);
    var s2 := Next(cfg, s1, b);
    var s3 := Next(cfg, s2, c);
    var s4 := Next(cfg, s3, d);
    assert Exec(cfg, s4, [e]) == Next(cfg, s4, e);
    assert Exec(cfg, s3, [d, e]) == Next(cfg, s4, e);
    assert Exec(cfg, s2, [c, d, e]) == Next(cfg, s4, e);
    assert Exec(cfg, s1, [b, c, d, e]) == Next(cfg, s4, e);
  }

  lemma LoadTurn(cfg: Config, s: System, t: Token, req: Request, outcome: Outcome)
    requires GateOf(s, t) == Loading(req) && HoldsLease(s.db, Unit(s.now, t, req.actor))
    requires req.call in s.db.calls && s.db.calls[req.call].status.Prepared?
    ensures Next(cfg, s, Advance(t, outcome))
         == s.(gates := s.gates[t := SnapshottingReentry(req.(tool := s.db.calls[req.call].tool))])
  {
  }

  lemma DecideTurn(cfg: Config, s: System, t: Token, req: Request, outcome: Outcome)
    requires GateOf(s, t) == SnapshottingReentry(req)
    ensures Next(cfg, s, Advance(t, outcome))
         == s.(gates := s.gates[t := DecideReentry(cfg, s.db, Unit(s.now, t, req.actor), req)])
  {
    hide DecideReentry;
  }

  lemma CommitTurn(cfg: Config, s: System, t: Token, outcome: Outcome)
    requires GateOf(s, t).RecordingReentry? || GateOf(s, t).ResumingClaim?
    requires var pass := GateOf(s, t).pass; var c := pass.req.call;
             && HoldsLease(s.db, Unit(s.now, t, pass.req.actor)) && c in s.db.calls && s.db.calls[c].status.Prepared?
             && RowReady(s.db, c, s.now) && (GateOf(s, t).ResumingClaim? <==> c in s.db.approvals)
    ensures var pass, s' := GateOf(s, t).pass, Next(cfg, s, Advance(t, outcome));
            && s'.now == s.now
            && if NeedsCharge(s.db, pass.req.call) && !ChargeFits(s.db, pass.req.call)
               then GateOf(s', t) == Denying(pass.req, IntentWriteFailed) && s'.db == s.db
               else GateOf(s', t) == Gate.Starting(pass) && s'.db.calls == s.db.calls && s'.db.lease == s.db.lease
  {
    hide Quiet, Evolves, ResumeOrClaim, RecordRecoveryAllow, RowReady, ChargeFits;
    var pass := GateOf(s, t).pass;
    var u := Unit(s.now, t, pass.req.actor);
    if GateOf(s, t).ResumingClaim? {
      ReentryCommits(cfg, s.db, u, pass);
    } else {
      RecordingCommits(s.db, u, pass);
    }
  }

  lemma StartTurn(cfg: Config, s: System, t: Token, outcome: Outcome)
    requires GateOf(s, t).Starting?
    requires var pass := GateOf(s, t).pass;
             HoldsLease(s.db, Unit(s.now, t, pass.req.actor)) && pass.req.call in s.db.calls
                 && s.db.calls[pass.req.call].status.Prepared?
    ensures GateOf(Next(cfg, s, Advance(t, outcome)), t) == Executing(GateOf(s, t).pass)
  {
    hide Quiet, Evolves, MarkStarted;
    var pass := GateOf(s, t).pass;
    StartCommits(s.db, Unit(s.now, t, pass.req.actor), pass.req.call);
  }

  lemma DeniedTurn(cfg: Config, s: System, t: Token, outcome: Outcome)
    requires GateOf(s, t).Denying? || GateOf(s, t).Idle?
    ensures GateOf(Next(cfg, s, Advance(t, outcome)), t).Idle?
  {
    hide Quiet, Evolves;
  }

  /**
    Undisturbed re-entry of a call whose rows are ready reaches its handler exactly when the request
    fits and a charge that is still owed finds room in the tool-call budget.
   */
  lemma ReadyReentry(cfg: Config, s: System, t: Token, req: Request, outcome: Outcome)
    requires t < s.db.nextToken && GateOf(s, t).Idle? && HoldsLease(s.db, Unit(s.now, t, req.actor))
    requires req.call in s.db.calls && s.db.calls[req.call].status.Prepared?
    requires RowReady(s.db, req.call, s.now)
    ensures var e := Exec(cfg, s, Reentry(t, req, outcome));
            GateOf(e, t).Executing? && GateOf(e, t).pass.req.call == req.call
            <==> RequestFits(cfg, s.db, req, s.now) && (NeedsCharge(s.db, req.call) ==> ChargeFits(s.db, req.call))
  {
    hide Next, Exec, RequestFits, RowReady, ChargeFits, NeedsCharge, DecideReentry;
    var adv := Advance(t, outcome);
    var req' := req.(tool := s.db.calls[req.call].tool);
    ExecFive(cfg, s, Submit(t, Loading(req)), adv, adv, adv, adv);
    SubmitTurn(cfg, s, t, req);
    var s1 := Next(cfg, s, Submit(t, Loading(req)));
    LoadTurn(cfg, s1, t, req, outcome);
    var s2 := Next(cfg, s1, adv);
    DecideTurn(cfg, s2, t, req', outcome);
    var s3 := Next(cfg, s2, adv);
    FitsAnyTool(cfg, s.db, req, req', s.now);
    ReentryDecides(cfg, s.db, Unit(s.now, t, req.actor), req');
    var s4 := Next(cfg, s3, adv);
    if RequestFits(cfg, s.db, req, s.now) {
      CommitTurn(cfg, s3, t, outcome);
    } else {
      DeniedTurn(cfg, s3, t, outcome);
    }
    if GateOf(s4, t).Starting? {
      StartTurn(cfg, s4, t, outcome);
    } else {
      DeniedTurn(cfg, s4, t, outcome);
    }
  }

  lemma SubmitTurn(cfg: Config, s: System, t: Token, req: Request)
    requires t < s.db.nextToken && GateOf(s, t).Idle?
    ensures Next(cfg, s, Submit(t, Loading(req))) == s.(gates := s.gates[t := Loading(req)])
  {
  }

  /** Re-entry takes the tool from the stored call, whatever the request says. */
  lemma FitsAnyTool(cfg: Config, db: Db, req: Request, req': Request, now: Time)
    requires req.call in db.calls && req' == req.(tool := db.calls[req.call].tool)
    ensures RequestFits(cfg, db, req', now) <==> RequestFits(cfg, db, req, now)
  {
  }

  // ---------- from the plan to the handler ----------

  lemma ReenterableReady(cfg: Config, s: System, c: CallId)
    requires Governed(cfg, s) && AtMostOne(s.db) && LiveRun(s.db.run.status)
    requires Reenterable(s.db, c) && DueCalls(s.db, s.now) == {}
    ensures c in s.db.calls && s.db.calls[c].status.Prepared?
    ensures RowReady(s.db, c, s.now)
  {
    hide Authorized, GrantLogged, LaneOk, CallsCovered, BindingOf, RequiresApproval;
    assert c in CallsWith(s.db.calls, InvocationStatus.Prepared);
    if c in s.db.approvals {
      assert TermsHold(cfg, s.db, c) && HistoryHolds(s.db.audit, s.db.approvals[c], c, s.now);
      assert Due(s.db.approvals[c], s.now) ==> c in DueCalls(s.db, s.now);
      assert Active(s.db.approvals[c].status) ==> c in ActiveCalls(s.db);
    }
  }

  lemma RecoverTurn(cfg: Config, s: System, t: Token)
    requires Prepare(cfg, s.db, Unit(s.now, t, HARNESS), s.world).Ok?
    ensures Next(cfg, s, Step.Recover(t)) == s.(db := Prepare(cfg, s.db, Unit(s.now, t, HARNESS), s.world).value.db)
  {
    hide Prepare, Quiet, Evolves;
  }

  lemma TokenHandedOut(cfg: Config, s: System, u: Unit)
    requires Suppressed(cfg, s) && HoldsLease(s.db, u)
    ensures u.token < s.db.nextToken
  {
    hide CheckStands, WithinLimits;
  }

  lemma {:induction false} FiledExec(cfg: Config, s: System, steps: seq<Step>)
    requires Filed(s.db.recoveries)
    ensures Filed(Exec(cfg, s, steps).db.recoveries)
  {
    hide Filed, Exec;
    ExecEvolves(cfg, s, steps);
    EvolvesFiled(s.db, Exec(cfg, s, steps).db);
  }

  /**
    Planner and Gate agree, in every reachable state: when recovery plans a re-entry, the Gate's
    re-entry of that call, made at once under the same lease, passes every check on run status,
    approval status and claim.  It reaches the handler exactly when what the planner does not look at
    holds as well: the request fits, and a charge that is still owed finds room in the budget.
   */
  lemma PlannedReentryRuns(cfg: Config, s0: System, steps: seq<Step>, t: Token, req: Request, outcome: Outcome)
    requires Initial(cfg, s0)
    requires var s := Exec(cfg, s0, steps);
             && GateOf(s, t).Idle?
             && Prepare(cfg, s.db, Unit(s.now, t, HARNESS), s.world).Ok?
             && var planned := Prepare(cfg, s.db, Unit(s.now, t, HARNESS), s.world).value;
                && (planned.plan.key.action.ReenterGate? || planned.plan.key.action.ResumeClaimThenReenterGate?)
                && planned.plan.key.call == Some(req.call)
    ensures var s := Exec(cfg, s0, steps);
            var planned := Prepare(cfg, s.db, Unit(s.now, t, HARNESS), s.world).value.db;
            var e := Exec(cfg, Next(cfg, s, Step.Recover(t)), Reentry(t, req, outcome));
            && req.call in planned.calls
            && (GateOf(e, t).Executing? && GateOf(e, t).pass.req.call == req.call
                <==> && RequestFits(cfg, planned, req, s.now)
                     && (NeedsCharge(planned, req.call) ==> ChargeFits(planned, req.call)))
  {
    hide Exec, Next, Prepare, Governed, Suppressed, AtMostOne, Filed, Reenterable, RequestFits, RowReady, NeedsCharge,
         ChargeFits, Reentry, DueCalls, CallsWith;
    InitialGoverned(cfg, s0);
    InitialSuppressed(cfg, s0);
    InitialOutstanding(cfg, s0);
    GovernedMeans(cfg, s0);
    SuppressedExec(cfg, s0, steps);
    GovernedExec(cfg, s0, steps);
    AtMostOneExec(cfg, s0, steps);
    FiledExec(cfg, s0, steps);
    var s := Exec(cfg, s0, steps);
    GovernedMeans(cfg, s);
    var s' := Next(cfg, s, Step.Recover(t));
    RecoverTurn(cfg, s, t);
    GovernedNext(cfg, s, Step.Recover(t));
    SuppressedNext(cfg, s, Step.Recover(t));
    OutstandingNext(cfg, s, Step.Recover(t));
    PlansAreSafe(cfg, s.db, Unit(s.now, t, HARNESS), s.world);
    PlanNeedsLease(cfg, s.db, Unit(s.now, t, HARNESS), s.world);
    Coupling.PrepareKeepsLease(cfg, s.db, Unit(s.now, t, HARNESS), s.world);
    ReenterableReady(cfg, s', req.call);
    TokenHandedOut(cfg, s', Unit(s.now, t, req.actor));
    ReadyReentry(cfg, s', t, req, outcome);
  }

  lemma PlanNeedsLease(cfg: Config, db: Db, u: Unit, world: World)
    requires Prepare(cfg, db, u, world).Ok?
    ensures HoldsLease(db, u)
  {
    hide Quiet, Evolves, CarryOut, Triage, Refresh, Judge;
  }

  lemma InitialOutstanding(cfg: Config, s: System)
    requires Initial(cfg, s)
    ensures AtMostOne(s.db) && Filed(s.db.recoveries)
  {
  }

  lemma OutstandingNext(cfg: Config, s: System, step: Step)
    requires Governed(cfg, s) && AtMostOne(s.db)
    ensures AtMostOne(Next(cfg, s, step).db)
  {
    hide Governed, AtMostOne, Next, Shows, ComesFrom;
    GovernedMeans(cfg, s);
    var k := StepKind(cfg, s, step);
    KindOutstanding(cfg, s.db, Next(cfg, s, step).db, s.now, k);
  }
}
