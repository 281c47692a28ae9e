/**
  Asking for recovery again and again, with clock, configuration and working tree unchanged,
  succeeds every time and soon returns one stored decision for ever.
 */
module RecoveryFixpoint {
  import opened Domain
  import opened Wrappers
  import opened StateStore
  import opened ApprovalStore
  import opened Gate
  import opened Recovery
  import opened Protocol
  import opened ApprovalEffects
  import opened StepEffects
  import opened Outstanding
  import opened RecoveryPlans
  import opened Checkpoints
  import opened Approvals
  import opened Budget

  /** `n` recoveries in a row. */
  ghost function Again(cfg: Config, db: Db, u: Unit, world: World, n: nat): Result<Db>
    decreases n
  {
    hide Prepare;
    if n == 0 then Ok(db)
    else
      var planned :- Prepare(cfg, db, u, world);
      Again(cfg, planned.db, u, world, n - 1)
  }

  lemma AgainUnfolds(cfg: Config, db: Db, u: Unit, world: World, n: nat)
    requires Prepare(cfg, db, u, world).Ok?
    ensures Again(cfg, db, u, world, n + 1) == Again(cfg, Prepare(cfg, db, u, world).value.db, u, world, n)
  {
    hide Prepare;
  }

  /** Recovery answers from its records and writes nothing. */
  ghost predicate Settled(cfg: Config, db: Db, u: Unit, world: World) {
    Prepare(cfg, db, u, world).Ok? && Prepare(cfg, db, u, world).value.db == db
  }

  lemma {:induction false} SettledForEver(cfg: Config, db: Db, u: Unit, world: World, n: nat)
    requires Settled(cfg, db, u, world)
    ensures Again(cfg, db, u, world, n) == Ok(db)
  {
    hide Prepare;
    if n > 0 {
      SettledForEver(cfg, db, u, world, n - 1);
    }
  }

  /** Checkpoints of tool results are filed under the call they name. */
  predicate ToolRefs(cs: seq<Checkpoint>) {
    forall i :: 0 <= i < |cs| ==> RefersToCall(cs[i].boundary)
  }

  predicate StepsKnown(db: Db) {
    forall c :: c in db.calls ==> db.calls[c].step in db.steps
  }

  /** What every reachable state offers to whoever holds the lease. */
  ghost predicate Ready(db: Db, u: Unit) {
    && HoldsLease(db, u)
    && db.audit != [] && Chained(db.audit)
    && AtMostOne(db) && WaitsForCall(db) && StepsKnown(db)
  }

  /** No checkpoint is filed under the boundary that a rebuild for `c` needs. */
  predicate BoundaryFree(db: Db, c: CallId)
    requires c in db.calls
  {
    FindBoundary(db.checkpoints, RebuildBoundary(db, c)).None?
  }

  predicate AllFree(db: Db) {
    forall c :: c in Uncheckpointed(db) ==> BoundaryFree(db, c)
  }

  /**
    The two ways in which recovery fails: it would block the run before it looks for due approvals,
    and there is one; or it would rebuild checkpoints, and one of their boundaries is taken.
   */
  predicate Stuck(cfg: Config, db: Db, u: Unit, world: World) {
    match Triage(cfg, db, world)
    case Some(early) => early.Block? && DueCalls(db, u.now) != {}
    case None => DueCalls(db, u.now) == {} && Judge(db, world).Rebuild? && !AllFree(db)
  }

  // ---------- what decisions depend on ----------

  /** Everything a decision looks at is the same. */
  predicate SameView(a: Db, b: Db) {
    && b.run == a.run && b.calls == a.calls && b.approvals == a.approvals && b.evidence == a.evidence
    && b.checkpoints == a.checkpoints && b.lease == a.lease
  }

  lemma TriageSame(cfg: Config, a: Db, b: Db, world: World)
    requires SameView(a, b)
    ensures Triage(cfg, a, world) == Triage(cfg, b, world)
  {
  }

  lemma MissingSame(a: Db, b: Db)
    requires SameView(a, b)
    ensures MissingCheckpoint(a) == MissingCheckpoint(b)
  {
    assert Uncheckpointed(a) == Uncheckpointed(b);
  }

  lemma AttributableSame(a: Db, b: Db, base: Checkpoint, now: Workspace)
    requires SameView(a, b)
    ensures DeltaAttributable(a, base, now) == DeltaAttributable(b, base, now)
  {
    var later := set c | c in a.calls && Deterministic(a.calls[c].status) && a.calls[c].updatedAt >= base.createdAt;
    assert later == set c | c in b.calls && Deterministic(b.calls[c].status) && b.calls[c].updatedAt >= base.createdAt;
    assert (set e | e in a.evidence && a.evidence[e].call.Some? && a.evidence[e].call.value in later)
        == (set e | e in b.evidence && b.evidence[e].call.Some? && b.evidence[e].call.value in later);
  }

  lemma JudgeSame(a: Db, b: Db, world: World)
    requires SameView(a, b)
    ensures Judge(a, world) == Judge(b, world)
  {
    hide MissingCheckpoint, DeltaAttributable, FirstCall, CallsWith, Latest, WorkspaceDiffers;
    MissingSame(a, b);
    if Latest(a.checkpoints).Some? {
      AttributableSame(a, b, Latest(a.checkpoints).value, world.workspace);
    }
  }

  /** Marking facts stale changes no judgement. */
  lemma JudgeRefreshedSame(a: Db, b: Db, world: World)
    requires Refreshed(a, b)
    requires forall e :: e in a.evidence ==> b.evidence[e] == a.evidence[e].(valid := b.evidence[e].valid)
    ensures Judge(a, world) == Judge(b, world)
  {
    hide MissingCheckpoint, DeltaAttributable, FirstCall, CallsWith, Latest, WorkspaceDiffers;
    assert MissingCheckpoint(a) == MissingCheckpoint(b) by { MissingOfSame(a, b); }
    if Latest(a.checkpoints).Some? {
      AttributableRefreshed(a, b, Latest(a.checkpoints).value, world.workspace);
    }
  }

  lemma MissingOfSame(a: Db, b: Db)
    requires b.calls == a.calls && b.checkpoints == a.checkpoints
    ensures MissingCheckpoint(a) == MissingCheckpoint(b) && Uncheckpointed(a) == Uncheckpointed(b)
  {
    assert Uncheckpointed(a) == Uncheckpointed(b);
  }

  lemma AttributableRefreshed(a: Db, b: Db, base: Checkpoint, now: Workspace)
    requires b.calls == a.calls && b.evidence.Keys == a.evidence.Keys
    requires forall e :: e in a.evidence ==> b.evidence[e] == a.evidence[e].(valid := b.evidence[e].valid)
    ensures DeltaAttributable(a, base, now) == DeltaAttributable(b, base, now)
  {
    var later := set c | c in a.calls && Deterministic(a.calls[c].status) && a.calls[c].updatedAt >= base.createdAt;
    assert later == set c | c in b.calls && Deterministic(b.calls[c].status) && b.calls[c].updatedAt >= base.createdAt;
    var related := set e | e in a.evidence && a.evidence[e].call.Some? && a.evidence[e].call.value in later;
    assert related == set e | e in b.evidence && b.evidence[e].call.Some? && b.evidence[e].call.value in later;
    assert forall e :: e in related ==>
        b.evidence[e].path == a.evidence[e].path && b.evidence[e].kind == a.evidence[e].kind;
  }

  lemma KeySame(a: Db, b: Db, checkpoint: Option<nat>, action: RecoveryAction, status: RecoveryStatus,
                reason: Option<ErrorCode>, call: Option<CallId>, approval: Option<nat>)
    requires SameView(a, b)
    ensures KeyFor(a, checkpoint, action, status, reason, call, approval)
            == KeyFor(b, checkpoint, action, status, reason, call, approval)
  {
    assert ValidIds(a) == ValidIds(b) && InvalidIds(a) == InvalidIds(b);
  }

  lemma RecordPlanView(db: Db, u: Unit, key: RecoveryKey)
    ensures SameView(db, RecordPlan(db, u, key).db)
    ensures key in RecordPlan(db, u, key).db.recoveries
    ensures RecordPlan(db, u, key).db.steps == db.steps && db.audit <= RecordPlan(db, u, key).db.audit
  {
    hide Quiet, Evolves;
  }

  lemma RecordedPlanStays(db: Db, u: Unit, key: RecoveryKey)
    requires key in db.recoveries
    ensures RecordPlan(db, u, key).db == db
  {
    hide Quiet, Evolves;
  }

  // ---------- refreshing ----------

  lemma NoneDueNoExpiry(db: Db, u: Unit)
    requires HoldsLease(db, u) && DueCalls(db, u.now) == {}
    ensures ExpireDue(db, u) == Ok(db)
  {
  }

  /** Rows brought up to date: only facts that went stale are marked. */
  predicate Refreshed(a: Db, b: Db) {
    && b.run == a.run.(revision := b.run.revision)
    && b.calls == a.calls && b.approvals == a.approvals && b.checkpoints == a.checkpoints && b.lease == a.lease
    && b.steps == a.steps && b.evidence.Keys == a.evidence.Keys
  }

  lemma {:induction false} InvalidateEachSucceeds(db: Db, u: Unit, ids: set<nat>)
    requires HoldsLease(db, u) && !TerminalRun(db.run.status)
    requires forall e :: e in ids ==> e in db.evidence && db.evidence[e].valid
    ensures InvalidateEach(db, u, ids).Ok?
    ensures var b := InvalidateEach(db, u, ids).value;
            && Refreshed(db, b)
            && forall e :: e in db.evidence ==>
                 b.evidence[e] == if e in ids then db.evidence[e].(valid := false) else db.evidence[e]
    decreases |ids|
  {
    hide Quiet, Evolves, InvalidateEvidence, IsEarliest;
    if ids != {} {
      var e := Earliest(ids, RecordTimes(db.evidence));
      EarliestIn(ids, RecordTimes(db.evidence));
      InvalidateOneSucceeds(db, u, e);
      var next := InvalidateEvidence(db, u, e).value;
      InvalidateEachSucceeds(next, u, ids - {e});
    }
  }

  lemma EarliestIn(ids: set<nat>, at: map<nat, Time>)
    requires ids != {} && ids <= at.Keys
    ensures Earliest(ids, at) in ids
  {
  }

  lemma InvalidateOneSucceeds(db: Db, u: Unit, e: nat)
    requires HoldsLease(db, u) && !TerminalRun(db.run.status) && e in db.evidence && db.evidence[e].valid
    ensures InvalidateEvidence(db, u, e).Ok?
    ensures var b := InvalidateEvidence(db, u, e).value;
            Refreshed(db, b) && b.evidence == db.evidence[e := db.evidence[e].(valid := false)]
  {
    hide Quiet, Evolves;
  }

  lemma RefreshSucceeds(db: Db, u: Unit, world: World)
    requires HoldsLease(db, u) && DueCalls(db, u.now) == {} && LiveRun(db.run.status)
    ensures Refresh(db, u, world).Ok?
    ensures var b := Refresh(db, u, world).value;
            && Refreshed(db, b) && StaleIds(b, world) == {}
            && forall e :: e in db.evidence ==> b.evidence[e] == db.evidence[e].(valid := b.evidence[e].valid)
    ensures StaleIds(db, world) == {} ==> Refresh(db, u, world).value == db
  {
    hide Quiet, Evolves, ExpireDue, InvalidateEach;
    NoneDueNoExpiry(db, u);
    InvalidateEachSucceeds(db, u, StaleIds(db, world));
    var b := InvalidateEach(db, u, StaleIds(db, world)).value;
    forall e | e in b.evidence ensures !Stale(b.evidence[e], world) {
      assert Stale(db.evidence[e], world) <==> e in StaleIds(db, world);
    }
  }

  lemma TriageRefreshed(cfg: Config, a: Db, b: Db, world: World)
    requires Refreshed(a, b) && Triage(cfg, a, world).None?
    ensures Triage(cfg, b, world).None?
  {
    assert a.evidence == map[] ==> a.evidence.Keys == {};
  }

  lemma StaleSame(a: Db, b: Db, world: World)
    requires SameView(a, b)
    ensures StaleIds(a, world) == StaleIds(b, world)
    ensures forall now :: DueCalls(a, now) == DueCalls(b, now)
  {
  }

  // ---------- a recorded decision settles ----------

  lemma PrepareEarly(cfg: Config, db: Db, u: Unit, world: World)
    requires HoldsLease(db, u) && Chained(db.audit) && Triage(cfg, db, world).Some?
    ensures Prepare(cfg, db, u, world) == CarryOut(cfg, db, u, world, Triage(cfg, db, world).value)
  {
    hide Quiet, Evolves, Triage, CarryOut, Chained, Refresh;
  }

  lemma PrepareLate(cfg: Config, db: Db, u: Unit, world: World)
    requires HoldsLease(db, u) && Chained(db.audit) && Triage(cfg, db, world).None? && Refresh(db, u, world).Ok?
    ensures var current := Refresh(db, u, world).value;
            Prepare(cfg, db, u, world) == CarryOut(cfg, current, u, world, JudgeRefreshed(current, world))
  {
    hide Quiet, Evolves, Triage, CarryOut, Chained, Refresh, JudgeRefreshed;
  }

  lemma RecordingAgain(db: Db, b: Db, u: Unit, v: Verdict)
    requires v.Record?
    requires b == RecordPlan(db, u, KeyFor(db, db.run.lastCheckpoint, v.action, v.status, v.reason, v.call,
             v.approval)).db
    ensures SameView(db, b)
    ensures RecordPlan(b, u, KeyFor(b, b.run.lastCheckpoint, v.action, v.status, v.reason, v.call, v.approval)).db == b
  {
    hide Quiet, Evolves, RecordPlan, KeyFor;
    var key := KeyFor(db, db.run.lastCheckpoint, v.action, v.status, v.reason, v.call, v.approval);
    RecordPlanView(db, u, key);
    KeySame(db, b, db.run.lastCheckpoint, v.action, v.status, v.reason, v.call, v.approval);
    RecordedPlanStays(b, u, key);
  }

  lemma CarryOutRecord(cfg: Config, db: Db, u: Unit, world: World, v: Verdict)
    requires v.Record?
    ensures CarryOut(cfg, db, u, world, v)
         == Ok(RecordPlan(db, u, KeyFor(db, db.run.lastCheckpoint, v.action, v.status, v.reason, v.call, v.approval)))
  {
    hide Quiet, Evolves, RecordPlan, KeyFor;
  }

  lemma RecordPlanChained(db: Db, u: Unit, key: RecoveryKey)
    requires Chained(db.audit)
    ensures Chained(RecordPlan(db, u, key).db.audit)
  {
    hide Chained;
    QuietIsEvolves(db);
    EvolvesChained(db, RecordPlan(db, u, key).db);
  }

  /** A decision taken before the rows are touched. */
  lemma EarlyRecordSettles(cfg: Config, db: Db, u: Unit, world: World)
    requires HoldsLease(db, u) && Chained(db.audit)
    requires Triage(cfg, db, world).Some? && Triage(cfg, db, world).value.Record?
    ensures Prepare(cfg, db, u, world).Ok? && Settled(cfg, Prepare(cfg, db, u, world).value.db, u, world)
  {
    hide Quiet, Evolves, Triage, CarryOut, Chained, Prepare, RecordPlan, KeyFor;
    var v := Triage(cfg, db, world).value;
    PrepareEarly(cfg, db, u, world);
    CarryOutRecord(cfg, db, u, world, v);
    var b := Prepare(cfg, db, u, world).value.db;
    RecordingAgain(db, b, u, v);
    RecordPlanChained(db, u, KeyFor(db, db.run.lastCheckpoint, v.action, v.status, v.reason, v.call, v.approval));
    TriageSame(cfg, db, b, world);
    PrepareEarly(cfg, b, u, world);
    CarryOutRecord(cfg, b, u, world, v);
  }

  /** A decision taken on rows that are up to date. */
  lemma LateRecordSettles(cfg: Config, db: Db, u: Unit, world: World)
    requires HoldsLease(db, u) && Chained(db.audit) && DueCalls(db, u.now) == {}
    requires Triage(cfg, db, world).None? && LiveRun(db.run.status)
    requires Refresh(db, u, world).Ok? && Judge(Refresh(db, u, world).value, world).Record?
    ensures Prepare(cfg, db, u, world).Ok? && Settled(cfg, Prepare(cfg, db, u, world).value.db, u, world)
  {
    QuietIsEvolves(db);
    hide Quiet, Evolves, Triage, CarryOut, Chained, Prepare, RecordPlan, KeyFor, Refresh, Judge, StaleIds, DueCalls;
    RefreshSucceeds(db, u, world);
    var current := Refresh(db, u, world).value;
    var v := Judge(current, world);
    PrepareLate(cfg, db, u, world);
    CarryOutRecord(cfg, current, u, world, v);
    var b := Prepare(cfg, db, u, world).value.db;
    RecordingAgain(current, b, u, v);
    EvolvesChained(db, current);
    RecordPlanChained(current, u, KeyFor(current, current.run.lastCheckpoint, v.action, v.status, v.reason, v.call,
        v.approval));
    TriageRefreshed(cfg, db, current, world);
    TriageSame(cfg, current, b, world);
    DueRefreshed(db, current, u.now);
    StaleSame(current, b, world);
    RefreshSucceeds(b, u, world);
    PrepareLate(cfg, b, u, world);
    JudgeSame(current, b, world);
    CarryOutRecord(cfg, b, u, world, v);
  }

  lemma DueRefreshed(a: Db, b: Db, now: Time)
    requires b.approvals == a.approvals
    ensures DueCalls(a, now) == DueCalls(b, now)
  {
  }

  // ---------- a blocked run ----------

  lemma BlockedIsRecorded(cfg: Config, db: Db, world: World)
    requires db.run.status.Blocked?
    ensures Triage(cfg, db, world).Some? && Triage(cfg, db, world).value.Record?
  {
    hide FirstCall, CallsWith, Latest;
  }

  lemma {:induction false} WithdrawEachSucceeds(db: Db, u: Unit, ids: set<CallId>)
    requires HoldsLease(db, u) && DueCalls(db, u.now) == {} && ids <= Withdrawable(db)
    ensures WithdrawEach(db, u, ids).Ok? && WithdrawEach(db, u, ids).value.lease == db.lease
    decreases |ids|
  {
    hide Quiet, Evolves, Invalidate;
    if ids != {} {
      var c := Earliest(ids, RequestTimes(db.approvals));
      assert Due(db.approvals[c], u.now) ==> c in DueCalls(db, u.now);
      WithdrawalSucceeds(db, u, c, db.approvals[c].revision);
      InvalidateEffect(db, u, c, db.approvals[c].revision);
      var next := Invalidate(db, u, c, db.approvals[c].revision).value;
      WithdrawalLease(db, u, c, db.approvals[c].revision);
      WithdrawnNotDue(db, next, c, u.now);
      assert ids - {c} <= Withdrawable(next);
      WithdrawEachSucceeds(next, u, ids - {c});
    }
  }

  /** The withdrawals of a block fail at the first due approval among them. */
  lemma {:induction false} WithdrawEachFailsWhenDue(db: Db, u: Unit, ids: set<CallId>, d: CallId)
    requires d in ids && d in db.approvals && Due(db.approvals[d], u.now)
    ensures WithdrawEach(db, u, ids).Err?
    decreases |ids|
  {
    hide Quiet, Evolves, Invalidate;
    if ids <= db.approvals.Keys {
      var c := Earliest(ids, RequestTimes(db.approvals));
      WithdrawalSucceeds(db, u, c, db.approvals[c].revision);
      if Invalidate(db, u, c, db.approvals[c].revision).Ok? {
        InvalidateEffect(db, u, c, db.approvals[c].revision);
        var next := Invalidate(db, u, c, db.approvals[c].revision).value;
        WithdrawEachFailsWhenDue(next, u, ids - {c}, d);
      }
    }
  }

  lemma BlockFailsWhenDue(db: Db, u: Unit, action: RecoveryAction, stop: StopReason, reason: Option<ErrorCode>,
                          call: Option<CallId>, approval: Option<nat>)
    requires DueCalls(db, u.now) != {}
    ensures BlockAndRecord(db, u, action, stop, reason, call, approval).Err?
  {
    hide Quiet, Evolves, WithdrawEach, BlockRun, RecordPlan, KeyFor;
    var d :| d in DueCalls(db, u.now);
    assert d in Withdrawable(db);
    WithdrawEachFailsWhenDue(db, u, Withdrawable(db), d);
  }

  /** A decision taken before the expiry sweep is carried out exactly unless it blocks a run with a due approval. */
  lemma EarlyDecisionSucceedsExactly(cfg: Config, db: Db, u: Unit, world: World)
    requires HoldsLease(db, u) && Chained(db.audit) && Triage(cfg, db, world).Some?
    ensures Prepare(cfg, db, u, world).Ok? <==> !(Triage(cfg, db, world).value.Block? && DueCalls(db, u.now) != {})
  {
    hide Quiet, Evolves, Triage, CarryOut, Chained, Prepare, BlockAndRecord, DueCalls;
    var v := Triage(cfg, db, world).value;
    PrepareEarly(cfg, db, u, world);
    TriageFits(cfg, db, world);
    TriageStops(cfg, db, world);
    if v.Record? {
      CarryOutRecord(cfg, db, u, world, v);
    } else if DueCalls(db, u.now) == {} {
      StopSucceeds(cfg, db, u, world, v);
    } else {
      BlockFailsWhenDue(db, u, v.action, v.stop, v.reason, v.call, v.approval);
      CarryOutBlock(cfg, db, u, world, v);
    }
  }

  lemma CarryOutBlock(cfg: Config, db: Db, u: Unit, world: World, v: Verdict)
    requires v.Block?
    ensures CarryOut(cfg, db, u, world, v) == BlockAndRecord(db, u, v.action, v.stop, v.reason, v.call, v.approval)
  {
    hide Quiet, Evolves, BlockAndRecord;
  }

  // ---------- a due approval that the sweep finds ----------

  lemma SweepStops(db: Db, u: Unit, world: World)
    requires HoldsLease(db, u) && AtMostOne(db) && LiveRun(db.run.status) && DueCalls(db, u.now) != {}
    ensures Refresh(db, u, world).Ok?
    ensures Refresh(db, u, world).value.run.status.Stopped? && Refresh(db, u, world).value.lease == db.lease
  {
    hide Quiet, Evolves, Expire;
    var c :| c in DueCalls(db, u.now);
    assert c in ActiveCalls(db);
    assert DueCalls(db, u.now) <= ActiveCalls(db);
    assert DueCalls(db, u.now) == {c};
    ExpireStops(db, u, c);
    SweepOfOne(db, u, c);
  }

  lemma ExpireStops(db: Db, u: Unit, c: CallId)
    requires HoldsLease(db, u) && db.run.status.WaitingApproval? && c in db.approvals && Active(db.approvals[c].status)
    ensures Expire(db, u, c).Ok? && Expire(db, u, c).value.run.status.Stopped?
            && Expire(db, u, c).value.lease == db.lease
  {
    hide Quiet, Evolves;
  }

  lemma SweepOfOne(db: Db, u: Unit, c: CallId)
    requires c in db.approvals && Active(db.approvals[c].status) && Expire(db, u, c).Ok?
    ensures ExpireEach(db, u, {c}) == Expire(db, u, c)
  {
    hide Quiet, Evolves, Expire;
    assert {c} - {c} == {};
  }

  lemma FinishedIsRecorded(cfg: Config, db: Db, world: World)
    requires db.run.status.Stopped?
    ensures Triage(cfg, db, world) == Some(FinishedVerdict()) && JudgeRefreshed(db, world) == FinishedVerdict()
  {
  }

  /** The sweep stops the run that waits for a due approval; the decision is FINISHED, and stays. */
  lemma DueApprovalFinishes(cfg: Config, db: Db, u: Unit, world: World)
    requires HoldsLease(db, u) && Chained(db.audit) && AtMostOne(db)
    requires Triage(cfg, db, world).None? && DueCalls(db, u.now) != {}
    ensures Prepare(cfg, db, u, world).Ok? && Prepare(cfg, db, u, world).value.db.run.status.Stopped?
    ensures Settled(cfg, Prepare(cfg, db, u, world).value.db, u, world)
  {
    QuietIsEvolves(db);
    hide Quiet, Evolves, Triage, CarryOut, Chained, Prepare, RecordPlan, KeyFor, Refresh, JudgeRefreshed, DueCalls,
         AtMostOne;
    TriageNoneMeans(cfg, db, world);
    SweepStops(db, u, world);
    var current := Refresh(db, u, world).value;
    var v := FinishedVerdict();
    FinishedIsRecorded(cfg, current, world);
    PrepareLate(cfg, db, u, world);
    CarryOutRecord(cfg, current, u, world, v);
    var b := Prepare(cfg, db, u, world).value.db;
    RecordingAgain(current, b, u, v);
    EvolvesChained(db, current);
    RecordPlanChained(current, u, KeyFor(current, current.run.lastCheckpoint, v.action, v.status, v.reason, v.call,
        v.approval));
    FinishedIsRecorded(cfg, b, world);
    PrepareEarly(cfg, b, u, world);
    CarryOutRecord(cfg, b, u, world, v);
  }

  lemma WithdrawnNotDue(a: Db, b: Db, c: CallId, now: Time)
    requires WithdrawsRow(a, b, c) && DueCalls(a, now) == {}
    ensures DueCalls(b, now) == {}
  {
    forall d | d in b.approvals ensures !Due(b.approvals[d], now) {
      assert d in a.approvals;
      assert Due(a.approvals[d], now) ==> d in DueCalls(a, now);
    }
  }

  lemma WithdrawalLease(db: Db, u: Unit, c: CallId, revision: nat)
    requires Invalidate(db, u, c, revision).Ok?
    ensures Invalidate(db, u, c, revision).value.lease == db.lease
  {
    hide Quiet, Evolves, Expire;
    WithdrawalSucceeds(db, u, c, revision);
  }

  lemma BlockRunSucceeds(db: Db, u: Unit, stop: StopReason)
    requires HoldsLease(db, u)
    ensures BlockRun(db, u, stop).Ok? && BlockRun(db, u, stop).value.lease == db.lease
  {
    hide Quiet, Evolves;
  }

  lemma BlockSucceeds(db: Db, u: Unit, action: RecoveryAction, stop: StopReason, reason: Option<ErrorCode>,
                      call: Option<CallId>, approval: Option<nat>)
    requires HoldsLease(db, u) && DueCalls(db, u.now) == {} && Chained(db.audit) && LiveRun(db.run.status)
    ensures var r := BlockAndRecord(db, u, action, stop, reason, call, approval);
            r.Ok? && r.value.db.run.status.Blocked? && r.value.db.lease == db.lease && Chained(r.value.db.audit)
  {
    QuietIsEvolves(db);
    hide Quiet, Evolves, WithdrawEach, BlockRun, RecordPlan, Chained, KeyFor, Withdrawable;
    WithdrawEachSucceeds(db, u, Withdrawable(db));
    var withdrawn := WithdrawEach(db, u, Withdrawable(db)).value;
    BlockRunSucceeds(withdrawn, u, stop);
    var blocked := BlockRun(withdrawn, u, stop).value;
    RecordPlanView(blocked, u, KeyFor(blocked, blocked.run.lastCheckpoint, action, NeedsReview, reason, call,
        approval));
    BlockAndRecordEffect(db, u, action, stop, reason, call, approval);
    EvolvesChained(db, BlockAndRecord(db, u, action, stop, reason, call, approval).value.db);
  }

  lemma MarkSucceeds(db: Db, u: Unit, c: CallId)
    requires HoldsLease(db, u) && c in db.calls && db.calls[c].status.Started?
    ensures var r := TransitionInvocation(db, u, c, InvocationStatus.Started, db.calls[c].revision,
                                          InvocationStatus.UnknownResult, Some(ResultUnknown));
            r.Ok? && r.value.lease == db.lease && r.value.approvals == db.approvals
                && r.value.run.status == db.run.status
  {
    hide Quiet, Evolves;
  }

  lemma StopSucceeds(cfg: Config, db: Db, u: Unit, world: World, v: Verdict)
    requires HoldsLease(db, u) && DueCalls(db, u.now) == {} && Chained(db.audit) && LiveRun(db.run.status)
    requires Stops(v) && (v.MarkUnknown? ==> v.started in db.calls && db.calls[v.started].status.Started?)
    ensures var r := CarryOut(cfg, db, u, world, v);
            r.Ok? && r.value.db.run.status.Blocked? && r.value.db.lease == db.lease && Chained(r.value.db.audit)
  {
    QuietIsEvolves(db);
    hide Quiet, Evolves, BlockAndRecord, TransitionInvocation, Chained, DueCalls;
    match v
    case Block(action, stop, reason, call, approval) => BlockSucceeds(db, u, action, stop, reason, call, approval);
    case MarkUnknown(c) =>
      MarkSucceeds(db, u, c);
      var marked := TransitionInvocation(db, u, c, InvocationStatus.Started, db.calls[c].revision,
                                         InvocationStatus.UnknownResult, Some(ResultUnknown)).value;
      DueRefreshed(db, marked, u.now);
      EvolvesChained(db, marked);
      BlockSucceeds(marked, u, MarkUnknownResult, StopReason.UnknownResult, Some(RecoveryManualReviewRequired), Some(c),
          None);
  }

  /** BLOCKED is absorbing: one more call files the review, and every later call returns it. */
  lemma BlockedSettles(cfg: Config, db: Db, u: Unit, world: World)
    requires db.run.status.Blocked? && HoldsLease(db, u) && Chained(db.audit)
    ensures Prepare(cfg, db, u, world).Ok?
    ensures Settled(cfg, Prepare(cfg, db, u, world).value.db, u, world)
  {
    hide Prepare, Triage, Settled, Chained;
    BlockedIsRecorded(cfg, db, world);
    EarlyRecordSettles(cfg, db, u, world);
  }

  // ---------- rebuilding checkpoints ----------

  lemma {:induction false} LatestOfLonger(cs: seq<Checkpoint>, row: Checkpoint)
    requires forall i :: 0 <= i < |cs| ==> cs[i].sequence < row.sequence
    ensures Latest(cs + [row]) == Some(row)
  {
    if cs == [] {
      assert cs + [row] == [row];
    } else {
      assert (cs + [row])[1..] == cs[1..] + [row];
      LatestOfLonger(cs[1..], row);
    }
  }

  /** A finished run of calls whose only remaining work is to write their checkpoints. */
  ghost predicate Calm(cfg: Config, db: Db, u: Unit, world: World) {
    && Ready(db, u) && DueCalls(db, u.now) == {} && db.run.status.Running? && db.run.config == cfg.fingerprint
    && NothingOpen(db) && StaleIds(db, world) == {}
    && Latest(db.checkpoints).Some? && Latest(db.checkpoints).value.snapshot.workspace == world.workspace
  }

  lemma RebuildAllowed(db: Db, c: CallId)
    requires db.run.status.Running? && StepsKnown(db) && c in Uncheckpointed(db)
    ensures BoundaryAllowed(db, RebuildBoundary(db, c))
  {
    hide FindBoundary;
  }

  /** Checkpoints filed under the call they capture never take the boundary of another. */
  lemma WellFiledIsFree(db: Db)
    requires ToolRefs(db.checkpoints)
    ensures AllFree(db)
  {
    hide FindBoundary;
    forall c | c in Uncheckpointed(db) ensures BoundaryFree(db, c) {
      FoundSomewhere(db.checkpoints, RebuildBoundary(db, c));
    }
  }

  lemma FoundSomewhere(cs: seq<Checkpoint>, b: Boundary)
    ensures FindBoundary(cs, b).None? <==> forall i :: 0 <= i < |cs| ==> !SameBoundary(cs[i], b)
  {
  }

  lemma CreateSucceeds(cfg: Config, db: Db, u: Unit, b: Boundary, world: World)
    requires HoldsLease(db, u) && db.run.config == cfg.fingerprint && BoundaryAllowed(db, b) && db.audit != []
    requires FindBoundary(db.checkpoints, b).None?
    ensures var r := CreateCheckpoint(cfg, db, u, b, world);
            && r.Ok? && r.value.checkpoint == NewCheckpoint(db, u, b, world)
            && var a := r.value.db;
               && a.checkpoints == db.checkpoints + [NewCheckpoint(db, u, b, world)]
               && a.calls == db.calls && a.approvals == db.approvals && a.evidence == db.evidence && a.steps == db.steps
               && a.run == db.run.(lastCheckpoint := a.run.lastCheckpoint, revision := a.run.revision)
               && a.lease == db.lease && a.ledger == db.ledger && a.nextToken == db.nextToken
  {
    hide Quiet, Evolves, BoundaryAllowed, FindBoundary, NewCheckpoint, MarkCheckpointWritten;
    var row := NewCheckpoint(db, u, b, world);
    var inserted := db.(checkpoints := db.checkpoints + [row], nextId := row.id + 1);
    MarkSucceedsOn(inserted, u, |db.checkpoints|);
  }

  lemma MarkSucceedsOn(db: Db, u: Unit, i: nat)
    requires HoldsLease(db, u) && i < |db.checkpoints|
    ensures var r := MarkCheckpointWritten(db, u, db.checkpoints[i].id);
            && r.Ok?
            && var a := r.value;
               && a.checkpoints == db.checkpoints && a.lease == db.lease && a.ledger == db.ledger
                   && a.nextToken == db.nextToken
               && a.calls == db.calls && a.approvals == db.approvals && a.evidence == db.evidence && a.steps == db.steps
               && a.run == db.run.(lastCheckpoint := a.run.lastCheckpoint, revision := a.run.revision)
  {
    hide Quiet, Evolves;
  }

  lemma NewCheckpointIsLatest(db: Db, u: Unit, b: Boundary, world: World)
    requires db.audit != []
    ensures var row := NewCheckpoint(db, u, b, world);
            Latest(db.checkpoints + [row]) == Some(row) && row.snapshot.workspace == world.workspace
                && row.boundary == b
  {
    hide MaxSequence, Latest;
    LatestOfLonger(db.checkpoints, NewCheckpoint(db, u, b, world));
  }

  lemma OneLessUncheckpointed(a: Db, b: Db, c: CallId, row: Checkpoint)
    requires c in Uncheckpointed(a) && b.calls == a.calls && b.checkpoints == a.checkpoints + [row]
    requires row.boundary == RebuildBoundary(a, c)
    ensures Uncheckpointed(b) == Uncheckpointed(a) - {c}
  {
    assert b.checkpoints[|a.checkpoints|] == row;
    forall d | d in a.calls
      ensures HasToolCheckpoint(b.checkpoints, d) <==> HasToolCheckpoint(a.checkpoints, d) || d == c
    {
      if HasToolCheckpoint(a.checkpoints, d) {
        var i :| 0 <= i < |a.checkpoints| && a.checkpoints[i].boundary.call == Some(d)
            && ToolBoundary(a.checkpoints[i].boundary.kind);
        assert b.checkpoints[i] == a.checkpoints[i];
      }
    }
  }

  /** A new checkpoint takes the boundary of its own call only. */
  lemma OthersStayFree(a: Db, b: Db, c: CallId, d: CallId, row: Checkpoint)
    requires c in a.calls && d in a.calls && d != c && b.calls == a.calls && b.checkpoints == a.checkpoints + [row]
    requires row.boundary == RebuildBoundary(a, c)
    ensures BoundaryFree(a, d) <==> BoundaryFree(b, d)
  {
    hide FindBoundary;
    var boundary := RebuildBoundary(a, d);
    FoundSomewhere(a.checkpoints, boundary);
    FoundSomewhere(b.checkpoints, boundary);
    assert forall i :: 0 <= i < |a.checkpoints| ==> b.checkpoints[i] == a.checkpoints[i];
    assert b.checkpoints[|a.checkpoints|] == row;
  }

  lemma ViewKeepsOne(a: Db, b: Db)
    requires b.approvals == a.approvals && b.calls == a.calls && b.run.status == a.run.status
    requires AtMostOne(a) && WaitsForCall(a)
    ensures AtMostOne(b) && WaitsForCall(b)
  {
    SameActive(a, b);
  }

  /**
    Each rebuild writes the checkpoint of one finished call, leaves one call fewer without, and
    frees or takes no other boundary.
   */
  lemma RebuildProgresses(cfg: Config, db: Db, u: Unit, world: World, c: CallId)
    requires Ready(db, u) && db.run.status.Running? && db.run.config == cfg.fingerprint && DueCalls(db, u.now) == {}
    requires NothingOpen(db) && StaleIds(db, world) == {} && c in Uncheckpointed(db)
    requires c in db.calls && BoundaryFree(db, c)
    ensures var r := RebuildAndRecord(cfg, db, u, world, c);
            && r.Ok? && Calm(cfg, r.value.db, u, world)
            && Uncheckpointed(r.value.db) == Uncheckpointed(db) - {c}
            && (AllFree(r.value.db) <==> AllFree(db))
  {
    QuietIsEvolves(db);
    hide Quiet, Evolves, CreateCheckpoint, RecordPlan, KeyFor, NewCheckpoint, BoundaryAllowed, FindBoundary, Latest,
         NothingOpen, StaleIds, DueCalls, Uncheckpointed, Chained, AtMostOne, WaitsForCall;
    var b := RebuildBoundary(db, c);
    RebuildAllowed(db, c);
    CreateSucceeds(cfg, db, u, b, world);
    NewCheckpointIsLatest(db, u, b, world);
    var row, written := NewCheckpoint(db, u, b, world), CreateCheckpoint(cfg, db, u, b, world).value.db;
    var key := KeyFor(written, Some(row.id), RebuildCheckpointThenContinue, Resumable, None, Some(c),
        db.calls[c].approval);
    RecordPlanView(written, u, key);
    var after := RecordPlan(written, u, key).db;
    OneLessUncheckpointed(db, after, c, row);
    AllStayFree(db, after, c, row);
    ViewKeepsOne(db, after);
    OpenSame(db, after, world, u.now);
    assert after == RebuildAndRecord(cfg, db, u, world, c).value.db;
    EvolvesChained(db, after);
    EvolvesGrowsLog(db, after);
  }

  lemma AllStayFree(a: Db, b: Db, c: CallId, row: Checkpoint)
    requires c in Uncheckpointed(a) && c in a.calls && BoundaryFree(a, c)
    requires b.calls == a.calls && b.checkpoints == a.checkpoints + [row]
    requires row.boundary == RebuildBoundary(a, c) && Uncheckpointed(b) == Uncheckpointed(a) - {c}
    ensures AllFree(b) <==> AllFree(a)
  {
    hide BoundaryFree, HasToolCheckpoint;
    forall d | d in a.calls && d != c ensures BoundaryFree(a, d) <==> BoundaryFree(b, d) {
      OthersStayFree(a, b, c, d, row);
    }
  }

  /** A rebuild succeeds exactly when its boundary is free. */
  lemma RebuildSucceedsExactly(cfg: Config, db: Db, u: Unit, world: World, c: CallId)
    requires WellCheckpointed(db) && HoldsLease(db, u) && StepsKnown(db)
    requires db.run.status.Running? && db.run.config == cfg.fingerprint && c in Uncheckpointed(db)
    ensures c in db.calls && (CarryOut(cfg, db, u, world, Rebuild(c)).Ok? <==> BoundaryFree(db, c))
    ensures !BoundaryFree(db, c) ==> CarryOut(cfg, db, u, world, Rebuild(c)) == Err(CheckpointSequenceConflict)
  {
    hide Quiet, Evolves, WellCheckpointed, BoundaryAllowed, FindBoundary, CreateCheckpoint, CarryOut, Uncheckpointed,
         StepsKnown;
    UncheckpointedCall(db, c);
    RebuildAllowed(db, c);
    RebuildIsCreation(cfg, db, u, world, c);
    if BoundaryFree(db, c) {
      WellHasLog(db);
      CreateSucceeds(cfg, db, u, RebuildBoundary(db, c), world);
    } else {
      RepeatedBoundaryConflicts(cfg, db, u, RebuildBoundary(db, c), world);
    }
  }

  lemma RebuildIsCreation(cfg: Config, db: Db, u: Unit, world: World, c: CallId)
    requires c in db.calls
    ensures var written := CreateCheckpoint(cfg, db, u, RebuildBoundary(db, c), world);
            var r := CarryOut(cfg, db, u, world, Rebuild(c));
            if written.Ok? then r.Ok? else r == Err(written.code)
  {
    hide Quiet, Evolves, CreateCheckpoint, RecordPlan, KeyFor;
  }

  lemma UncheckpointedCall(db: Db, c: CallId)
    requires c in Uncheckpointed(db)
    ensures c in db.calls
  {
  }

  lemma OpenSame(a: Db, b: Db, world: World, now: Time)
    requires b.calls == a.calls && b.approvals == a.approvals && b.evidence == a.evidence
    ensures NothingOpen(a) ==> NothingOpen(b)
    ensures StaleIds(a, world) == StaleIds(b, world)
    ensures DueCalls(a, now) == DueCalls(b, now)
  {
  }

  lemma CalmJudges(cfg: Config, db: Db, u: Unit, world: World)
    requires Calm(cfg, db, u, world)
    ensures Triage(cfg, db, world).None?
    ensures Judge(db, world) == if Uncheckpointed(db) == {} then Record(ContinueAgent, Resumable, None, None, None)
                                else Rebuild(MissingCheckpoint(db).value)
    ensures LiveRun(db.run.status)
  {
    hide Latest, Chained, FirstCall, DeltaAttributable, IsEarliest, AtMostOne, WaitsForCall, StepsKnown, DueCalls,
         StaleIds;
    var started := CallsWith(db.calls, InvocationStatus.Started);
    var prepared := CallsWith(db.calls, InvocationStatus.Prepared);
    assert started + prepared == {};
  }

  /** From a calm run, recovery writes the missing checkpoints one call at a time and then settles. */
  lemma {:induction false} CalmSettles(cfg: Config, db: Db, u: Unit, world: World) returns (n: nat)
    requires Calm(cfg, db, u, world) && AllFree(db)
    ensures 1 <= n <= |Uncheckpointed(db)| + 1
    ensures Again(cfg, db, u, world, n).Ok? && Settled(cfg, Again(cfg, db, u, world, n).value, u, world)
    decreases |Uncheckpointed(db)|
  {
    hide Quiet, Evolves, Triage, Judge, Prepare, Refresh, CarryOut, Calm, Settled, Uncheckpointed, StaleIds, DueCalls,
         Again, Chained, AtMostOne, Ready, NothingOpen, MissingCheckpoint, RebuildAndRecord, BoundaryFree;
    CalmJudges(cfg, db, u, world);
    CalmMeans(cfg, db, u, world);
    RefreshSucceeds(db, u, world);
    if Uncheckpointed(db) == {} {
      LateRecordSettles(cfg, db, u, world);
      AgainUnfolds(cfg, db, u, world, 0);
      AgainNone(cfg, Prepare(cfg, db, u, world).value.db, u, world);
      n := 1;
    } else {
      var c := MissingCheckpoint(db).value;
      UncheckpointedCall(db, c);
      PrepareLate(cfg, db, u, world);
      RebuildProgresses(cfg, db, u, world, c);
      RebuildIsCarriedOut(cfg, db, u, world, c);
      var next := Prepare(cfg, db, u, world).value.db;
      var k := CalmSettles(cfg, next, u, world);
      AgainUnfolds(cfg, db, u, world, k);
      n := k + 1;
    }
  }

  /** From a calm run with a boundary that is taken, it rebuilds until it gets there, and then fails. */
  lemma {:induction false} CalmFails(cfg: Config, db: Db, u: Unit, world: World) returns (n: nat)
    requires Calm(cfg, db, u, world) && WellCheckpointed(db) && !AllFree(db)
    ensures n < |Uncheckpointed(db)|
    ensures Again(cfg, db, u, world, n).Ok? && Prepare(cfg, Again(cfg, db, u, world, n).value, u, world).Err?
    decreases |Uncheckpointed(db)|
  {
    hide Quiet, Evolves, Triage, Judge, Prepare, Refresh, CarryOut, Calm, Uncheckpointed, StaleIds, DueCalls, Again,
         Chained, AtMostOne, Ready, NothingOpen, MissingCheckpoint, RebuildAndRecord, BoundaryFree, WellCheckpointed;
    CalmJudges(cfg, db, u, world);
    CalmMeans(cfg, db, u, world);
    RefreshSucceeds(db, u, world);
    assert Uncheckpointed(db) != {};
    var c := MissingCheckpoint(db).value;
    UncheckpointedCall(db, c);
    PrepareLate(cfg, db, u, world);
    RebuildSucceedsExactly(cfg, db, u, world, c);
    AgainNone(cfg, db, u, world);
    if !BoundaryFree(db, c) {
      n := 0;
    } else {
      RebuildProgresses(cfg, db, u, world, c);
      RebuildIsCarriedOut(cfg, db, u, world, c);
      RebuildStaysWell(cfg, db, u, world, c);
      var next := Prepare(cfg, db, u, world).value.db;
      var k := CalmFails(cfg, next, u, world);
      AgainUnfolds(cfg, db, u, world, k);
      n := k + 1;
    }
  }

  lemma RebuildStaysWell(cfg: Config, db: Db, u: Unit, world: World, c: CallId)
    requires WellCheckpointed(db) && RebuildAndRecord(cfg, db, u, world, c).Ok?
    ensures WellCheckpointed(RebuildAndRecord(cfg, db, u, world, c).value.db)
  {
    hide Quiet, Evolves, WellCheckpointed, CreateCheckpoint, RecordPlan, KeyFor, RebuildBoundary;
    var written := CreateCheckpoint(cfg, db, u, RebuildBoundary(db, c), world).value;
    CreateStaysWell(cfg, db, u, RebuildBoundary(db, c), world);
    var key := KeyFor(written.db, Some(written.checkpoint.id), RebuildCheckpointThenContinue, Resumable, None,
                      Some(c), db.calls[c].approval);
    PlanBudget(written.db, u, key);
    QuietIsEvolves(written.db);
    BooksAreSame(written.db, RecordPlan(written.db, u, key).db);
    SameStaysWell(written.db, RecordPlan(written.db, u, key).db);
  }

  lemma BooksAreSame(a: Db, b: Db)
    requires SameBooks(a, b)
    ensures SameCheckpoints(a, b)
  {
  }

  lemma AgainNone(cfg: Config, db: Db, u: Unit, world: World)
    ensures Again(cfg, db, u, world, 0) == Ok(db)
  {
    hide Prepare;
  }

  lemma RebuildIsCarriedOut(cfg: Config, db: Db, u: Unit, world: World, c: CallId)
    ensures CarryOut(cfg, db, u, world, Rebuild(c)) == RebuildAndRecord(cfg, db, u, world, c)
  {
    hide Quiet, Evolves, RebuildAndRecord;
  }

  lemma CalmMeans(cfg: Config, db: Db, u: Unit, world: World)
    requires Calm(cfg, db, u, world)
    ensures Ready(db, u) && HoldsLease(db, u) && Chained(db.audit) && DueCalls(db, u.now) == {} && StepsKnown(db)
    ensures db.run.status.Running? && db.run.config == cfg.fingerprint && NothingOpen(db) && StaleIds(db, world) == {}
  {
  }

  // ---------- the fixed point ----------

  lemma ReadyRefreshed(db: Db, b: Db, u: Unit)
    requires Ready(db, u) && Refreshed(db, b) && Evolves(db, b)
    ensures Ready(b, u) && Uncheckpointed(b) == Uncheckpointed(db) && (AllFree(b) <==> AllFree(db))
    ensures DueCalls(b, u.now) == DueCalls(db, u.now)
  {
    hide Evolves, Chained, AtMostOne, FindBoundary;
    assert db.audit <= b.audit by { EvolvesGrowsLog(db, b); }
    EvolvesChained(db, b);
    ViewKeepsOne(db, b);
    MissingOfSame(db, b);
    DueRefreshed(db, b, u.now);
  }

  /** A live run without open calls is not waiting. */
  lemma NothingOpenRuns(db: Db)
    requires LiveRun(db.run.status) && WaitsForCall(db) && NothingOpen(db)
    ensures db.run.status.Running?
  {
    if db.run.status.WaitingApproval? {
      var c :| c in db.approvals && c in db.calls && db.calls[c].status.Prepared?;
      PreparedIsOpen(db, c);
    }
  }

  lemma PreparedIsOpen(db: Db, c: CallId)
    requires c in db.calls && db.calls[c].status.Prepared?
    ensures !NothingOpen(db)
  {
    assert c in CallsWith(db.calls, InvocationStatus.Prepared);
  }

  lemma TriageNoneMeans(cfg: Config, db: Db, world: World)
    requires Triage(cfg, db, world).None?
    ensures LiveRun(db.run.status) && db.run.config == cfg.fingerprint
  {
    hide Latest;
  }

  /** What the first call finds, when no approval is due and it is not decided early. */
  lemma LateJudgement(cfg: Config, db: Db, u: Unit, world: World) returns (current: Db)
    requires Ready(db, u) && Triage(cfg, db, world).None? && DueCalls(db, u.now) == {}
    ensures Refresh(db, u, world) == Ok(current) && Ready(current, u) && DueCalls(current, u.now) == {}
    ensures LiveRun(current.run.status) && current.run.config == cfg.fingerprint && StaleIds(current, world) == {}
    ensures Uncheckpointed(current) == Uncheckpointed(db) && (AllFree(current) <==> AllFree(db))
    ensures Evolves(db, current) && SameCheckpoints(db, current)
    ensures VerdictFits(current, Judge(db, world)) && Judge(current, world) == Judge(db, world)
    ensures Prepare(cfg, db, u, world) == CarryOut(cfg, current, u, world, Judge(db, world))
  {
    QuietIsEvolves(db);
    hide Quiet, Evolves, Triage, Judge, Prepare, Refresh, CarryOut, Uncheckpointed, StaleIds, DueCalls, Chained,
         AtMostOne, StepsKnown, Ready, AllFree, VerdictFits;
    ReadyMeans(db, u);
    TriageNoneMeans(cfg, db, world);
    RefreshSucceeds(db, u, world);
    current := Refresh(db, u, world).value;
    ReadyRefreshed(db, current, u);
    JudgeRefreshedSame(db, current, world);
    JudgeFits(current, world);
    PrepareLate(cfg, db, u, world);
    RefreshBudget(db, u, world);
    BooksAreSame(db, current);
  }

  /** One call on a ready database that is not stuck leaves it settled, blocked, or calm with less to do. */
  lemma FirstRecovery(cfg: Config, db: Db, u: Unit, world: World)
    requires Ready(db, u) && !Stuck(cfg, db, u, world)
    ensures Prepare(cfg, db, u, world).Ok?
    ensures var b := Prepare(cfg, db, u, world).value.db;
            || Settled(cfg, b, u, world)
            || (b.run.status.Blocked? && HoldsLease(b, u) && Chained(b.audit))
            || (Calm(cfg, b, u, world) && AllFree(b) && |Uncheckpointed(b)| < |Uncheckpointed(db)|)
  {
    hide Quiet, Evolves, Triage, Judge, Prepare, Refresh, CarryOut, Calm, Settled, Uncheckpointed, StaleIds, DueCalls,
         Chained, AtMostOne, WaitsForCall, StepsKnown, NothingOpen, Ready, AllFree, SameCheckpoints;
    ReadyMeans(db, u);
    var early := Triage(cfg, db, world);
    TriageStops(cfg, db, world);
    if early.Some? {
      TriageFits(cfg, db, world);
      if early.value.Record? {
        EarlyRecordSettles(cfg, db, u, world);
      } else {
        PrepareEarly(cfg, db, u, world);
        StopSucceeds(cfg, db, u, world, early.value);
      }
    } else if DueCalls(db, u.now) != {} {
      DueApprovalFinishes(cfg, db, u, world);
    } else {
      LateRecovery(cfg, db, u, world);
    }
  }

  lemma LateRecovery(cfg: Config, db: Db, u: Unit, world: World)
    requires Ready(db, u) && Triage(cfg, db, world).None? && DueCalls(db, u.now) == {}
    requires Judge(db, world).Rebuild? ==> AllFree(db)
    ensures Prepare(cfg, db, u, world).Ok?
    ensures var b := Prepare(cfg, db, u, world).value.db;
            || Settled(cfg, b, u, world)
            || (b.run.status.Blocked? && HoldsLease(b, u) && Chained(b.audit))
            || (Calm(cfg, b, u, world) && AllFree(b) && |Uncheckpointed(b)| < |Uncheckpointed(db)|)
  {
    hide Quiet, Evolves, Triage, Judge, Prepare, Refresh, CarryOut, Calm, Settled, Uncheckpointed, StaleIds, DueCalls,
         Chained, AtMostOne, WaitsForCall, StepsKnown, NothingOpen, Ready, BoundaryFree, SameCheckpoints;
    ReadyMeans(db, u);
    TriageNoneMeans(cfg, db, world);
    var current := LateJudgement(cfg, db, u, world);
    ReadyMeans(current, u);
    var v := Judge(db, world);
    if v.Record? {
      LateRecordSettles(cfg, db, u, world);
    } else if Stops(v) {
      StopSucceeds(cfg, current, u, world, v);
    } else {
      NothingOpenRuns(current);
      UncheckpointedCall(current, v.missing);
      RebuildProgresses(cfg, current, u, world, v.missing);
      RebuildIsCarriedOut(cfg, current, u, world, v.missing);
      assert v.missing in Uncheckpointed(current);
    }
  }

  lemma ReadyMeans(db: Db, u: Unit)
    requires Ready(db, u)
    ensures HoldsLease(db, u) && db.audit != [] && Chained(db.audit) && AtMostOne(db) && WaitsForCall(db)
            && StepsKnown(db)
  {
  }

  /**
    With clock, configuration and working tree unchanged, recovery that is not stuck succeeds every
    time it is asked and settles: after `n` calls every further call returns the stored decision and
    changes nothing.  `n` is at most two, or one more than the finished calls that had no checkpoint.
   */
  lemma RecoverySettles(cfg: Config, db: Db, u: Unit, world: World) returns (n: nat)
    requires Ready(db, u) && !Stuck(cfg, db, u, world)
    ensures 1 <= n && (n <= 2 || n <= |Uncheckpointed(db)| + 1)
    ensures Again(cfg, db, u, world, n).Ok?
    ensures forall more: nat ::
              Again(cfg, Again(cfg, db, u, world, n).value, u, world, more) == Again(cfg, db, u, world, n)
  {
    hide Prepare, Settled, Calm, Ready, Chained, Uncheckpointed, Again, Stuck, AllFree;
    FirstRecovery(cfg, db, u, world);
    var b := Prepare(cfg, db, u, world).value.db;
    if Settled(cfg, b, u, world) {
      AgainUnfolds(cfg, db, u, world, 0);
      AgainNone(cfg, b, u, world);
      n := 1;
    } else if b.run.status.Blocked? && HoldsLease(b, u) && Chained(b.audit) {
      BlockedSettles(cfg, b, u, world);
      AgainUnfolds(cfg, db, u, world, 1);
      AgainUnfolds(cfg, b, u, world, 0);
      AgainNone(cfg, Prepare(cfg, b, u, world).value.db, u, world);
      n := 2;
    } else {
      var k := CalmSettles(cfg, b, u, world);
      AgainUnfolds(cfg, db, u, world, k);
      n := k + 1;
    }
    var last := Again(cfg, db, u, world, n).value;
    forall more: nat ensures Again(cfg, last, u, world, more) == Ok(last) {
      SettledForEver(cfg, last, u, world, more);
    }
  }

  // ---------- when it fails ----------

  /** A call that fails rolls back, so asking again fails the same way. */
  lemma {:induction false} FailsForEver(cfg: Config, db: Db, u: Unit, world: World, n: nat, later: nat)
    requires Again(cfg, db, u, world, n).Ok? && Prepare(cfg, Again(cfg, db, u, world, n).value, u, world).Err?
             && n < later
    ensures Again(cfg, db, u, world, later).Err?
    decreases n
  {
    hide Prepare;
    if n > 0 {
      FailsForEver(cfg, Prepare(cfg, db, u, world).value.db, u, world, n - 1, later - 1);
    }
  }

  /** A stuck recovery fails after `n` calls, at once or when it gets to the boundary that is taken. */
  lemma StuckRecoveryFails(cfg: Config, db: Db, u: Unit, world: World) returns (n: nat)
    requires Ready(db, u) && WellCheckpointed(db) && Stuck(cfg, db, u, world)
    ensures n == 0 || n < |Uncheckpointed(db)|
    ensures Again(cfg, db, u, world, n).Ok? && Prepare(cfg, Again(cfg, db, u, world, n).value, u, world).Err?
  {
    hide Quiet, Evolves, Triage, Judge, Prepare, Refresh, CarryOut, Calm, Uncheckpointed, StaleIds, DueCalls, Again,
         Chained, AtMostOne, WaitsForCall, Ready, NothingOpen, BoundaryFree, WellCheckpointed, RebuildAndRecord,
         AllFree, SameCheckpoints;
    ReadyMeans(db, u);
    AgainNone(cfg, db, u, world);
    if Triage(cfg, db, world).Some? {
      EarlyDecisionSucceedsExactly(cfg, db, u, world);
      n := 0;
    } else {
      var current := LateJudgement(cfg, db, u, world);
      ReadyMeans(current, u);
      SameStaysWell(db, current);
      NothingOpenRuns(current);
      var c := Judge(db, world).missing;
      RebuildSucceedsExactly(cfg, current, u, world, c);
      if !BoundaryFree(current, c) {
        n := 0;
      } else {
        RebuildProgresses(cfg, current, u, world, c);
        RebuildIsCarriedOut(cfg, current, u, world, c);
        RebuildStaysWell(cfg, current, u, world, c);
        var next := Prepare(cfg, db, u, world).value.db;
        var k := CalmFails(cfg, next, u, world);
        AgainUnfolds(cfg, db, u, world, k);
        n := k + 1;
      }
    }
  }

  // ---------- ready states are what runs reach ----------

  lemma StepsStayKnown(cfg: Config, a: Db, b: Db, now: Time, k: Kind)
    requires Evolves(a, b) && Shows(cfg, a, b, now, k) && StepsKnown(a)
    ensures StepsKnown(b)
  {
    hide Evolves, Shows, HasStarted;
    forall c | c in b.calls ensures b.calls[c].step in b.steps {
      KindCalls(cfg, a, b, now, k, c);
      if c in a.calls {
        SameStep(a, b, c);
      } else {
        FreshStep(cfg, a, b, now, k);
      }
    }
  }

  lemma SameStep(a: Db, b: Db, c: CallId)
    requires Evolves(a, b) && c in a.calls
    ensures c in b.calls && b.calls[c].step == a.calls[c].step && a.steps <= b.steps
  {
    assert CallAdvances(a.calls[c], b.calls[c]);
  }

  lemma FreshStep(cfg: Config, a: Db, b: Db, now: Time, k: Kind)
    requires Shows(cfg, a, b, now, k) && (k.Creation? || k.Opening?) && k.pass.req.call !in a.calls
    ensures k.pass.req.call in b.calls && b.calls[k.pass.req.call].step in b.steps
  {
    hide FreshRow;
  }

  lemma CreateKeepsRefs(cfg: Config, db: Db, u: Unit, b: Boundary, world: World)
    requires CreateCheckpoint(cfg, db, u, b, world).Ok? && ToolRefs(db.checkpoints) && RefersToCall(b)
    ensures ToolRefs(CreateCheckpoint(cfg, db, u, b, world).value.db.checkpoints)
  {
    hide Quiet, Evolves, BoundaryAllowed, FindBoundary, MaxSequence, TakeSnapshot;
  }

  lemma AddingKeepsRefs(cfg: Config, a: Db, b: Db, u: Unit, world: World)
    requires AddsCheckpoint(cfg, a, b, u, world, true) && ToolRefs(a.checkpoints)
    ensures ToolRefs(b.checkpoints)
  {
    hide CreateCheckpoint, Evolves;
    var mid, boundary :|
      && RefersToCall(boundary)
      && SameCheckpoints(a, mid) && Evolves(a, mid)
      && CreateCheckpoint(cfg, mid, u, boundary, world).Ok?
      && SameCheckpoints(CreateCheckpoint(cfg, mid, u, boundary, world).value.db, b)
      && Evolves(CreateCheckpoint(cfg, mid, u, boundary, world).value.db, b);
    CreateKeepsRefs(cfg, mid, u, boundary, world);
  }

  lemma RefsNext(cfg: Config, s: System, step: Step)
    requires ToolRefs(s.db.checkpoints) && FilesWell(step)
    ensures ToolRefs(Next(cfg, s, step).db.checkpoints)
  {
    hide StoreStep, TakeTurn, Evolves, Quiet, KeepsBalance, AddsCheckpoint;
    var b := Next(cfg, s, step).db;
    if step.Advance? {
      TurnBalance(cfg, GateOf(s, step.token), s.db, s.now, step.token, step.outcome, s.db.run.used);
      KeepsMeansSame(s.db, b, s.db.run.used);
    } else if StoreStep(cfg, s, step).Ok? {
      if step.WriteCheckpoint? || step.Recover? {
        ServiceBudget(cfg, s, step);
        if !SameCheckpoints(s.db, b) {
          AddingKeepsRefs(cfg, s.db, b, Unit(s.now, step.token, HARNESS), s.world);
        }
      } else if step.Charge? {
        ChargeBooks(cfg, s, step);
      } else {
        StoreBudget(cfg, s, step);
      }
    }
  }

  lemma ChargeBooks(cfg: Config, s: System, step: Step)
    requires step.Charge? && StoreStep(cfg, s, step).Ok?
    ensures SameCheckpoints(s.db, StoreStep(cfg, s, step).value)
  {
    hide Quiet, Evolves;
  }

  lemma {:induction false} KnownExec(cfg: Config, s: System, steps: seq<Step>)
    requires Governed(cfg, s) && StepsKnown(s.db)
    ensures StepsKnown(Exec(cfg, s, steps).db)
    decreases |steps|
  {
    hide Governed, StepsKnown, Next, Evolves, Shows, ComesFrom;
    if steps != [] {
      var step := steps[0];
      GovernedMeans(cfg, s);
      GovernedNext(cfg, s, step);
      NextEvolves(cfg, s, step);
      var k := StepKind(cfg, s, step);
      StepsStayKnown(cfg, s.db, Next(cfg, s, step).db, s.now, k);
      KnownExec(cfg, Next(cfg, s, step), steps[1..]);
    }
  }

  lemma {:induction false} RefsExec(cfg: Config, s: System, steps: seq<Step>)
    requires ToolRefs(s.db.checkpoints) && forall i :: 0 <= i < |steps| ==> FilesWell(steps[i])
    ensures ToolRefs(Exec(cfg, s, steps).db.checkpoints)
    decreases |steps|
  {
    hide ToolRefs, Next;
    if steps != [] {
      assert FilesWell(steps[0]);
      RefsNext(cfg, s, steps[0]);
      RefsExec(cfg, Next(cfg, s, steps[0]), steps[1..]);
    }
  }

  /** If the harness files tool checkpoints under their own call, no run gets stuck on a boundary that is taken. */
  lemma WellFiledRunsStayFree(cfg: Config, s0: System, steps: seq<Step>)
    requires Initial(cfg, s0) && forall i :: 0 <= i < |steps| ==> FilesWell(steps[i])
    ensures AllFree(Exec(cfg, s0, steps).db)
  {
    hide Exec, AllFree;
    RefsExec(cfg, s0, steps);
    WellFiledIsFree(Exec(cfg, s0, steps).db);
  }

  lemma ReachableIsReady(cfg: Config, s0: System, steps: seq<Step>, u: Unit)
    requires Initial(cfg, s0) && HoldsLease(Exec(cfg, s0, steps).db, u)
    ensures Ready(Exec(cfg, s0, steps).db, u) && WellCheckpointed(Exec(cfg, s0, steps).db)
  {
    hide Exec, Governed, AtMostOne, WaitsForCall, WellCheckpointed, Chained;
    InitialGoverned(cfg, s0);
    InitialWell(cfg, s0);
    assert StepsKnown(s0.db);
    NeverTwoOutstanding(cfg, s0, steps);
    WaitingRunHasItsCall(cfg, s0, steps);
    KnownExec(cfg, s0, steps);
    WellExec(cfg, s0, steps);
    WellHasLog(Exec(cfg, s0, steps).db);
    WellIsChained(Exec(cfg, s0, steps).db);
  }

  lemma InitialWell(cfg: Config, s: System)
    requires Initial(cfg, s)
    ensures WellCheckpointed(s.db)
  {
    hide Chained;
  }

  lemma WellIsChained(db: Db)
    requires WellCheckpointed(db)
    ensures Chained(db.audit)
  {
  }

  /**
    The fixed point, in every reachable state and for whoever holds the lease: unless recovery is
    stuck it succeeds every time and settles after `n` calls; if it is stuck, it succeeds `n` times
    and fails for ever after.
   */
  lemma RecoverySettlesInEveryRun(cfg: Config, s0: System, steps: seq<Step>, t: Token) returns (n: nat)
    requires Initial(cfg, s0)
    requires HoldsLease(Exec(cfg, s0, steps).db, Unit(Exec(cfg, s0, steps).now, t, HARNESS))
    ensures var s := Exec(cfg, s0, steps);
            var u := Unit(s.now, t, HARNESS);
            && Again(cfg, s.db, u, s.world, n).Ok?
            && if Stuck(cfg, s.db, u, s.world)
               then (n == 0 || n < |Uncheckpointed(s.db)|)
                    && forall later: nat :: n < later ==> Again(cfg, s.db, u, s.world, later).Err?
               else 1 <= n && (n <= 2 || n <= |Uncheckpointed(s.db)| + 1)
                    && forall more: nat ::
                         Again(cfg, Again(cfg, s.db, u, s.world, n).value, u, s.world, more)
                             == Again(cfg, s.db, u, s.world, n)
  {
    hide Exec, Again, Prepare, Uncheckpointed, Ready, WellCheckpointed, Stuck, Initial;
    var s := Exec(cfg, s0, steps);
    var u := Unit(s.now, t, HARNESS);
    ReachableIsReady(cfg, s0, steps, u);
    if Stuck(cfg, s.db, u, s.world) {
      n := StuckRecoveryFails(cfg, s.db, u, s.world);
      forall later: nat | n < later ensures Again(cfg, s.db, u, s.world, later).Err? {
        FailsForEver(cfg, s.db, u, s.world, n, later);
      }
    } else {
      n := RecoverySettles(cfg, s.db, u, s.world);
    }
  }
}
