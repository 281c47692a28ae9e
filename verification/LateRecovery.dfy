/**
  A recovery between the claim and the start of a call: what it leaves behind, and a run, step by
  step, in which it happens.
 */
module LateRecovery {
  import opened Domain
  import opened Wrappers
  import opened StateStore
  import opened ApprovalStore
  import opened Gate
  import opened Recovery
  import opened Protocol
  import opened Coupling
  import opened ApprovalEffects
  import opened StepEffects
  import opened Budget
  import opened Checkpoints
  import opened RecoveryPlans
  import opened RecoveryFixpoint
  import Audit

  // ---------- every such recovery ----------

  /** A block that is decided before the rows are looked at, while no approval is due, is carried out. */
  lemma EarlyBlockBlocks(cfg: Config, s: System, t: Token)
    requires HoldsLease(s.db, Unit(s.now, t, HARNESS)) && Chained(s.db.audit) && DueCalls(s.db, s.now) == {}
    requires Triage(cfg, s.db, s.world).Some? && Triage(cfg, s.db, s.world).value.Block?
    ensures EndsBlocked(s.db, Next(cfg, s, Step.Recover(t)).db)
  {
    hide Quiet, Evolves, Triage, Prepare, Chained, DueCalls, CarryOut, HoldsLease;
    var u := Unit(s.now, t, HARNESS);
    TriageStops(cfg, s.db, s.world);
    PrepareEarly(cfg, s.db, u, s.world);
    StopSucceeds(cfg, s.db, u, s.world, Triage(cfg, s.db, s.world).value);
    RecoverTurn(cfg, s, t);
  }

  /**
    A Gate has claimed and is about to start, and a recovery under its token finds a reason to block
    the run: no usable checkpoint, another configuration, another working tree.  The claim is
    withdrawn, the run is BLOCKED, and the Gate starts the call all the same.
   */
  lemma EarlyBlockUncouples(cfg: Config, s: System, t: Token, outcome: Outcome)
    requires ClaimedAndReady(s, t) && Chained(s.db.audit) && DueCalls(s.db, s.now) == {}
    requires Triage(cfg, s.db, s.world).Some? && Triage(cfg, s.db, s.world).value.Block?
    ensures var c := GateOf(s, t).pass.req.call;
            var started := Next(cfg, Next(cfg, s, Step.Recover(t)), Advance(t, outcome));
            && started.db.run.status.Blocked? && GateOf(started, t) == Executing(GateOf(s, t).pass)
            && c in started.db.approvals && started.db.approvals[c].status.Invalidated?
            && c in started.db.calls && started.db.calls[c].status.Started?
            && !Coupled(started.db)
  {
    hide Next, Coupled, Triage, Chained, DueCalls;
    EarlyBlockBlocks(cfg, s, t);
    BlockingRecoveryUncouples(cfg, s, t, outcome);
  }

  // ---------- one such run ----------

  const CALL: CallId := 5
  const STEP: nat := 7
  const DIGEST: nat := 3
  const TOOL: Tool := "write_file"
  const SPEC: ToolSpec := ToolSpec(Write, false, true)
  const LIMITS: Usage := Usage(10, 10, 10, 10)
  const LEASE: Lease := Lease(0, "harness", 1000)
  const CONFIG: Config := Config(map[TOOL := SPEC], map[], {TOOL}, {}, {"lead"}, 60, 1, 1, 0)
  const REQUEST: Request := Request(CALL, TOOL, STEP, "agent", true, true, Some(DIGEST))
  const PASS: Pass := Pass(REQUEST, SPEC, DIGEST, false, true, 0)
  const NO_OUTCOME: Outcome := Outcome(InvocationStatus.UnknownResult, [], Some(ResultUnknown), false)

  function RunIn(status: RunStatus, revision: nat, toolCalls: nat): Run {
    Run(1, 0, LIMITS, Usage(0, toolCalls, 0, 0), status, None, NotEvaluated, revision, None, None, None)
  }

  function Call(status: InvocationStatus, revision: nat): Invocation {
    Invocation(TOOL, DIGEST, Write, false, STEP, status, revision, Some(0), None, 0, 0)
  }

  function Row(status: ApprovalStatus, revision: nat): Approval {
    Approval(0, TOOL, DIGEST, Binding(1, CALL, TOOL, DIGEST, 0, "agent", {"lead"}, 0, 60), "agent", {"lead"}, status,
        revision, 0, 60,
             if status.Pending? then None else Some(0), if status.Pending? then None else Some("boss"),
             if status.Claimed? then Some(0) else None, if status.Claimed? then Some(CALL) else None, None, None)
  }

  function Start(): System {
    var created := Audit.Append([], Entry("harness", 0, HarnessNote), Genesis, HashOf);
    var workspace := Workspace(0, 0, 0, 0, false, map[], false);
    System(Db(RunIn(New, 0, 0), {}, map[], map[], map[], map[], [], map[], created, Some(LEASE), 1, 0),
           map[], [], 0, World(workspace, map[]))
  }

  /** The parts of a state that the run below depends on. */
  predicate At(s: System, run: Run, steps: set<nat>, calls: map<CallId, Invocation>, approvals: map<CallId, Approval>,
               gate: Gate) {
    && s.db.run == run && s.db.steps == steps && s.db.calls == calls && s.db.approvals == approvals
    && s.db.lease == Some(LEASE) && s.db.nextToken == 1 && s.now == 0 && GateOf(s, 0) == gate
    && (approvals == map[] ==> s.db.nextId == 0)
    && s.db.ledger == map[]
  }

  lemma StartIsInitial()
    ensures Initial(CONFIG, Start())
    ensures At(Start(), RunIn(New, 0, 0), {}, map[], map[], Idle)
  {
    AppendChained([], Entry("harness", 0, HarnessNote));
    hide Chained;
    assert Chained([]) by { ChainedEmpty(); }
    forall k ensures Usage(0, 0, 0, 0).Get(k) <= LIMITS.Get(k) {
    }
  }

  lemma ChainedEmpty()
    ensures Chained([])
  {
  }

  lemma Begins(s: System)
    requires At(s, RunIn(New, 0, 0), {}, map[], map[], Idle)
    ensures At(Next(CONFIG, s, MoveRun(0, Running, None, None)), RunIn(Running, 1, 0), {}, map[], map[], Idle)
  {
    hide Quiet, Evolves, TakeTurn;
  }

  lemma PlansStep(s: System)
    requires At(s, RunIn(Running, 1, 0), {}, map[], map[], Idle)
    ensures At(Next(CONFIG, s, PlanStep(0, STEP)), RunIn(Running, 2, 0), {STEP}, map[], map[], Idle)
  {
    hide Quiet, Evolves, TakeTurn;
  }

  lemma Submits(s: System, run: Run, calls: map<CallId, Invocation>, approvals: map<CallId, Approval>)
    requires At(s, run, {STEP}, calls, approvals, Idle)
    ensures At(Next(CONFIG, s, Submit(0, Snapshotting(REQUEST))), run, {STEP}, calls, approvals, Snapshotting(REQUEST))
  {
    hide StoreStep, TakeTurn;
  }

  lemma AsksForApproval(s: System)
    requires At(s, RunIn(Running, 2, 0), {STEP}, map[], map[], Snapshotting(REQUEST))
    ensures At(Next(CONFIG, s, Advance(0, NO_OUTCOME)), RunIn(Running, 2, 0), {STEP}, map[], map[],
               OpeningApproval(PASS.(approved := false), false))
  {
    hide StoreStep;
    assert Equivalent(s.db.calls, TOOL, DIGEST) == {};
  }

  /** The same parts of a database. */
  predicate Rows(db: Db, run: Run, calls: map<CallId, Invocation>, approvals: map<CallId, Approval>) {
    && db.run == run && db.steps == {STEP} && db.calls == calls && db.approvals == approvals
    && db.lease == Some(LEASE) && db.nextToken == 1 && (approvals == map[] ==> db.nextId == 0) && db.ledger == map[]
  }

  const UNLINKED: Invocation := Call(InvocationStatus.Prepared, 0).(approval := None)

  lemma PreparesCall(db: Db)
    requires Rows(db, RunIn(Running, 2, 0), map[], map[])
    ensures var r := CreateInvocation(db, Unit(0, 0, "agent"), CALL, UNLINKED, 2);
            r.Ok? && Rows(r.value, RunIn(Running, 3, 0), map[CALL := UNLINKED], map[])
  {
    hide Quiet, Evolves;
  }

  lemma AddsRow(db: Db)
    requires Rows(db, RunIn(Running, 3, 0), map[CALL := UNLINKED], map[])
    ensures var r := ApprovalStore.Create(db, Unit(0, 0, "agent"), Ask(CALL, DIGEST, "agent", {"lead"}, 60));
            r.Ok? && Rows(r.value, RunIn(Running, 3, 0), map[CALL := Call(InvocationStatus.Prepared, 1)],
                          map[CALL := Row(ApprovalStatus.Pending, 0)])
  {
    hide Quiet, Evolves;
  }

  lemma StartsToWait(db: Db, calls: map<CallId, Invocation>, approvals: map<CallId, Approval>)
    requires Rows(db, RunIn(Running, 3, 0), calls, approvals)
    ensures var r := TransitionRun(db, Unit(0, 0, "agent"), Running, 3, WaitingApproval, None, None);
            r.Ok? && Rows(r.value, RunIn(WaitingApproval, 4, 0), calls, approvals)
  {
    hide Quiet, Evolves;
  }

  lemma OpensApproval(s: System)
    requires At(s, RunIn(Running, 2, 0), {STEP}, map[], map[], OpeningApproval(PASS.(approved := false), false))
    ensures At(Next(CONFIG, s, Advance(0, NO_OUTCOME)), RunIn(WaitingApproval, 4, 0), {STEP},
               map[CALL := Call(InvocationStatus.Prepared, 1)], map[CALL := Row(ApprovalStatus.Pending, 0)], Idle)
  {
    hide Quiet, Evolves, StoreStep, CreateInvocation, ApprovalStore.Create, TransitionRun;
    var u := Unit(0, 0, "agent");
    PreparesCall(s.db);
    var prepared := CreateInvocation(s.db, u, CALL, UNLINKED, 2).value;
    AddsRow(prepared);
    var asked := ApprovalStore.Create(prepared, u, Ask(CALL, DIGEST, "agent", {"lead"}, 60)).value;
    StartsToWait(asked, map[CALL := Call(InvocationStatus.Prepared, 1)], map[CALL := Row(ApprovalStatus.Pending, 0)]);
  }

  lemma IsApproved(s: System)
    requires At(s, RunIn(WaitingApproval, 4, 0), {STEP}, map[CALL := Call(InvocationStatus.Prepared, 1)],
                map[CALL := Row(ApprovalStatus.Pending, 0)], Idle)
    ensures At(Next(CONFIG, s, DecideApproval(0, "boss", CALL, 0, {"lead"}, true)), RunIn(WaitingApproval, 4, 0),
            {STEP},
               map[CALL := Call(InvocationStatus.Prepared, 1)], map[CALL := Row(ApprovalStatus.Approved, 1)], Idle)
  {
    hide Quiet, Evolves, TakeTurn;
    assert "lead" in {"lead"} * {"lead"};
    assert "boss" != "agent" by { assert "boss"[0] != "agent"[0]; }
  }

  lemma DecidesToClaim(s: System)
    requires At(s, RunIn(WaitingApproval, 4, 0), {STEP}, map[CALL := Call(InvocationStatus.Prepared, 1)],
                map[CALL := Row(ApprovalStatus.Approved, 1)], Snapshotting(REQUEST))
    ensures At(Next(CONFIG, s, Advance(0, NO_OUTCOME)), RunIn(WaitingApproval, 4, 0), {STEP},
               map[CALL := Call(InvocationStatus.Prepared, 1)], map[CALL := Row(ApprovalStatus.Approved, 1)],
                   ClaimingApproval(PASS))
  {
    hide StoreStep;
    assert Equivalent(s.db.calls, TOOL, DIGEST) == {};
  }

  lemma TakesTheClaim(s: System)
    requires At(s, RunIn(WaitingApproval, 4, 0), {STEP}, map[CALL := Call(InvocationStatus.Prepared, 1)],
                map[CALL := Row(ApprovalStatus.Approved, 1)], ClaimingApproval(PASS))
    ensures var s' := Next(CONFIG, s, Advance(0, NO_OUTCOME));
            && GateOf(s', 0) == Gate.Starting(PASS) && s'.now == 0 && s'.db.lease == Some(LEASE)
            && s'.db.calls == map[CALL := Call(InvocationStatus.Prepared, 1)]
            && s'.db.approvals.Keys == {CALL} && s'.db.approvals[CALL].status.Claimed?
            && s'.db.run.status.Running?
  {
    hide Quiet, Evolves, StoreStep, ClaimTransaction;
    var u := Unit(0, 0, "agent");
    ClaimTransactionSucceeds(s.db, u, CALL);
    ClaimTransactionEffect(s.db, u, CALL);
  }

  function Prelude(): seq<Step> {
    [MoveRun(0, Running, None, None), PlanStep(0, STEP), Submit(0, Snapshotting(REQUEST)), Advance(0, NO_OUTCOME),
     Advance(0, NO_OUTCOME), DecideApproval(0, "boss", CALL, 0, {"lead"}, true), Submit(0, Snapshotting(REQUEST)),
     Advance(0, NO_OUTCOME), Advance(0, NO_OUTCOME)]
  }

  lemma ExecFirst(s: System, step: Step, rest: seq<Step>)
    ensures Exec(CONFIG, s, [step] + rest) == Exec(CONFIG, Next(CONFIG, s, step), rest)
  {
    hide Next;
    assert ([step] + rest)[1..] == rest;
  }

  lemma PreludeClaims()
    ensures var s := Exec(CONFIG, Start(), Prelude());
            && GateOf(s, 0) == Gate.Starting(PASS) && s.now == 0 && s.db.lease == Some(LEASE)
            && s.db.calls == map[CALL := Call(InvocationStatus.Prepared, 1)]
            && s.db.approvals.Keys == {CALL} && s.db.approvals[CALL].status.Claimed?
            && s.db.run.status.Running?
  {
    hide Next, Exec, At, Initial;
    var steps := Prelude();
    StartIsInitial();
    var s0 := Start();
    var s1 := Next(CONFIG, s0, steps[0]);
    var s2 := Next(CONFIG, s1, steps[1]);
    var s3 := Next(CONFIG, s2, steps[2]);
    var s4 := Next(CONFIG, s3, steps[3]);
    var s5 := Next(CONFIG, s4, steps[4]);
    var s6 := Next(CONFIG, s5, steps[5]);
    var s7 := Next(CONFIG, s6, steps[6]);
    var s8 := Next(CONFIG, s7, steps[7]);
    Begins(s0);
    PlansStep(s1);
    Submits(s2, RunIn(Running, 2, 0), map[], map[]);
    AsksForApproval(s3);
    OpensApproval(s4);
    IsApproved(s5);
    Submits(s6, RunIn(WaitingApproval, 4, 0), map[CALL := Call(InvocationStatus.Prepared, 1)],
        map[CALL := Row(ApprovalStatus.Approved, 1)]);
    DecidesToClaim(s7);
    TakesTheClaim(s8);
    Unrolled(s0, steps);
  }

  lemma Unrolled(s: System, steps: seq<Step>)
    requires |steps| == 9
    ensures Exec(CONFIG, s, steps)
         == Next(CONFIG, Next(CONFIG, Next(CONFIG, Next(CONFIG, Next(CONFIG, Next(CONFIG, Next(CONFIG, Next(CONFIG,
              Next(CONFIG, s, steps[0]), steps[1]), steps[2]), steps[3]), steps[4]), steps[5]), steps[6]), steps[7]),
                  steps[8])
  {
    hide Next;
    var half := Next(CONFIG, Next(CONFIG, Next(CONFIG, Next(CONFIG, Next(CONFIG, s, steps[0]), steps[1]), steps[2]),
        steps[3]), steps[4]);
    ExecFive(CONFIG, s, steps[0], steps[1], steps[2], steps[3], steps[4]);
    assert steps == steps[..5] + steps[5..] && steps[..5] == [steps[0], steps[1], steps[2], steps[3], steps[4]];
    ExecSplits(CONFIG, s, steps[..5], steps[5..]);
    assert steps[5..] == [steps[5], steps[6], steps[7], steps[8]];
    ExecFour(half, steps[5], steps[6], steps[7], steps[8]);
  }

  lemma ExecFour(s: System, a: Step, b: Step, c: Step, d: Step)
    ensures Exec(CONFIG, s, [a, b, c, d]) == Next(CONFIG, Next(CONFIG, Next(CONFIG, Next(CONFIG, s, a), b), c), d)
  {
    hide Next;
    ExecFirst(s, a, [b, c, d]);
    ExecFirst(Next(CONFIG, s, a), b, [c, d]);
    ExecFirst(Next(CONFIG, Next(CONFIG, s, a), b), c, [d]);
    ExecFirst(Next(CONFIG, Next(CONFIG, Next(CONFIG, s, a), b), c), d, []);
    assert [a] + [b, c, d] == [a, b, c, d] && [b] + [c, d] == [b, c, d] && [c] + [d] == [c, d] && [d] + [] == [d];
  }

  /** Steps that write no checkpoint and leave the working tree alone. */
  predicate Plain(step: Step) {
    !step.WriteCheckpoint? && !step.Recover? && !step.ChangeWorld?
  }

  lemma PlainKeepsCheckpoints(cfg: Config, s: System, step: Step)
    requires Plain(step)
    ensures Next(cfg, s, step).db.checkpoints == s.db.checkpoints && Next(cfg, s, step).world == s.world
  {
    hide StoreStep, TakeTurn, Evolves, Quiet, KeepsBalance;
    if step.Advance? {
      TurnBalance(cfg, GateOf(s, step.token), s.db, s.now, step.token, step.outcome, s.db.run.used);
      KeepsMeansSame(s.db, Next(cfg, s, step).db, s.db.run.used);
    } else if StoreStep(cfg, s, step).Ok? {
      if step.Charge? {
        ChargeBooks(cfg, s, step);
      } else {
        StoreBudget(cfg, s, step);
      }
    }
  }

  /** Such runs keep the checkpoints, the working tree, the configuration and an intact log. */
  lemma {:induction false} PlainExec(cfg: Config, s: System, steps: seq<Step>)
    requires forall i :: 0 <= i < |steps| ==> Plain(steps[i])
    ensures var e := Exec(cfg, s, steps);
            && e.db.checkpoints == s.db.checkpoints && e.world == s.world && e.db.run.config == s.db.run.config
            && (Chained(s.db.audit) ==> Chained(e.db.audit))
    decreases |steps|
  {
    hide Next, Chained;
    if steps != [] {
      assert Plain(steps[0]);
      PlainKeepsCheckpoints(cfg, s, steps[0]);
      NextEvolves(cfg, s, steps[0]);
      PlainExec(cfg, Next(cfg, s, steps[0]), steps[1..]);
    }
  }

  /** Calls without any checkpoint make recovery block the run. */
  lemma NoCheckpointBlocks(cfg: Config, db: Db, world: World)
    requires LiveRun(db.run.status) && db.run.config == cfg.fingerprint && db.checkpoints == [] && db.calls != map[]
    ensures Triage(cfg, db, world) == Some(BlockFor(RecoveryCheckpointRequired, GateBlocked))
  {
  }

  lemma NoneDue(db: Db, now: Time)
    requires db.approvals.Keys == {CALL} && db.approvals[CALL].status.Claimed?
    ensures DueCalls(db, now) == {}
  {
  }

  /**
    From an initial state a run reaches a BLOCKED run with an INVALIDATED approval, whose call is
    STARTED and handed to its handler: the coupling is not an invariant of every run.
   */
  lemma UncoupledIsReachable()
    ensures Initial(CONFIG, Start())
    ensures exists steps ::
              var e := Exec(CONFIG, Start(), steps);
              e.db.run.status.Blocked? && GateOf(e, 0) == Executing(PASS) && !Coupled(e.db)
  {
    hide Exec, Next, Initial, Coupled, Triage, DueCalls, Chained;
    StartIsInitial();
    InitialParts(CONFIG, Start());
    PreludeClaims();
    PlainExec(CONFIG, Start(), Prelude());
    var s := Exec(CONFIG, Start(), Prelude());
    assert CALL in s.db.calls;
    assert Start().db.run.config == CONFIG.fingerprint;
    NoCheckpointBlocks(CONFIG, s.db, s.world);
    NoneDue(s.db, s.now);
    EarlyBlockUncouples(CONFIG, s, 0, NO_OUTCOME);
    ExecSplits(CONFIG, Start(), Prelude(), [Step.Recover(0), Advance(0, NO_OUTCOME)]);
    ExecTwo(s, Step.Recover(0), Advance(0, NO_OUTCOME));
    var whole := Prelude() + [Step.Recover(0), Advance(0, NO_OUTCOME)];
    assert !Coupled(Exec(CONFIG, Start(), whole).db);
  }

  lemma InitialParts(cfg: Config, s: System)
    requires Initial(cfg, s)
    ensures s.db.checkpoints == [] && Chained(s.db.audit)
  {
    hide Chained;
  }

  lemma ExecTwo(s: System, a: Step, b: Step)
    ensures Exec(CONFIG, s, [a, b]) == Next(CONFIG, Next(CONFIG, s, a), b)
  {
    hide Next;
    ExecFirst(s, a, [b]);
    ExecFirst(Next(CONFIG, s, a), b, []);
    assert [a] + [b] == [a, b] && [b] + [] == [b];
  }
}
