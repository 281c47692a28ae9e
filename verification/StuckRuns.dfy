/**
  Two runs, step by step, that recovery cannot get out of: one with an approval that has become due
  before a block, one with a tool checkpoint filed under another call.
 */
module StuckRuns {
  import opened Domain
  import opened Wrappers
  import opened StateStore
  import opened ApprovalStore
  import opened Gate
  import opened Recovery
  import opened Protocol
  import opened Execution
  import opened Approvals
  import opened Checkpoints
  import opened RecoveryPlans
  import opened RecoveryFixpoint
  import opened LateRecovery

  const OPERATOR: Unit := Unit(0, 0, HARNESS)

  // ---------- an approval becomes due ----------

  lemma AsksAndWaits()
    ensures var s := Exec(CONFIG, Start(), Prelude()[..5]);
            At(s, RunIn(WaitingApproval, 4, 0), {STEP}, map[CALL := Call(InvocationStatus.Prepared, 1)],
               map[CALL := Row(ApprovalStatus.Pending, 0)], Idle)
  {
    hide Next, Exec, At, Initial;
    var steps := Prelude();
    StartIsInitial();
    var s0 := Start();
    var s1 := Next(CONFIG, s0, steps[0]);
    var s2 := Next(CONFIG, s1, steps[1]);
    var s3 := Next(CONFIG, s2, steps[2]);
    var s4 := Next(CONFIG, s3, steps[3]);
    Begins(s0);
    PlansStep(s1);
    Submits(s2, RunIn(Running, 2, 0), map[], map[]);
    AsksForApproval(s3);
    OpensApproval(s4);
    ExecFive(CONFIG, s0, steps[0], steps[1], steps[2], steps[3], steps[4]);
    assert steps[..5] == [steps[0], steps[1], steps[2], steps[3], steps[4]];
  }

  lemma RowIsDue(db: Db)
    requires CALL in db.approvals && db.approvals[CALL] == Row(ApprovalStatus.Pending, 0)
    ensures DueCalls(db, 60) != {}
  {
    assert CALL in DueCalls(db, 60);
  }

  lemma Waits60(s: System)
    ensures Next(CONFIG, s, Tick(60)) == s.(now := s.now + 60)
  {
  }

  /** A call asks for approval, its time runs out, and recovery, which finds no checkpoint, fails. */
  lemma DueApprovalSticks()
    ensures Initial(CONFIG, Start())
    ensures exists steps ::
              var e := Exec(CONFIG, Start(), steps);
              var u := Unit(e.now, 0, HARNESS);
              HoldsLease(e.db, u) && Stuck(CONFIG, e.db, u, e.world) && Prepare(CONFIG, e.db, u, e.world).Err?
  {
    hide Exec, Next, Initial, Prepare, Triage, DueCalls, Chained, Prelude;
    StartIsInitial();
    InitialParts(CONFIG, Start());
    PreludeIsPlain();
    var early := Prelude()[..5];
    PlainExec(CONFIG, Start(), early);
    AsksAndWaits();
    var s := Exec(CONFIG, Start(), early);
    Waits60(s);
    ExecSplits(CONFIG, Start(), early, [Tick(60)]);
    ExecOne(CONFIG, s, Tick(60));
    var e := Exec(CONFIG, Start(), early + [Tick(60)]);
    assert CALL in e.db.calls;
    RowIsDue(e.db);
    NoCheckpointBlocks(CONFIG, e.db, e.world);
    EarlyDecisionSucceedsExactly(CONFIG, e.db, Unit(60, 0, HARNESS), e.world);
    assert Stuck(CONFIG, e.db, Unit(e.now, 0, HARNESS), e.world);
  }

  lemma PreludeIsPlain()
    ensures |Prelude()| == 9 && forall i :: 0 <= i < 5 ==> Plain(Prelude()[..5][i])
  {
  }

  lemma ExecOne(cfg: Config, s: System, step: Step)
    ensures Exec(cfg, s, [step]) == Next(cfg, s, step)
  {
    hide Next;
    assert [step][1..] == [];
    assert Exec(cfg, Next(cfg, s, step), []) == Next(cfg, s, step);
  }

  // ---------- a boundary is taken ----------

  const READER: Tool := "read_file"
  const READING: ToolSpec := ToolSpec(Read, false, false)
  const READ_CONFIG: Config := Config(map[READER := READING], map[], {READER}, {}, {}, 60, 1, 1, 0)
  const FOUND: Outcome := Outcome(InvocationStatus.Succeeded, [], None, false)
  const OTHER: CallId := 6

  function Ask(c: CallId): Request {
    Request(c, READER, STEP, "agent", true, true, Some(c))
  }

  function PassOf(c: CallId): Pass {
    Pass(Ask(c), READING, c, false, false, 0)
  }

  function Made(c: CallId, status: InvocationStatus, revision: nat): Invocation {
    Invocation(READER, c, Read, false, STEP, status, revision, None, None, 0, 0)
  }

  /** A RUNNING run that has made `spent` calls, in which no approval was ever asked for. */
  ghost predicate Working(s: System, gate: Gate, calls: map<CallId, Invocation>, spent: nat) {
    && s.db.calls == calls && s.db.approvals == map[] && s.db.steps == {STEP} && s.db.lease == Some(LEASE)
    && s.db.nextToken == 1 && s.now == 0 && GateOf(s, 0) == gate
    && s.db.run.status.Running? && s.db.run.startedAt.None?
    && s.db.run.limits == LIMITS && s.db.run.used == Usage(0, spent, 0, 0)
    && (forall c :: ToolCallKey(c) in s.db.ledger ==> c in calls)
    && (forall c :: c in calls ==> calls[c].digest == c && !calls[c].status.UnknownResult?)
  }

  lemma Asks(s: System, calls: map<CallId, Invocation>, spent: nat, c: CallId)
    requires Working(s, Idle, calls, spent)
    ensures Working(Next(READ_CONFIG, s, Submit(0, Snapshotting(Ask(c)))), Snapshotting(Ask(c)), calls, spent)
  {
    hide StoreStep, TakeTurn;
  }

  lemma Passes(s: System, calls: map<CallId, Invocation>, spent: nat, c: CallId)
    requires Working(s, Snapshotting(Ask(c)), calls, spent) && c !in calls && spent < 10
    ensures Working(Next(READ_CONFIG, s, Advance(0, FOUND)), PreparingCall(PassOf(c)), calls, spent)
  {
    hide StoreStep;
    assert Equivalent(s.db.calls, READER, c) == {};
  }

  /** The transaction, on the rows alone. */
  lemma PreparesRead(db: Db, u: Unit, c: CallId)
    requires HoldsLease(db, u) && db.run.status.Running? && STEP in db.steps && c !in db.calls
    requires ToolCallKey(c) !in db.ledger && db.run.used.toolCalls < db.run.limits.toolCalls
    ensures var r := PrepareAndAllow(db, u, PassOf(c));
            && r.Ok?
            && r.value == db.(calls := db.calls[c := NewInvocation(PassOf(c), u.now)],
                ledger := db.ledger[ToolCallKey(c) := 1],
                              run := r.value.run, audit := r.value.audit)
            && r.value.run == db.run.(revision := r.value.run.revision,
                used := db.run.used.Put(ToolCalls, db.run.used.toolCalls + 1))
  {
    hide Quiet, Evolves;
  }

  lemma IsPrepared(s: System, calls: map<CallId, Invocation>, spent: nat, c: CallId)
    requires Working(s, PreparingCall(PassOf(c)), calls, spent) && c !in calls && spent < 10
    ensures Working(Next(READ_CONFIG, s, Advance(0, FOUND)), Gate.Starting(PassOf(c)),
                    calls[c := Made(c, InvocationStatus.Prepared, 0)], spent + 1)
  {
    hide Quiet, Evolves, StoreStep, PrepareAndAllow;
    PreparesRead(s.db, Unit(0, 0, "agent"), c);
  }

  lemma IsStarted(s: System, calls: map<CallId, Invocation>, spent: nat, c: CallId)
    requires Working(s, Gate.Starting(PassOf(c)), calls, spent) && c in calls
    requires calls[c] == Made(c, InvocationStatus.Prepared, 0)
    ensures Working(Next(READ_CONFIG, s, Advance(0, FOUND)), Executing(PassOf(c)),
                    calls[c := Made(c, InvocationStatus.Started, 1)], spent)
  {
    hide Quiet, Evolves, StoreStep;
  }

  lemma Runs(s: System, calls: map<CallId, Invocation>, spent: nat, c: CallId)
    requires Working(s, Executing(PassOf(c)), calls, spent)
    ensures Working(Next(READ_CONFIG, s, Advance(0, FOUND)), Persisting(PassOf(c), FOUND), calls, spent)
  {
    hide Quiet, Evolves, StoreStep;
  }

  lemma IsStored(s: System, calls: map<CallId, Invocation>, spent: nat, c: CallId)
    requires Working(s, Persisting(PassOf(c), FOUND), calls, spent) && c in calls
    requires calls[c] == Made(c, InvocationStatus.Started, 1)
    ensures Working(Next(READ_CONFIG, s, Advance(0, FOUND)), Idle, calls[c := Made(c, InvocationStatus.Succeeded, 2)],
            spent)
  {
    hide Quiet, Evolves, StoreStep;
  }

  function CallSteps(c: CallId): seq<Step> {
    [Submit(0, Snapshotting(Ask(c))), Advance(0, FOUND), Advance(0, FOUND), Advance(0, FOUND), Advance(0, FOUND)]
    + [Advance(0, FOUND)]
  }

  /** A whole call, from its request to its stored result. */
  lemma CallSucceeds(s: System, calls: map<CallId, Invocation>, spent: nat, c: CallId)
    requires Working(s, Idle, calls, spent) && c !in calls && spent < 10
    ensures Working(Exec(READ_CONFIG, s, CallSteps(c)), Idle, calls[c := Made(c, InvocationStatus.Succeeded, 2)],
            spent + 1)
  {
    hide Next, Exec, Working;
    var ask, adv := Submit(0, Snapshotting(Ask(c))), Advance(0, FOUND);
    var s1 := Next(READ_CONFIG, s, ask);
    var s2 := Next(READ_CONFIG, s1, adv);
    var s3 := Next(READ_CONFIG, s2, adv);
    var s4 := Next(READ_CONFIG, s3, adv);
    var s5 := Next(READ_CONFIG, s4, adv);
    var prepared := calls[c := Made(c, InvocationStatus.Prepared, 0)];
    var started := prepared[c := Made(c, InvocationStatus.Started, 1)];
    Asks(s, calls, spent, c);
    Passes(s1, calls, spent, c);
    IsPrepared(s2, calls, spent, c);
    IsStarted(s3, prepared, spent + 1, c);
    Runs(s4, started, spent + 1, c);
    IsStored(s5, started, spent + 1, c);
    ExecFive(READ_CONFIG, s, ask, adv, adv, adv, adv);
    ExecSplits(READ_CONFIG, s, [ask, adv, adv, adv, adv], [adv]);
    ExecOne(READ_CONFIG, s5, adv);
    assert started[c := Made(c, InvocationStatus.Succeeded, 2)] == calls[c := Made(c, InvocationStatus.Succeeded, 2)];
  }

  lemma GoesToWork()
    ensures Initial(READ_CONFIG, Start())
    ensures Working(Exec(READ_CONFIG, Start(), [MoveRun(0, Running, None, None), PlanStep(0, STEP)]), Idle, map[], 0)
  {
    hide Quiet, Evolves, TakeTurn, Exec, Chained;
    StartIsInitial();
    InitialForReaders();
    var s := Start();
    var s1 := Next(READ_CONFIG, s, MoveRun(0, Running, None, None));
    ExecPair(READ_CONFIG, s, MoveRun(0, Running, None, None), PlanStep(0, STEP));
    assert s1.db.run.status.Running? && s1.db.run.used == Usage(0, 0, 0, 0);
  }

  lemma InitialForReaders()
    requires Initial(CONFIG, Start())
    ensures Initial(READ_CONFIG, Start())
  {
    hide Chained, Start;
  }

  lemma ExecPair(cfg: Config, s: System, a: Step, b: Step)
    ensures Exec(cfg, s, [a, b]) == Next(cfg, Next(cfg, s, a), b)
  {
    hide Next;
    ExecSplits(cfg, s, [a], [b]);
    ExecOne(cfg, s, a);
    ExecOne(cfg, Next(cfg, s, a), b);
    assert [a] + [b] == [a, b];
  }

  /** A boundary that captures `CALL` and is filed under `OTHER`. */
  const MISFILED: Boundary := Boundary(BoundaryKind.ToolSucceeded, OTHER, Some(STEP), Some(CALL), None)

  const FIRST: map<CallId, Invocation> := map[CALL := Made(CALL, InvocationStatus.Succeeded, 2)]
  const BOTH: map<CallId, Invocation> := FIRST[OTHER := Made(OTHER, InvocationStatus.Succeeded, 2)]

  predicate OneMisfiled(s: System) {
    && |s.db.checkpoints| == 1 && s.db.checkpoints[0].boundary == MISFILED
    && s.db.checkpoints[0].snapshot.workspace == s.world.workspace
  }

  lemma FilesWrongly(s: System)
    requires Working(s, Idle, FIRST, 1) && s.db.checkpoints == [] && s.db.run.config == 0 && s.db.audit != []
    ensures var after := Next(READ_CONFIG, s, WriteCheckpoint(0, MISFILED));
            Working(after, Idle, FIRST, 1) && OneMisfiled(after) && after.db.run.config == 0
  {
    hide Quiet, Evolves, TakeTurn, StoreStep, CreateCheckpoint, NewCheckpoint, BoundaryAllowed, FindBoundary, Next;
    MisfiledAllowed(s);
    CreateSucceeds(READ_CONFIG, s.db, OPERATOR, MISFILED, s.world);
    NewCheckpointIsLatest(s.db, OPERATOR, MISFILED, s.world);
    WriteStep(s);
  }

  lemma MisfiledAllowed(s: System)
    requires Working(s, Idle, FIRST, 1) && s.db.checkpoints == []
    ensures HoldsLease(s.db, OPERATOR) && BoundaryAllowed(s.db, MISFILED)
    ensures FindBoundary(s.db.checkpoints, MISFILED).None?
  {
  }

  lemma WriteStep(s: System)
    requires s.now == 0 && CreateCheckpoint(READ_CONFIG, s.db, OPERATOR, MISFILED, s.world).Ok?
    ensures Next(READ_CONFIG, s, WriteCheckpoint(0, MISFILED))
         == s.(db := CreateCheckpoint(READ_CONFIG, s.db, OPERATOR, MISFILED, s.world).value.db)
  {
    hide Quiet, Evolves, TakeTurn, CreateCheckpoint;
  }

  lemma CannotRebuild(s: System)
    requires Working(s, Idle, BOTH, 2) && OneMisfiled(s) && s.db.run.config == 0
    ensures Stuck(READ_CONFIG, s.db, OPERATOR, s.world)
    ensures Uncheckpointed(s.db) == {OTHER}
  {
    var row := s.db.checkpoints[0];
    assert s.db.checkpoints == [row];
    assert Latest(s.db.checkpoints) == Some(row) by { OnlyIsLatest(row); }
    OnlyOtherIsMissing(s.db);
    assert FindBoundary([row], RebuildBoundary(s.db, OTHER)).Some?;
    assert DueCalls(s.db, 0) == {};
    NothingIsOpen(s.db);
  }

  lemma OnlyIsLatest(row: Checkpoint)
    ensures Latest([row]) == Some(row)
  {
    assert [row][1..] == [];
  }

  lemma OnlyOtherIsMissing(db: Db)
    requires db.calls == BOTH && |db.checkpoints| == 1 && db.checkpoints[0].boundary == MISFILED
    ensures Uncheckpointed(db) == {OTHER} && OTHER in db.calls
  {
    assert HasToolCheckpoint(db.checkpoints, CALL);
    assert !HasToolCheckpoint(db.checkpoints, OTHER);
  }

  lemma NothingIsOpen(db: Db)
    requires db.calls == BOTH
    ensures CallsWith(db.calls, InvocationStatus.UnknownResult) == {}
    ensures CallsWith(db.calls, InvocationStatus.Started) == {}
    ensures CallsWith(db.calls, InvocationStatus.Prepared) == {}
  {
  }

  lemma CallStepsArePlain(c: CallId)
    ensures forall i :: 0 <= i < |CallSteps(c)| ==> Plain(CallSteps(c)[i])
  {
  }

  function AllSteps(): seq<Step> {
    [MoveRun(0, Running, None, None), PlanStep(0, STEP)] + CallSteps(CALL) + [WriteCheckpoint(0, MISFILED)]
    + CallSteps(OTHER)
  }

  lemma FourParts(cfg: Config, s: System, a: seq<Step>, b: seq<Step>, c: seq<Step>, d: seq<Step>)
    ensures Exec(cfg, s, a + b + c + d) == Exec(cfg, Exec(cfg, Exec(cfg, Exec(cfg, s, a), b), c), d)
  {
    hide Exec;
    ExecSplits(cfg, s, a, b);
    ExecSplits(cfg, s, a + b, c);
    ExecSplits(cfg, s, a + b + c, d);
  }

  /** The second call succeeds although the boundary of its result is taken. */
  lemma AllStepsEnd()
    ensures var e := Exec(READ_CONFIG, Start(), AllSteps());
            Working(e, Idle, BOTH, 2) && OneMisfiled(e) && e.db.run.config == 0
  {
    hide Exec, Next, Initial, CallSteps, Chained, OneMisfiled, Start, Working;
    GoesToWork();
    InitialParts(READ_CONFIG, Start());
    StartsAtZero();
    var begin := [MoveRun(0, Running, None, None), PlanStep(0, STEP)];
    var file := [WriteCheckpoint(0, MISFILED)];
    var s1 := Exec(READ_CONFIG, Start(), begin);
    var s2 := Exec(READ_CONFIG, s1, CallSteps(CALL));
    var s3 := Exec(READ_CONFIG, s2, file);
    var e := Exec(READ_CONFIG, s3, CallSteps(OTHER));
    FourParts(READ_CONFIG, Start(), begin, CallSteps(CALL), file, CallSteps(OTHER));
    CallStepsArePlain(CALL);
    CallStepsArePlain(OTHER);
    PlainExec(READ_CONFIG, Start(), begin);
    PlainExec(READ_CONFIG, s1, CallSteps(CALL));
    LogGrows(READ_CONFIG, Start(), begin);
    LogGrows(READ_CONFIG, s1, CallSteps(CALL));
    CallSucceeds(s1, map[], 0, CALL);
    FilesWrongly(s2);
    ExecOne(READ_CONFIG, s2, WriteCheckpoint(0, MISFILED));
    CallSucceeds(s3, FIRST, 1, OTHER);
    PlainExec(READ_CONFIG, s3, CallSteps(OTHER));
    StaysMisfiled(s3, e);
  }

  lemma WorkingHolds(s: System)
    requires Working(s, Idle, BOTH, 2)
    ensures HoldsLease(s.db, OPERATOR) && s.now == 0
  {
  }

  /** A second call succeeds whose boundary the first call's checkpoint has taken, and recovery fails. */
  lemma MisfiledCheckpointSticks()
    ensures Initial(READ_CONFIG, Start())
    ensures exists steps ::
              var e := Exec(READ_CONFIG, Start(), steps);
              var u := Unit(e.now, 0, HARNESS);
              HoldsLease(e.db, u) && Stuck(READ_CONFIG, e.db, u, e.world) && Prepare(READ_CONFIG, e.db, u, e.world).Err?
  {
    hide Exec, Next, Initial, Prepare, Stuck, AllSteps, OneMisfiled, Start, Ready, WellCheckpointed, Working,
         Uncheckpointed;
    GoesToWork();
    AllStepsEnd();
    var e := Exec(READ_CONFIG, Start(), AllSteps());
    WorkingHolds(e);
    CannotRebuild(e);
    ReachableIsReady(READ_CONFIG, Start(), AllSteps(), OPERATOR);
    var n := StuckRecoveryFails(READ_CONFIG, e.db, OPERATOR, e.world);
    AgainNone(READ_CONFIG, e.db, OPERATOR, e.world);
  }

  lemma StartsAtZero()
    ensures Start().db.run.config == 0 && Start().db.audit != []
  {
  }

  lemma LogGrows(cfg: Config, s: System, steps: seq<Step>)
    requires s.db.audit != []
    ensures Exec(cfg, s, steps).db.audit != []
  {
    hide Exec;
    ExecEvolves(cfg, s, steps);
    EvolvesGrowsLog(s.db, Exec(cfg, s, steps).db);
  }

  lemma StaysMisfiled(s: System, e: System)
    requires OneMisfiled(s) && e.db.checkpoints == s.db.checkpoints && e.world == s.world
    ensures OneMisfiled(e)
  {
  }
}
