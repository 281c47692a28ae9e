/**
  The whole system: one run's database, one Gate per lease token, the approvers, the recovery
  service and the rest of the harness, a clock and a working tree, interleaved transaction by
  transaction.  A step that fails leaves the database as it was.
 */
module Protocol {
  import opened Domain
  import opened Wrappers
  import opened StateStore
  import opened ApprovalStore
  import opened Gate
  import opened Recovery

  datatype System = System(
    db: Db,
    gates: map<Token, Gate>,      // a token without an entry has an idle Gate
    executed: seq<CallId>,        // every handler run so far, in order
    now: Time,
    world: World)

  function GateOf(s: System, t: Token): Gate {
    if t in s.gates then s.gates[t] else Idle
  }

  datatype Step =
    | Tick(seconds: nat)
    | ChangeWorld(world: World)
    | Submit(token: Token, entry: Gate)
    | Advance(token: Token, outcome: Outcome)
    | Crash(token: Token)
    | Acquire(owner: Actor, ttl: nat)
    | Renew(token: Token, ttl: nat)
    | Release(token: Token)
    | MoveRun(token: Token, target: RunStatus, stop: Option<StopReason>, acceptance: Option<Acceptance>)
    | PlanStep(token: Token, step: nat)
    | WriteNote(token: Token)
    | Charge(token: Token, key: LedgerKey, delta: nat)
    | RecordFact(token: Token, fact: Evidence)
    | DropFact(token: Token, id: nat)
    | DecideApproval(token: Token, actor: Actor, call: CallId, revision: nat, roles: set<Role>, grant: bool)
    | LoadApproval(token: Token, call: CallId)
    | ExpireApprovals(token: Token)
    | WithdrawApproval(token: Token, call: CallId, revision: nat)
    | WriteCheckpoint(token: Token, boundary: Boundary)
    | Recover(token: Token)

  /** The three ways into a Gate: `invoke`, `reenter_prepared` and the internal verifier calls. */
  predicate EntersGate(g: Gate) {
    g.Snapshotting? || g.Loading? || g.SnapshottingInternal?
  }

  /** Run transitions that the harness makes itself; the Gate and the approvals own the others. */
  predicate HarnessMove(a: RunStatus, b: RunStatus) {
    && RunMoveAllowed(a, b)
    && !(a.Running? && b.WaitingApproval?)
    && !(a.WaitingApproval? && b.Running?)
  }

  const HARNESS: Actor := "harness"

  /** A step made by anyone but a Gate, as one transaction. */
  ghost function StoreStep(cfg: Config, s: System, step: Step): (r: Result<Db>)
    ensures r.Ok? ==> Quiet(s.db, r.value)
  {
    match step
    case Acquire(owner, ttl) => AcquireLease(s.db, Unit(s.now, 0, owner), ttl)
    case Renew(t, ttl) => RenewLease(s.db, Unit(s.now, t, HARNESS), ttl)
    case Release(t) => ReleaseLease(s.db, Unit(s.now, t, HARNESS))
    case MoveRun(t, target, stop, acceptance) =>
      if !HarnessMove(s.db.run.status, target) then Err(StateInvalidTransition)
      else TransitionRun(s.db, Unit(s.now, t, HARNESS), s.db.run.status, s.db.run.revision, target, stop, acceptance)
    case PlanStep(t, n) => CreateStep(s.db, Unit(s.now, t, HARNESS), n, s.db.run.revision)
    case WriteNote(t) => Note(s.db, Unit(s.now, t, HARNESS))
    case Charge(t, key, delta) => RecordBudgetDelta(s.db, Unit(s.now, t, HARNESS), key, delta, s.db.run.revision)
    case RecordFact(t, fact) => AddEvidence(s.db, Unit(s.now, t, HARNESS), fact)
    case DropFact(t, id) => InvalidateEvidence(s.db, Unit(s.now, t, HARNESS), id)
    case DecideApproval(t, actor, c, revision, roles, grant) => Decide(s.db, Unit(s.now, t, actor), c, revision, actor,
        roles, grant)
    case LoadApproval(t, c) => Load(s.db, Unit(s.now, t, HARNESS), c)
    case ExpireApprovals(t) => ExpireDue(s.db, Unit(s.now, t, HARNESS))
    case WithdrawApproval(t, c, revision) => Invalidate(s.db, Unit(s.now, t, HARNESS), c, revision)
    case WriteCheckpoint(t, b) =>
      var written :- CreateCheckpoint(cfg, s.db, Unit(s.now, t, HARNESS), b, s.world);
      Ok(written.db)
    case Recover(t) =>
      var planned :- Prepare(cfg, s.db, Unit(s.now, t, HARNESS), s.world);
      Ok(planned.db)
    case _ => Ok(s.db)
  }

  ghost function Next(cfg: Config, s: System, step: Step): System {
    match step
    case Tick(n) => s.(now := s.now + n)
    case ChangeWorld(w) => s.(world := w)
    case Submit(t, entry) =>
      if t < s.db.nextToken && GateOf(s, t).Idle? && EntersGate(entry) then s.(gates := s.gates[t := entry]) else s
    case Crash(t) => s.(gates := s.gates[t := Idle])
    case Advance(t, outcome) =>
      var turn := TakeTurn(cfg, GateOf(s, t), s.db, s.now, t, outcome);
      s.(db := turn.db, gates := s.gates[t := turn.gate],
         executed := if turn.ran.Some? then s.executed + [turn.ran.value] else s.executed)
    case _ =>
      var r := StoreStep(cfg, s, step);
      if r.Ok? then s.(db := r.value) else s
  }

  ghost function Exec(cfg: Config, s: System, steps: seq<Step>): System
    decreases |steps|
  {
    if steps == [] then s else Exec(cfg, Next(cfg, s, steps[0]), steps[1..])
  }

  /** What `create_run` leaves behind: a NEW run with its first lease and nothing else. */
  ghost predicate Initial(cfg: Config, s: System) {
    && ValidConfig(cfg)
    && s.db.run.status.New?
    && (forall k :: s.db.run.used.Get(k) <= s.db.run.limits.Get(k))
    && s.db.steps == {} && s.db.calls == map[] && s.db.approvals == map[] && s.db.ledger == map[]
    && s.db.evidence == map[] && s.db.checkpoints == [] && s.db.recoveries == map[]
    && s.db.audit != [] && Chained(s.db.audit)
    && (s.db.lease.Some? ==> s.db.lease.value.token < s.db.nextToken)
    && (s.db.run.lastCheckpoint.Some? ==> s.db.run.lastCheckpoint.value < s.db.nextId)
    && s.gates == map[] && s.executed == []
  }

  // ---------- every step, seen from the database ----------

  /** A turn that starts `c`: nothing else changes status, and the token was current. */
  ghost predicate StartsCall(a: Db, b: Db, t: Token, c: CallId) {
    && Evolves(a, b)
    && a.lease.Some? && a.lease.value.token == t && b.lease == a.lease
    && c in a.calls && a.calls[c].status.Prepared?
    && c in b.calls && b.calls[c].status.Started?
    && b.calls == a.calls[c := b.calls[c]]
    && b.approvals == a.approvals && b.run == a.run.(revision := b.run.revision) && b.ledger == a.ledger
  }

  lemma StartingTurn(cfg: Config, gate: Gate, db: Db, now: Time, t: Token, outcome: Outcome)
    requires gate.Starting?
    ensures var turn := TakeTurn(cfg, gate, db, now, t, outcome);
            && turn.ran.None?
            && if turn.gate.Executing?
               then turn.gate == Executing(gate.pass) && StartsCall(db, turn.db, t, gate.pass.req.call)
               else turn.gate.Denying? && turn.db == db
  {
  }

  lemma OtherTurn(cfg: Config, gate: Gate, db: Db, now: Time, t: Token, outcome: Outcome)
    requires !gate.Starting?
    ensures var turn := TakeTurn(cfg, gate, db, now, t, outcome);
            && Quiet(db, turn.db)
            && !turn.gate.Executing?
            && (turn.ran.Some? <==> gate.Executing?)
            && (gate.Idle? ==> turn == Turn(Idle, db, None))
            && (gate.Executing? ==> turn.db == db && turn.ran == Some(gate.pass.req.call))
  {
    hide Quiet, OpenApproval, PollApproval, ClaimAndAllow, PrepareAndAllow, RecordRecoveryAllow, ResumeOrClaim,
         PersistResult, LogDenial;
    QuietReflexive(db);
    if gate.OpeningApproval? {
      OpenApprovalQuiet(cfg, db, Unit(now, t, gate.pass.req.actor), gate.pass, gate.existing);
    }
  }

  lemma NextEvolves(cfg: Config, s: System, step: Step)
    ensures Evolves(s.db, Next(cfg, s, step).db)
  {
    hide Quiet, Evolves, StoreStep, TakeTurn, StartsCall;
    QuietReflexive(s.db);
    QuietIsEvolves(s.db);
    if step.Advance? {
      var gate := GateOf(s, step.token);
      if gate.Starting? {
        StartingTurn(cfg, gate, s.db, s.now, step.token, step.outcome);
        StartIsEvolves(s.db, Next(cfg, s, step).db, step.token, gate.pass.req.call);
      } else {
        OtherTurn(cfg, gate, s.db, s.now, step.token, step.outcome);
      }
    }
  }

  lemma StartIsEvolves(a: Db, b: Db, t: Token, c: CallId)
    ensures StartsCall(a, b, t, c) ==> Evolves(a, b)
  {
    hide Evolves;
  }

  lemma QuietIsEvolves(a: Db)
    ensures forall b :: Quiet(a, b) ==> Evolves(a, b)
  {
  }

  lemma {:induction false} ExecEvolves(cfg: Config, s: System, steps: seq<Step>)
    ensures Evolves(s.db, Exec(cfg, s, steps).db)
    decreases |steps|
  {
    if steps == [] {
      QuietReflexive(s.db);
    } else {
      var next := Next(cfg, s, steps[0]);
      NextEvolves(cfg, s, steps[0]);
      ExecEvolves(cfg, next, steps[1..]);
      EvolvesTransitive(s.db, next.db, Exec(cfg, next, steps[1..]).db);
    }
  }

  /** A run of a run: what follows a prefix starts from where the prefix ended. */
  lemma {:induction false} ExecSplits(cfg: Config, s: System, a: seq<Step>, b: seq<Step>)
    ensures Exec(cfg, s, a + b) == Exec(cfg, Exec(cfg, s, a), b)
    decreases |a|
  {
    if a == [] {
      assert a + b == b;
    } else {
      assert (a + b)[1..] == a[1..] + b;
      ExecSplits(cfg, Next(cfg, s, a[0]), a[1..], b);
    }
  }
}
