/**
  Checkpoints of a run: numbered without gaps, ordered like the run itself, and verifiable for ever.
 */
module Checkpoints {
  import opened Domain
  import opened Wrappers
  import opened StateStore
  import opened Gate
  import opened Recovery
  import opened Protocol
  import opened Budget
  import opened Approvals
  import opened StepEffects
  import Audit

  predicate Numbered(cs: seq<Checkpoint>) {
    forall i :: 0 <= i < |cs| ==> cs[i].sequence == i + 1
  }

  predicate Ordered(cs: seq<Checkpoint>) {
    forall i, j :: 0 <= i < j < |cs| ==>
      cs[i].runRevision < cs[j].runRevision && cs[i].auditSequence < cs[j].auditSequence
  }

  /** Every checkpoint lies strictly in the past of the run and of its log. */
  predicate AllPast(db: Db) {
    && (forall i :: 0 <= i < |db.checkpoints| ==>
          && db.checkpoints[i].runRevision < db.run.revision
          && db.checkpoints[i].auditSequence < |db.audit|)
    && (forall i :: 0 <= i < |db.checkpoints| ==> db.checkpoints[i].id < db.nextId)
    && (db.run.lastCheckpoint.Some? ==> db.run.lastCheckpoint.value < db.nextId)
  }

  ghost predicate AllVerify(db: Db) {
    forall i :: 0 <= i < |db.checkpoints| ==> CheckpointVerifies(db, db.checkpoints[i])
  }

  ghost predicate WellCheckpointed(db: Db) {
    && db.audit != [] && Chained(db.audit)
    && Numbered(db.checkpoints) && Ordered(db.checkpoints) && AllPast(db) && AllVerify(db)
  }

  /** What a checkpoint refers to never goes away. */
  lemma VerifiesLater(a: Db, b: Db, c: Checkpoint)
    requires Evolves(a, b) && CheckpointVerifies(a, c)
    ensures CheckpointVerifies(b, c)
  {
    var i :| 0 <= i < |a.audit| && a.audit[i].sequence == c.auditSequence && a.audit[i].hash == c.auditHash;
    assert b.audit[i] == a.audit[i];
    if c.sequence > 1 {
      var j :| 0 <= j < |a.checkpoints| && a.checkpoints[j].sequence == c.sequence - 1;
      assert b.checkpoints[j] == a.checkpoints[j];
    }
  }

  lemma SameStaysWell(a: Db, b: Db)
    requires Evolves(a, b) && SameCheckpoints(a, b) && WellCheckpointed(a)
    ensures WellCheckpointed(b)
  {
    hide CheckpointVerifies, Chained;
    forall i | 0 <= i < |b.checkpoints| ensures CheckpointVerifies(b, b.checkpoints[i]) {
      VerifiesLater(a, b, b.checkpoints[i]);
    }
  }

  lemma HeadSequence(log: AuditLog)
    requires log != [] && Chained(log)
    ensures log[|log| - 1].sequence == |log|
  {
    assert Audit.LinkOk(log, |log| - 1, Genesis, HashOf);
  }

  lemma NumberedMax(cs: seq<Checkpoint>)
    requires Numbered(cs)
    ensures MaxSequence(cs) == |cs|
  {
    hide MaxSequence;
    if cs != [] {
      assert cs[|cs| - 1].sequence == |cs|;
    }
  }

  /** What writing a checkpoint leaves: one more row, one more revision, one more log entry. */
  predicate Writes(a: Db, b: Db, row: Checkpoint) {
    && b.checkpoints == a.checkpoints + [row]
    && b.run.lastCheckpoint == Some(row.id)
    && b.run.revision == a.run.revision + 1
    && |b.audit| == |a.audit| + 1
    && b.nextId == row.id + 1
    && b.steps == a.steps && b.calls == a.calls && b.approvals == a.approvals && b.evidence == a.evidence
  }

  lemma CreateWrites(cfg: Config, db: Db, u: Unit, b: Boundary, world: World)
    requires WellCheckpointed(db) && CreateCheckpoint(cfg, db, u, b, world).Ok? && FindBoundary(db.checkpoints, b).None?
    ensures Writes(db, CreateCheckpoint(cfg, db, u, b, world).value.db, NewCheckpoint(db, u, b, world))
  {
    hide Quiet, Evolves, Chained, AllVerify, Numbered, Ordered, MaxSequence, BoundaryAllowed, TakeSnapshot;
  }

  lemma NewVerifies(db: Db, b: Db, u: Unit, boundary: Boundary, world: World)
    requires WellCheckpointed(db) && BoundaryAllowed(db, boundary) && Evolves(db, b)
    requires Writes(db, b, NewCheckpoint(db, u, boundary, world))
    ensures CheckpointVerifies(b, NewCheckpoint(db, u, boundary, world))
    ensures NewCheckpoint(db, u, boundary, world).sequence == |db.checkpoints| + 1
    ensures NewCheckpoint(db, u, boundary, world).auditSequence == |db.audit|
  {
    hide MaxSequence, AllVerify, AllPast, Ordered, Chained;
    HeadSequence(db.audit);
    NumberedMax(db.checkpoints);
    assert b.audit[|db.audit| - 1] == db.audit[|db.audit| - 1];
    if db.checkpoints != [] {
      assert b.checkpoints[|db.checkpoints| - 1].sequence == |db.checkpoints|;
    }
  }

  /** Repeating a boundary never succeeds: the log has moved on since its checkpoint was written. */
  lemma RepeatedBoundaryConflicts(cfg: Config, db: Db, u: Unit, b: Boundary, world: World)
    requires WellCheckpointed(db) && FindBoundary(db.checkpoints, b).Some?
    requires HoldsLease(db, u) && db.run.config == cfg.fingerprint && BoundaryAllowed(db, b)
    ensures CreateCheckpoint(cfg, db, u, b, world) == Err(CheckpointSequenceConflict)
  {
    var c := FindBoundary(db.checkpoints, b).value;
    hide Quiet, Evolves, WellCheckpointed, BoundaryAllowed, FindBoundary, TakeSnapshot;
    PastSnapshotDiffers(db, c, u, world);
    assert db.audit != [] by { WellHasLog(db); }
  }

  lemma WellHasLog(db: Db)
    requires WellCheckpointed(db)
    ensures db.audit != []
  {
  }

  lemma PastSnapshotDiffers(db: Db, c: Checkpoint, u: Unit, world: World)
    requires WellCheckpointed(db) && c in db.checkpoints
    ensures c.snapshot != TakeSnapshot(db, u, world)
  {
    hide Numbered, Ordered, Chained;
    HeadSequence(db.audit);
    var i :| 0 <= i < |db.checkpoints| && db.checkpoints[i] == c;
    assert CheckpointVerifies(db, db.checkpoints[i]);
  }

  lemma WritesStaysWell(a: Db, b: Db, row: Checkpoint)
    requires WellCheckpointed(a) && Writes(a, b, row)
    requires row.sequence == |a.checkpoints| + 1 && row.auditSequence == |a.audit|
    requires row.runRevision == a.run.revision && row.id == a.nextId
    requires Chained(b.audit) && AllVerify(b)
    ensures WellCheckpointed(b)
  {
    hide AllVerify, Chained;
  }

  lemma AllVerifyLater(a: Db, b: Db, row: Checkpoint)
    requires Evolves(a, b) && AllVerify(a) && b.checkpoints == a.checkpoints + [row] && CheckpointVerifies(b, row)
    ensures AllVerify(b)
  {
    hide CheckpointVerifies, Evolves;
    forall i | 0 <= i < |b.checkpoints| ensures CheckpointVerifies(b, b.checkpoints[i]) {
      if i < |a.checkpoints| {
        VerifiesLater(a, b, a.checkpoints[i]);
      }
    }
  }

  lemma CreateStaysWell(cfg: Config, db: Db, u: Unit, boundary: Boundary, world: World)
    requires WellCheckpointed(db) && CreateCheckpoint(cfg, db, u, boundary, world).Ok?
    ensures WellCheckpointed(CreateCheckpoint(cfg, db, u, boundary, world).value.db)
  {
    var b := CreateCheckpoint(cfg, db, u, boundary, world).value.db;
    QuietIsEvolves(db);
    hide Quiet, Evolves, CreateCheckpoint, CheckpointVerifies, Chained, NewCheckpoint, BoundaryAllowed, AllVerify,
         AllPast, Numbered, Ordered, Writes;
    if FindBoundary(db.checkpoints, boundary).Some? {
      CreateRefuses(cfg, db, u, boundary, world);
    } else {
      var row := NewCheckpoint(db, u, boundary, world);
      CreateWrites(cfg, db, u, boundary, world);
      NewVerifies(db, b, u, boundary, world);
      NewRevision(db, u, boundary, world);
      WritesAppends(db, b, row);
      AllVerifyLater(db, b, row);
      EvolvesChained(db, b);
      WritesStaysWell(db, b, row);
    }
  }

  lemma WritesAppends(a: Db, b: Db, row: Checkpoint)
    requires Writes(a, b, row)
    ensures b.checkpoints == a.checkpoints + [row]
  {
  }

  lemma CreateRefuses(cfg: Config, db: Db, u: Unit, b: Boundary, world: World)
    requires WellCheckpointed(db) && FindBoundary(db.checkpoints, b).Some? && CreateCheckpoint(cfg, db, u, b, world).Ok?
    ensures CreateCheckpoint(cfg, db, u, b, world).value.db == db
  {
    hide Quiet, Evolves, BoundaryAllowed, WellCheckpointed;
  }

  lemma NewRevision(db: Db, u: Unit, boundary: Boundary, world: World)
    requires db.audit != []
    ensures NewCheckpoint(db, u, boundary, world).runRevision == db.run.revision
    ensures NewCheckpoint(db, u, boundary, world).id == db.nextId
  {
  }

  lemma EvolvesChained(a: Db, b: Db)
    requires Evolves(a, b) && Chained(a.audit)
    ensures Chained(b.audit)
  {
    hide Chained;
  }

  lemma AddingStaysWell(cfg: Config, a: Db, b: Db, u: Unit, world: World, filed: bool)
    requires WellCheckpointed(a) && AddsCheckpoint(cfg, a, b, u, world, filed)
    ensures WellCheckpointed(b)
  {
    hide WellCheckpointed, CreateCheckpoint, Evolves;
    var mid, boundary :|
      && (filed ==> RefersToCall(boundary))
      && SameCheckpoints(a, mid) && Evolves(a, mid)
      && CreateCheckpoint(cfg, mid, u, boundary, world).Ok?
      && SameCheckpoints(CreateCheckpoint(cfg, mid, u, boundary, world).value.db, b)
      && Evolves(CreateCheckpoint(cfg, mid, u, boundary, world).value.db, b);
    SameStaysWell(a, mid);
    CreateStaysWell(cfg, mid, u, boundary, world);
    SameStaysWell(CreateCheckpoint(cfg, mid, u, boundary, world).value.db, b);
  }

  lemma StoreStaysWell(cfg: Config, s: System, step: Step)
    requires WellCheckpointed(s.db) && StoreStep(cfg, s, step).Ok?
    ensures WellCheckpointed(StoreStep(cfg, s, step).value)
  {
    var b := StoreStep(cfg, s, step).value;
    QuietIsEvolves(s.db);
    hide WellCheckpointed, Evolves, Quiet, AddsCheckpoint;
    if step.Charge? {
      hide RecordBudgetDelta;
      ChargeKeepsBalance(s.db, Unit(s.now, step.token, HARNESS), step.key, step.delta, s.db.run.revision,
          s.db.run.used);
      SameStaysWell(s.db, b);
    } else {
      hide StoreStep;
      if step.WriteCheckpoint? || step.Recover? {
        ServiceBudget(cfg, s, step);
        if SameCheckpoints(s.db, b) {
          SameStaysWell(s.db, b);
        } else {
          AddingStaysWell(cfg, s.db, b, Unit(s.now, step.token, HARNESS), s.world, FilesWell(step));
        }
      } else {
        StoreBudget(cfg, s, step);
        SameStaysWell(s.db, b);
      }
    }
  }

  lemma WellNext(cfg: Config, s: System, step: Step)
    requires WellCheckpointed(s.db)
    ensures WellCheckpointed(Next(cfg, s, step).db)
  {
    hide WellCheckpointed, StoreStep, TakeTurn, Evolves, Quiet, KeepsBalance;
    if step.Advance? {
      TurnBalance(cfg, GateOf(s, step.token), s.db, s.now, step.token, step.outcome, s.db.run.used);
      KeepsMeansSame(s.db, Next(cfg, s, step).db, s.db.run.used);
      TurnEvolves(cfg, GateOf(s, step.token), s.db, s.now, step.token, step.outcome);
      SameStaysWell(s.db, Next(cfg, s, step).db);
    } else if StoreStep(cfg, s, step).Ok? {
      StoreStaysWell(cfg, s, step);
    }
  }

  lemma KeepsMeansSame(a: Db, b: Db, start: Usage)
    requires KeepsBalance(a, b, start)
    ensures SameCheckpoints(a, b)
  {
  }

  lemma {:induction false} WellExec(cfg: Config, s: System, steps: seq<Step>)
    requires WellCheckpointed(s.db)
    ensures WellCheckpointed(Exec(cfg, s, steps).db)
    decreases |steps|
  {
    hide WellCheckpointed, Next;
    if steps != [] {
      WellNext(cfg, s, steps[0]);
      WellExec(cfg, Next(cfg, s, steps[0]), steps[1..]);
    }
  }

  /**
    In every run the checkpoints are numbered 1 to n, their run revisions and audit positions grow
    with their numbers, the audit chain is intact, and every checkpoint that was ever written still
    passes verification in every later state.
   */
  lemma CheckpointsStayVerifiable(cfg: Config, s: System, steps: seq<Step>, more: seq<Step>)
    requires Initial(cfg, s)
    ensures var early, late := Exec(cfg, s, steps).db, Exec(cfg, s, steps + more).db;
            && Numbered(late.checkpoints) && Ordered(late.checkpoints) && Chained(late.audit)
            && early.checkpoints <= late.checkpoints
            && forall c :: c in early.checkpoints ==> CheckpointVerifies(late, c)
  {
    hide Exec, CheckpointVerifies, Chained;
    WellExec(cfg, s, steps + more);
    ExecSplits(cfg, s, steps, more);
    ExecEvolves(cfg, Exec(cfg, s, steps), more);
    var early, late := Exec(cfg, s, steps).db, Exec(cfg, s, steps + more).db;
    assert early.checkpoints <= late.checkpoints;
    forall c | c in early.checkpoints ensures CheckpointVerifies(late, c) {
      var i :| 0 <= i < |early.checkpoints| && early.checkpoints[i] == c;
      assert late.checkpoints[i] == c;
    }
  }
}
