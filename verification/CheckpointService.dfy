/**
  Checkpoints and recovery at work on the database.
 */
module CheckpointService {
  import opened Domain
  import opened Wrappers
  import opened Database
  import Audit
  import StateStore
  import ApprovalStore
  import Recovery

  class CheckpointService {
    const store: Database
    const cfg: Config

    constructor (store: Database, cfg: Config)
      ensures this.store == store && this.cfg == cfg
    {
      this.store := store;
      this.cfg := cfg;
    }

    /** The rows and the answer are those of `spec`. */
    predicate Plans(r: Result<RecoveryPlan>, spec: Result<Recovery.Planned>)
      reads store
    {
      if spec.Ok? then r == Ok(spec.value.plan) && store.View() == spec.value.db else r == Err(spec.code)
    }

    /** `_create_checkpoint_in_unit`. */
    method CreateCheckpoint(u: Unit, b: Boundary, world: Recovery.World) returns (r: Result<Checkpoint>)
      modifies store
      ensures var spec := Recovery.CreateCheckpoint(cfg, old(store.View()), u, b, world);
              if spec.Ok? then r == Ok(spec.value.checkpoint) && store.View() == spec.value.db else r == Err(spec.code)
    {
      hide Quiet, Evolves, StateStore.MarkCheckpointWritten, Recovery.TakeSnapshot, Recovery.BoundaryAllowed,
           Recovery.FindBoundary, Recovery.MaxSequence;
      var held := store.VerifyLease(u);
      if held.Failure? {
        return Err(held.code);
      }
      if store.run.config != cfg.fingerprint {
        return Err(RecoveryConfigMismatch);
      }
      if !Recovery.BoundaryAllowed(store.View(), b) || store.audit == [] {
        return Err(CheckpointInvalid);
      }
      var snapshot := Recovery.TakeSnapshot(store.View(), u, world);
      var existing := Recovery.FindBoundary(store.checkpoints, b);
      if existing.Some? {
        if existing.value.snapshot != snapshot {
          return Err(CheckpointSequenceConflict);
        }
        return Ok(existing.value);
      }
      var head := store.audit[|store.audit| - 1];
      var row := Checkpoint(store.nextId, Recovery.MaxSequence(store.checkpoints) + 1, b, store.run.revision,
                            head.sequence, head.hash, snapshot, u.now);
      store.checkpoints := store.checkpoints + [row];
      store.nextId := row.id + 1;
      var marked := store.MarkCheckpointWritten(u, row.id);
      if marked.Failure? {
        return Err(marked.code);
      }
      return Ok(row);
    }

    /** `_record_plan`: the stored decision, or this one once it is stored. */
    method RecordPlan(u: Unit, key: RecoveryKey) returns (plan: RecoveryPlan)
      modifies store
      ensures Recovery.Planned(store.View(), plan) == Recovery.RecordPlan(old(store.View()), u, key)
    {
      hide Quiet, Evolves, StateStore.Log;
      if key in store.recoveries {
        return store.recoveries[key];
      }
      plan := RecoveryPlan(store.nextId, key, u.now);
      store.recoveries := store.recoveries[key := plan];
      store.nextId := plan.id + 1;
      store.AppendEvent(u, RecoveryRecorded(plan.id));
    }

    /** `_block_recovery` up to its record: every approval that could still be used is withdrawn, then the run ends. */
    method BlockRecovery(u: Unit, stop: StopReason) returns (r: Done)
      modifies store
      ensures store.Follows(r, Recovery.BlockRecovery(old(store.View()), u, stop))
    {
      hide Quiet, Evolves, ApprovalStore.Invalidate, StateStore.TransitionRun, Recovery.Withdrawable;
      var usable := Recovery.Withdrawable(store.View());
      ghost var whole := Recovery.WithdrawEach(store.View(), u, usable);
      while usable != {}
        invariant whole == Recovery.WithdrawEach(store.View(), u, usable)
        decreases |usable|
      {
        if !(usable <= store.approvals.Keys) {
          return Failure(ApprovalNotFound);
        }
        var c := ApprovalStore.Earliest(usable, ApprovalStore.RequestTimes(store.approvals));
        :- store.Invalidate(u, c, store.approvals[c].revision);
        usable := usable - {c};
      }
      if store.run.status.Running? || store.run.status.WaitingApproval? {
        r := store.TransitionRun(u, store.run.status, store.run.revision, Blocked, Some(stop), Some(NotEvaluated));
        return;
      }
      return Success;
    }

    method BlockAndRecord(u: Unit, action: RecoveryAction, stop: StopReason, reason: Option<ErrorCode>,
                          call: Option<CallId>, approval: Option<nat>) returns (r: Result<RecoveryPlan>)
      modifies store
      ensures Plans(r, Recovery.BlockAndRecord(old(store.View()), u, action, stop, reason, call, approval))
    {
      hide Quiet, Evolves, Recovery.BlockRecovery, Recovery.RecordPlan, Recovery.KeyFor;
      var blocked := BlockRecovery(u, stop);
      if blocked.Failure? {
        return Err(blocked.code);
      }
      var plan := RecordPlan(u, Recovery.KeyFor(store.View(), store.run.lastCheckpoint, action, NeedsReview, reason,
          call, approval));
      return Ok(plan);
    }

    /** `_validate_evidence_versions`, with the expiry sweep before it. */
    method Refresh(u: Unit, world: Recovery.World) returns (r: Done)
      modifies store
      ensures store.Follows(r, Recovery.Refresh(old(store.View()), u, world))
    {
      hide Quiet, Evolves, ApprovalStore.ExpireDue, StateStore.InvalidateEvidence, Recovery.StaleIds;
      :- store.ExpireDue(u);
      if store.run.status.Completed? || store.run.status.Stopped? || store.run.status.Failed? {
        return Success;
      }
      var stale := Recovery.StaleIds(store.View(), world);
      ghost var whole := Recovery.InvalidateEach(store.View(), u, stale);
      while stale != {}
        invariant whole == Recovery.InvalidateEach(store.View(), u, stale)
        decreases |stale|
      {
        if !(stale <= store.evidence.Keys) {
          return Failure(StateNotFound);
        }
        var e := ApprovalStore.Earliest(stale, Recovery.RecordTimes(store.evidence));
        :- store.InvalidateEvidence(u, e);
        stale := stale - {e};
      }
      return Success;
    }

    method CarryOut(u: Unit, world: Recovery.World, v: Recovery.Verdict) returns (r: Result<RecoveryPlan>)
      modifies store
      ensures Plans(r, Recovery.CarryOut(cfg, old(store.View()), u, world, v))
    {
      hide Quiet, Evolves, Recovery.BlockAndRecord, Recovery.RecordPlan, Recovery.KeyFor, Recovery.CreateCheckpoint,
           StateStore.TransitionInvocation;
      match v
      case Record(action, status, reason, call, approval) =>
        var plan := RecordPlan(u, Recovery.KeyFor(store.View(), store.run.lastCheckpoint, action, status, reason, call,
            approval));
        return Ok(plan);
      case Block(action, stop, reason, call, approval) =>
        r := BlockAndRecord(u, action, stop, reason, call, approval);
      case MarkUnknown(c) =>
        if c !in store.calls {
          return Err(StateNotFound);
        }
        var marked := store.TransitionInvocation(u, c, InvocationStatus.Started, store.calls[c].revision,
                                                 InvocationStatus.UnknownResult, Some(ResultUnknown));
        if marked.Failure? {
          return Err(marked.code);
        }
        r := BlockAndRecord(u, MarkUnknownResult, StopReason.UnknownResult, Some(RecoveryManualReviewRequired), Some(c),
            None);
      case Rebuild(c) =>
        if c !in store.calls {
          return Err(StateNotFound);
        }
        var approval := store.calls[c].approval;
        var rebuilt := CreateCheckpoint(u, Recovery.RebuildBoundary(store.View(), c), world);
        if rebuilt.Err? {
          return Err(rebuilt.code);
        }
        var plan := RecordPlan(u, Recovery.KeyFor(store.View(), Some(rebuilt.value.id), RebuildCheckpointThenContinue,
            Resumable,
                                                  None, Some(c), approval));
        return Ok(plan);
    }

    method PrepareInUnit(u: Unit, world: Recovery.World) returns (r: Result<RecoveryPlan>)
      modifies store
      ensures Plans(r, Recovery.Prepare(cfg, old(store.View()), u, world))
    {
      hide Quiet, Evolves, Recovery.Triage, Recovery.CarryOut, Recovery.Refresh, Recovery.JudgeRefreshed;
      var held := store.VerifyLease(u);
      if held.Failure? {
        return Err(held.code);
      }
      var chain := Audit.VerifyLog(store.audit, Genesis, HashOf);
      if !chain.Intact? {
        return Err(RecoveryAuditInvalid);
      }
      var early := Recovery.Triage(cfg, store.View(), world);
      if early.Some? {
        r := CarryOut(u, world, early.value);
        return;
      }
      var refreshed := Refresh(u, world);
      if refreshed.Failure? {
        return Err(refreshed.code);
      }
      r := CarryOut(u, world, Recovery.JudgeRefreshed(store.View(), world));
    }

    /** `prepare_recovery`: one transaction; an error leaves no trace. */
    method PrepareRecovery(u: Unit, world: Recovery.World) returns (r: Result<RecoveryPlan>)
      modifies store
      ensures Plans(r, Recovery.Prepare(cfg, old(store.View()), u, world))
      ensures r.Err? ==> store.View() == old(store.View())
    {
      hide Recovery.Prepare;
      var saved := store.View();
      r := PrepareInUnit(u, world);
      if r.Err? {
        store.Rollback(saved);
      }
    }
  }
}
