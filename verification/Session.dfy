/**
  The Gate and the recovery service of one lease holder, at work on the rows that everybody shares.

  What is proved of all runs holds of these objects because of `Valid`: the rows are those of a
  state that a run reaches.  Other lease holders, approvers and crashes act between the calls; the
  caller hands in the state they have left behind as a ghost.
 */
module Session {
  import opened Domain
  import opened Wrappers
  import opened Database
  import opened GateService
  import opened CheckpointService
  import Gate
  import Recovery
  import Protocol
  import Execution
  import Approvals
  import RecoveryPlans

  ghost predicate Reachable(cfg: Config, s: Protocol.System) {
    exists start, steps :: Protocol.Initial(cfg, start) && Protocol.Exec(cfg, start, steps) == s
  }

  lemma ReachesNext(cfg: Config, s: Protocol.System, step: Protocol.Step)
    requires Reachable(cfg, s)
    ensures Reachable(cfg, Protocol.Next(cfg, s, step))
  {
    hide Protocol.Next, Protocol.Initial;
    var start, steps :| Protocol.Initial(cfg, start) && Protocol.Exec(cfg, start, steps) == s;
    Protocol.ExecSplits(cfg, start, steps, [step]);
    assert [step][1..] == [];
    assert Protocol.Exec(cfg, s, [step]) == Protocol.Next(cfg, s, step);
    assert Protocol.Exec(cfg, start, steps + [step]) == Protocol.Next(cfg, s, step);
  }

  lemma RanOnce(cfg: Config, s: Protocol.System)
    requires Reachable(cfg, s)
    ensures Execution.NoDuplicates(s.executed)
  {
    hide Protocol.Initial, Protocol.Exec;
    var start, steps :| Protocol.Initial(cfg, start) && Protocol.Exec(cfg, start, steps) == s;
    Execution.AtMostOnce(cfg, start, steps);
  }

  /** A handler of a tool that needs approval runs under a grant and a claim for its own call. */
  lemma RanApproved(cfg: Config, s: Protocol.System, c: CallId)
    requires Reachable(cfg, s) && c in s.executed
    ensures c in s.db.calls
    ensures Approvals.Guarded(cfg, s.db.calls[c].tool) ==>
              c in s.db.approvals && Approvals.Authorized(s.db.audit, s.db.approvals[c], c)
  {
    hide Protocol.Initial, Protocol.Exec, Approvals.Guarded, Approvals.BoundTo, Approvals.Authorized;
    var start, steps :| Protocol.Initial(cfg, start) && Protocol.Exec(cfg, start, steps) == s;
    Execution.AtMostOnce(cfg, start, steps);
    Approvals.NoUnapprovedExecution(cfg, start, steps, c);
  }

  class Session {
    const cfg: Config
    const token: Token
    const store: Database
    const gates: GateService
    const recovery: CheckpointService

    constructor (cfg: Config, token: Token, store: Database)
      ensures this.cfg == cfg && this.token == token && this.store == store && gates.gate == Gate.Idle && Wired()
      ensures fresh(gates) && fresh(recovery)
    {
      this.cfg, this.token, this.store := cfg, token, store;
      gates := new GateService(store);
      recovery := new CheckpointService(store, cfg);
    }

    predicate Wired() {
      gates.store == store && recovery.store == store && recovery.cfg == cfg
    }

    /** These objects are what this lease holder sees of `s`, a state that some run reaches. */
    ghost predicate Valid(s: Protocol.System)
      reads store, gates
    {
      Wired() && Reachable(cfg, s) && s.db == store.View() && Protocol.GateOf(s, token) == gates.gate
    }

    /** A turn is a step of the run, and a handler that it runs has never run before. */
    method Turn(outcome: Gate.Outcome, ghost s: Protocol.System, now: Time)
        returns (ran: Option<CallId>, ghost after: Protocol.System)
      requires Valid(s) && s.now == now
      modifies store, gates
      ensures after == Protocol.Next(cfg, s, Protocol.Advance(token, outcome)) && Valid(after)
      ensures after.executed == if ran.Some? then s.executed + [ran.value] else s.executed
      ensures ran.Some? ==> ran.value !in s.executed
      ensures ran.Some? ==>
                && ran.value in after.db.calls
                && (Approvals.Guarded(cfg, after.db.calls[ran.value].tool) ==>
                      ran.value in after.db.approvals
                      && Approvals.Authorized(after.db.audit, after.db.approvals[ran.value], ran.value))
    {
      hide Gate.TakeTurn, Reachable, Approvals.Guarded, Approvals.Authorized;
      after := Protocol.Next(cfg, s, Protocol.Advance(token, outcome));
      ran := gates.Turn(cfg, now, token, outcome);
      ReachesNext(cfg, s, Protocol.Advance(token, outcome));
      RanOnce(cfg, after);
      if ran.Some? {
        assert after.executed[|s.executed|] == ran.value;
        assert forall i :: 0 <= i < |s.executed| ==> after.executed[i] == s.executed[i];
        RanApproved(cfg, after, ran.value);
      }
    }

    /** Recovery is a step of the run: it stores the plan it returns, or leaves everything as it was. */
    method PrepareRecovery(world: Recovery.World, ghost s: Protocol.System, now: Time)
      returns (r: Result<RecoveryPlan>, ghost after: Protocol.System)
      requires Valid(s) && s.now == now && s.world == world
      modifies store
      ensures after == Protocol.Next(cfg, s, Protocol.Recover(token)) && Valid(after)
      ensures r.Err? ==> after.db == s.db
      ensures r.Ok? ==> RecoveryPlans.PlanCoherent(r.value.key)
    {
      hide Recovery.Prepare, Reachable, RecoveryPlans.PlanCoherent;
      after := Protocol.Next(cfg, s, Protocol.Recover(token));
      r := recovery.PrepareRecovery(Unit(now, token, Protocol.HARNESS), world);
      ReachesNext(cfg, s, Protocol.Recover(token));
      if r.Ok? {
        CoherentPlan(cfg, s, Unit(now, token, Protocol.HARNESS), world);
      }
    }
  }

  lemma CoherentPlan(cfg: Config, s: Protocol.System, u: Unit, world: Recovery.World)
    requires Reachable(cfg, s) && Recovery.Prepare(cfg, s.db, u, world).Ok?
    ensures RecoveryPlans.PlanCoherent(Recovery.Prepare(cfg, s.db, u, world).value.plan.key)
  {
    hide Protocol.Exec, Recovery.Prepare, RecoveryPlans.PlanCoherent, Filed;
    var start, steps :| Protocol.Initial(cfg, start) && Protocol.Exec(cfg, start, steps) == s;
    RecoveryPlans.InitialOutstanding(cfg, start);
    RecoveryPlans.FiledExec(cfg, start, steps);
    RecoveryPlans.PlansAreSafe(cfg, s.db, u, world);
  }
}
