/**
  The run waits for an approval exactly while one is outstanding.
 */
module Outstanding {
  import opened Domain
  import opened Wrappers
  import opened StateStore
  import opened ApprovalStore
  import opened Gate
  import opened Recovery
  import opened Protocol
  import opened ApprovalEffects
  import opened StepEffects
  import opened Approvals

  /** PENDING and APPROVED rows. */
  function ActiveCalls(db: Db): set<CallId> {
    set c | c in db.approvals && Active(db.approvals[c].status)
  }

  /** A live run has no outstanding approval unless it waits, and never two. */
  ghost predicate AtMostOne(db: Db) {
    && (db.run.status.New? || db.run.status.Running? || db.run.status.Verifying? ==> ActiveCalls(db) == {})
    && (db.run.status.WaitingApproval? ==> ActiveCalls(db) == {} || exists c :: ActiveCalls(db) == {c})
  }

  /** ... and while it waits there is exactly one. */
  ghost predicate ExactlyOne(db: Db) {
    AtMostOne(db) && (db.run.status.WaitingApproval? ==> ActiveCalls(db) != {})
  }

  lemma SameActive(a: Db, b: Db)
    requires b.approvals == a.approvals
    ensures ActiveCalls(b) == ActiveCalls(a)
  {
  }

  /** One row changes: the others stay as active as they were. */
  lemma OneRowActive(a: Db, b: Db, c: CallId)
    requires c in b.approvals && b.approvals == a.approvals[c := b.approvals[c]]
    ensures ActiveCalls(b) == (if Active(b.approvals[c].status) then ActiveCalls(a) + {c} else ActiveCalls(a) - {c})
  {
  }

  lemma LapsingOutstanding(a: Db, b: Db, now: Time)
    requires Expiry(a, b, now) && AtMostOne(a)
    ensures AtMostOne(b) && (ExactlyOne(a) ==> ExactlyOne(b))
    ensures LiveRun(b.run.status) ==> b.approvals == a.approvals
  {
    if b.approvals == a.approvals {
      SameActive(a, b);
    } else if a.run.status.New? || a.run.status.Running? || a.run.status.Verifying? {
      forall c | c in a.approvals ensures b.approvals[c] == a.approvals[c] {
        assert Due(a.approvals[c], now) ==> c in ActiveCalls(a);
      }
      assert false;
    }
  }

  lemma SettlingOutstanding(a: Db, b: Db)
    requires Settles(a, b) && AtMostOne(a)
    ensures AtMostOne(b) && (ExactlyOne(a) ==> ExactlyOne(b))
  {
    if Passive(a, b) {
      SameActive(a, b);
    } else if !Blocks(a, b) {
      var c, marked :| MarksUnknown(a, marked, c) && Blocks(marked, b);
    }
  }

  lemma RecoveringOutstanding(a: Db, b: Db, now: Time)
    requires Recovers(a, b, now) && AtMostOne(a)
    ensures AtMostOne(b) && (ExactlyOne(a) ==> ExactlyOne(b))
  {
    hide Expiry, Settles, AtMostOne, ExactlyOne;
    var mid :| Expiry(a, mid, now) && Settles(mid, b);
    LapsingOutstanding(a, mid, now);
    SettlingOutstanding(mid, b);
  }

  lemma RowOutstanding(cfg: Config, a: Db, b: Db, now: Time, k: Kind)
    requires Shows(cfg, a, b, now, k) && AtMostOne(a)
    requires k.Opening? || k.Claiming? || k.Deciding?
    ensures AtMostOne(b) && (ExactlyOne(a) ==> ExactlyOne(b))
  {
    hide Evolves, BindingOf, RequiresApproval;
    var c := if k.Opening? then k.pass.req.call else k.call;
    OneRowActive(a, b, c);
    assert k.Opening? ==> ActiveCalls(b) == {c};
    assert !k.Opening? ==> c in ActiveCalls(a);
  }

  lemma ResultOutstanding(a: Db, b: Db, now: Time, pass: Pass)
    requires Persists(a, b, now, pass) && AtMostOne(a)
    ensures AtMostOne(b) && (ExactlyOne(a) ==> ExactlyOne(b))
  {
    if b.approvals == a.approvals {
      SameActive(a, b);
    } else {
      OneRowActive(a, b, pass.req.call);
      assert ActiveCalls(b) == ActiveCalls(a);
    }
  }

  lemma WithdrawingOutstanding(a: Db, b: Db, c: CallId)
    requires WithdrawsRow(a, b, c) && AtMostOne(a)
    ensures AtMostOne(b)
    ensures ExactlyOne(a) ==> (ExactlyOne(b) <==> !(a.run.status.WaitingApproval? && Active(a.approvals[c].status)))
  {
    OneRowActive(a, b, c);
    if Active(a.approvals[c].status) {
      assert c in ActiveCalls(a);
    } else {
      assert ActiveCalls(b) == ActiveCalls(a);
    }
  }

  lemma KindOutstanding(cfg: Config, a: Db, b: Db, now: Time, k: Kind)
    requires Shows(cfg, a, b, now, k) && AtMostOne(a)
    ensures AtMostOne(b)
    ensures !k.Withdrawing? && ExactlyOne(a) ==> ExactlyOne(b)
  {
    hide Evolves, Expiry, Recovers, Persists, Opens, Claims, Decides, WithdrawsRow, ExactlyOne;
    match k
    case Recovering => RecoveringOutstanding(a, b, now);
    case Lapsing => LapsingOutstanding(a, b, now);
    case Result(pass) => ResultOutstanding(a, b, now, pass);
    case Withdrawing(c) => WithdrawingOutstanding(a, b, c);
    case Opening(_, _, _) => RowOutstanding(cfg, a, b, now, k);
    case Claiming(_, _) => RowOutstanding(cfg, a, b, now, k);
    case Deciding(_, _, _, _) => RowOutstanding(cfg, a, b, now, k);
    case RunMove => MoveOutstanding(a, b);
    case Still => StillOutstanding(a, b);
    case Creation(pass) => StillOutstanding(a, b);
    case Starting(t, c) => StillOutstanding(a, b);
  }

  lemma StillOutstanding(a: Db, b: Db)
    requires b.approvals == a.approvals && b.run.status == a.run.status && AtMostOne(a)
    ensures AtMostOne(b) && (ExactlyOne(a) ==> ExactlyOne(b))
  {
    SameActive(a, b);
  }

  lemma MoveOutstanding(a: Db, b: Db)
    requires b.approvals == a.approvals && HarnessMove(a.run.status, b.run.status) && AtMostOne(a)
    ensures AtMostOne(b) && (ExactlyOne(a) ==> ExactlyOne(b))
  {
    SameActive(a, b);
  }

  // ---------- the exact condition ----------

  /** A stand-alone withdrawal of the approval that the run waits for. */
  predicate WithdrawsAwaited(s: System, step: Step) {
    && step.WithdrawApproval?
    && HoldsLease(s.db, Unit(s.now, step.token, HARNESS))
    && s.db.run.status.WaitingApproval?
    && step.call in s.db.approvals
    && var a := s.db.approvals[step.call];
       Active(a.status) && a.revision == step.revision && s.now < a.expiresAt
  }

  lemma WithdrawalSucceeds(db: Db, u: Unit, c: CallId, revision: nat)
    ensures Invalidate(db, u, c, revision).Ok? <==>
              && c in db.approvals && HoldsLease(db, u)
              && var a := db.approvals[c];
                 && !Due(a, u.now) && a.revision == revision
                 && (Active(a.status) || (a.status.Claimed? && c in db.calls && db.calls[c].status.Prepared?))
  {
    hide Quiet, Evolves, Expire;
    if c in db.approvals && Due(db.approvals[c], u.now) && Expire(db, u, c).Ok? {
      ExpireEffect(db, u, c);
    }
  }

  /** A step leaves a waiting run without its approval exactly when it withdraws the one it waits for. */
  lemma OrphansExactly(cfg: Config, s: System, step: Step)
    requires s.db.approvals.Keys <= s.db.calls.Keys && ExactlyOne(s.db)
    ensures AtMostOne(Next(cfg, s, step).db)
    ensures ExactlyOne(Next(cfg, s, step).db) <==> !WithdrawsAwaited(s, step)
  {
    hide Evolves, Quiet, TakeTurn, Invalidate, Shows, ExactlyOne, AtMostOne, Prepare, CreateCheckpoint, Decide;
    assert AtMostOne(s.db) by { ExactlyIsAtMost(s.db); }
    if step.WithdrawApproval? {
      var u := Unit(s.now, step.token, HARNESS);
      WithdrawalSucceeds(s.db, u, step.call, step.revision);
      if Invalidate(s.db, u, step.call, step.revision).Ok? {
        InvalidateEffect(s.db, u, step.call, step.revision);
        WithdrawingOutstanding(s.db, Next(cfg, s, step).db, step.call);
      }
    } else {
      var k := StepKind(cfg, s, step);
      NotWithdrawing(s, step, k);
      KindOutstanding(cfg, s.db, Next(cfg, s, step).db, s.now, k);
    }
  }

  lemma ExactlyIsAtMost(db: Db)
    requires ExactlyOne(db)
    ensures AtMostOne(db)
  {
  }

  lemma NotWithdrawing(s: System, step: Step, k: Kind)
    requires !step.WithdrawApproval?
    requires step.Advance? ==> ComesFrom(k, GateOf(s, step.token))
    requires !step.Advance? ==> ComesFromStore(k, step)
    ensures !k.Withdrawing?
  {
  }

  // ---------- whole runs ----------

  lemma {:induction false} AtMostOneExec(cfg: Config, s: System, steps: seq<Step>)
    requires Governed(cfg, s) && AtMostOne(s.db)
    ensures AtMostOne(Exec(cfg, s, steps).db)
    decreases |steps|
  {
    hide Governed, AtMostOne, Next, Shows, ComesFrom;
    if steps != [] {
      GovernedMeans(cfg, s);
      GovernedNext(cfg, s, steps[0]);
      var k := StepKind(cfg, s, steps[0]);
      KindOutstanding(cfg, s.db, Next(cfg, s, steps[0]).db, s.now, k);
      AtMostOneExec(cfg, Next(cfg, s, steps[0]), steps[1..]);
    }
  }

  lemma {:induction false} ExactlyOneExec(cfg: Config, s: System, steps: seq<Step>)
    requires Governed(cfg, s) && ExactlyOne(s.db)
    requires forall i :: 0 <= i < |steps| ==> !steps[i].WithdrawApproval?
    ensures ExactlyOne(Exec(cfg, s, steps).db)
    decreases |steps|
  {
    hide Governed, ExactlyOne, Next;
    if steps != [] {
      GovernedMeans(cfg, s);
      GovernedNext(cfg, s, steps[0]);
      OrphansExactly(cfg, s, steps[0]);
      ExactlyOneExec(cfg, Next(cfg, s, steps[0]), steps[1..]);
    }
  }

  /** In every run a NEW, RUNNING or VERIFYING run has no outstanding approval, and a waiting one has at most one. */
  lemma NeverTwoOutstanding(cfg: Config, s: System, steps: seq<Step>)
    requires Initial(cfg, s)
    ensures AtMostOne(Exec(cfg, s, steps).db)
  {
    hide Exec;
    InitialGoverned(cfg, s);
    AtMostOneExec(cfg, s, steps);
  }

  /** In every run without stand-alone withdrawals, a waiting run has exactly one outstanding approval. */
  lemma WaitingMeansOneOutstanding(cfg: Config, s: System, steps: seq<Step>)
    requires Initial(cfg, s)
    requires forall i :: 0 <= i < |steps| ==> !steps[i].WithdrawApproval?
    ensures ExactlyOne(Exec(cfg, s, steps).db)
  {
    hide Exec;
    InitialGoverned(cfg, s);
    ExactlyOneExec(cfg, s, steps);
  }

  // ---------- the call a run waits for ----------

  /** `c` has an approval, has not started, and no Gate is about to start it. */
  ghost predicate HeldBack(s: System, c: CallId) {
    && c in s.db.approvals && c in s.db.calls && s.db.calls[c].status.Prepared?
    && forall t: Token :: !StartsNext(GateOf(s, t), c)
  }

  predicate StartsNext(g: Gate, c: CallId) {
    g.Starting? && g.pass.req.call == c
  }

  ghost predicate AwaitsCall(s: System) {
    s.db.run.status.WaitingApproval? ==> exists c :: HeldBack(s, c)
  }

  /** A Gate gets ready to start a call that has an approval only by resuming the run. */
  lemma ReadyMeansRunning(cfg: Config, g: Gate, db: Db, now: Time, t: Token, outcome: Outcome, c: CallId)
    requires RowsOk(cfg, db, now) && LaneOk(cfg, db, g) && c in db.approvals && !g.Starting?
    requires StartsNext(TakeTurn(cfg, g, db, now, t, outcome).gate, c)
    ensures TakeTurn(cfg, g, db, now, t, outcome).db.run.status.Running?
  {
    hide Quiet, Evolves, OpenApproval, PollApproval, ClaimAndAllow, RecordRecoveryAllow, ResumeOrClaim,
         PrepareAndAllow, PersistResult, LogDenial, RequiresApproval, AuthorizedCall, RowsOk, DecideInvoke,
         DecideLoad, DecideReentry, DecideInternal;
    RowsHaveCalls(cfg, db, now);
    if g.ClaimingApproval? {
      ClaimAndAllowEffect(db, Unit(now, t, g.pass.req.actor), g.pass);
    } else if g.ResumingClaim? {
      ResumeOrClaimEffect(db, Unit(now, t, g.pass.req.actor), g.pass);
    } else if g.PreparingCall? {
      PrepareEffect(db, Unit(now, t, g.pass.req.actor), g.pass);
    } else if g.RecordingReentry? {
      assert false;
    } else {
      DecisionsStartNothing(cfg, g, db, now, t, outcome);
    }
  }

  lemma DecisionsStartNothing(cfg: Config, g: Gate, db: Db, now: Time, t: Token, outcome: Outcome)
    requires !(g.Starting? || g.ClaimingApproval? || g.ResumingClaim? || g.PreparingCall? || g.RecordingReentry?)
    ensures !TakeTurn(cfg, g, db, now, t, outcome).gate.Starting?
  {
    hide Quiet, Evolves, OpenApproval, PollApproval, PersistResult, LogDenial, RequiresApproval, RequestFault,
         RepeatFault, WriteReplay, BudgetSpent, RecoveryBudgetSpent, DuplicateCode, ApprovalCode, Equivalent,
         HoldsLease;
  }

  /** The call whose approval opens the wait. */
  lemma OpeningHoldsBack(cfg: Config, s: System, step: Step, k: Kind)
    requires Governed(cfg, s) && Governed(cfg, Next(cfg, s, step)) && k.Opening?
    requires Shows(cfg, s.db, Next(cfg, s, step).db, s.now, k)
    requires step.Advance? && ComesFrom(k, GateOf(s, step.token))
    ensures HeldBack(Next(cfg, s, step), k.pass.req.call)
  {
    hide Evolves, Governed, LaneOk, RequiresApproval, FreshRow, StoreStep, TakeTurn;
    GovernedMeans(cfg, s);
    GovernedMeans(cfg, Next(cfg, s, step));
    var s', c := Next(cfg, s, step), k.pass.req.call;
    RowsHaveCalls(cfg, s'.db, s'.now);
    forall t: Token ensures !StartsNext(GateOf(s', t), c) {
      if step.token == t {
        DecisionsStartNothing(cfg, GateOf(s, t), s.db, s.now, t, step.outcome);
      } else if StartsNext(GateOf(s, t), c) {
        StartingHasRow(cfg, s.db, GateOf(s, t));
        assert false;
      }
    }
  }

  lemma StartingHasRow(cfg: Config, db: Db, g: Gate)
    requires LaneOk(cfg, db, g) && g.Starting?
    ensures var c := g.pass.req.call;
            && c in db.calls && db.calls[c].tool == g.pass.req.tool
            && (RequiresApproval(cfg, g.pass.req.tool) ==> c in db.approvals)
  {
    hide RequiresApproval;
  }

  lemma WaitStartsByOpening(cfg: Config, a: Db, b: Db, now: Time, k: Kind)
    requires Shows(cfg, a, b, now, k) && b.run.status.WaitingApproval? && !k.Opening?
    ensures a.run.status.WaitingApproval?
  {
    hide Evolves, FreshRow, Recovers;
    if k.Recovering? {
      RecoveryStartsNoWait(a, b, now);
    }
  }

  lemma RecoveryStartsNoWait(a: Db, b: Db, now: Time)
    requires Recovers(a, b, now) && b.run.status.WaitingApproval?
    ensures a.run.status.WaitingApproval?
  {
  }

  lemma StaysHeldBack(cfg: Config, s: System, step: Step, k: Kind, c: CallId)
    requires Governed(cfg, s) && HeldBack(s, c) && Next(cfg, s, step).db.run.status.WaitingApproval?
    requires Shows(cfg, s.db, Next(cfg, s, step).db, s.now, k)
    requires step.Advance? ==> ComesFrom(k, GateOf(s, step.token))
    requires !step.Advance? ==> ComesFromStore(k, step)
    ensures HeldBack(Next(cfg, s, step), c)
  {
    hide Evolves, Governed, LaneOk, Shows, StoreStep, TakeTurn, RowsOk, CallsCovered;
    GovernedMeans(cfg, s);
    NextEvolves(cfg, s, step);
    var s' := Next(cfg, s, step);
    EvolvesKeepsRows(s.db, s'.db, c);
    KindCalls(cfg, s.db, s'.db, s.now, k, c);
    HeldBackNotStarted(s, step, k, c);
    forall t: Token ensures !StartsNext(GateOf(s', t), c) {
      assert !StartsNext(GateOf(s, t), c);
      if step.Advance? && step.token == t && StartsNext(GateOf(s', t), c) {
        if GateOf(s, t).Starting? {
          StartingTurn(cfg, GateOf(s, t), s.db, s.now, t, step.outcome);
        } else {
          ReadyMeansRunning(cfg, GateOf(s, t), s.db, s.now, t, step.outcome, c);
        }
        assert false;
      }
    }
  }

  lemma HeldBackNotStarted(s: System, step: Step, k: Kind, c: CallId)
    requires HeldBack(s, c)
    requires step.Advance? ==> ComesFrom(k, GateOf(s, step.token))
    requires !step.Advance? ==> ComesFromStore(k, step)
    ensures !(k.Starting? && k.call == c)
  {
    if step.Advance? && k.Starting? {
      assert !StartsNext(GateOf(s, step.token), c);
    }
  }

  lemma EvolvesKeepsRows(a: Db, b: Db, c: CallId)
    requires Evolves(a, b) && c in a.approvals && c in a.calls
    ensures c in b.approvals && c in b.calls
    ensures !HasStarted(b.calls, c) ==> b.calls[c].status.Prepared?
  {
  }

  lemma AwaitsNext(cfg: Config, s: System, step: Step)
    requires Governed(cfg, s) && AwaitsCall(s)
    ensures AwaitsCall(Next(cfg, s, step))
  {
    hide Governed, Next, HeldBack, Shows, ComesFrom;
    var s' := Next(cfg, s, step);
    if s'.db.run.status.WaitingApproval? {
      GovernedMeans(cfg, s);
      GovernedNext(cfg, s, step);
      var k := StepKind(cfg, s, step);
      if k.Opening? {
        OpeningIsATurn(k, step);
        OpeningHoldsBack(cfg, s, step, k);
      } else {
        WaitStartsByOpening(cfg, s.db, s'.db, s.now, k);
        var c :| HeldBack(s, c);
        StaysHeldBack(cfg, s, step, k, c);
      }
    }
  }

  lemma OpeningIsATurn(k: Kind, step: Step)
    requires k.Opening? && (!step.Advance? ==> ComesFromStore(k, step))
    ensures step.Advance?
  {
  }

  lemma {:induction false} AwaitsExec(cfg: Config, s: System, steps: seq<Step>)
    requires Governed(cfg, s) && AwaitsCall(s)
    ensures AwaitsCall(Exec(cfg, s, steps))
    decreases |steps|
  {
    hide Governed, AwaitsCall, Next;
    if steps != [] {
      GovernedNext(cfg, s, steps[0]);
      AwaitsNext(cfg, s, steps[0]);
      AwaitsExec(cfg, Next(cfg, s, steps[0]), steps[1..]);
    }
  }

  /** A waiting run has a call that has not started, whatever became of its approval. */
  predicate WaitsForCall(db: Db) {
    db.run.status.WaitingApproval? ==> exists c :: c in db.approvals && c in db.calls && db.calls[c].status.Prepared?
  }

  /**
    In every run, also one with withdrawals, the call whose approval opened the wait stays PREPARED
    while the run waits.
   */
  lemma WaitingRunHasItsCall(cfg: Config, s: System, steps: seq<Step>)
    requires Initial(cfg, s)
    ensures WaitsForCall(Exec(cfg, s, steps).db)
  {
    hide Exec;
    InitialGoverned(cfg, s);
    AwaitsExec(cfg, s, steps);
    var e := Exec(cfg, s, steps);
    if e.db.run.status.WaitingApproval? {
      var c :| HeldBack(e, c);
    }
  }
}
