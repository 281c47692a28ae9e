/**
  How approvals, their calls and the run status go together in every reachable state, and the
  exact steps that pull them apart.
 */
module Coupling {
  import opened Domain
  import opened Wrappers
  import opened StateStore
  import opened ApprovalStore
  import opened Gate
  import opened Recovery
  import opened Protocol
  import opened Execution
  import opened ApprovalEffects
  import opened StepEffects
  import opened Approvals

  // ---------- approvals and their calls ----------

  predicate Couple(approval: ApprovalStatus, call: InvocationStatus) {
    match approval
    case Claimed => call.Prepared? || call.Started? || call.UnknownResult?
    case Consumed => Deterministic(call)
    case _ => call.Prepared?
  }

  /** An approval and its call are in matching statuses; in particular CONSUMED means a known result. */
  ghost predicate Coupled(db: Db) {
    forall c :: c in db.approvals ==> c in db.calls && Couple(db.approvals[c].status, db.calls[c].status)
  }

  /** The Gate of `t` is about to start a call whose approval is no longer a claim. */
  predicate StartsUnclaimed(s: System, step: Step) {
    && step.Advance? && GateOf(s, step.token).Starting?
    && var c := GateOf(s, step.token).pass.req.call;
       && HoldsLease(s.db, Unit(s.now, step.token, GateOf(s, step.token).pass.req.actor))
       && c in s.db.calls && s.db.calls[c].status.Prepared?
       && c in s.db.approvals && !s.db.approvals[c].status.Claimed?
  }

  lemma LapsingCoupled(a: Db, b: Db, now: Time)
    requires Coupled(a) && Expiry(a, b, now)
    ensures Coupled(b)
  {
  }

  lemma BlocksCoupled(a: Db, b: Db)
    requires Coupled(a) && Blocks(a, b)
    ensures Coupled(b)
  {
  }

  lemma MarksCoupled(a: Db, b: Db, c: CallId)
    requires Coupled(a) && MarksUnknown(a, b, c)
    ensures Coupled(b)
  {
  }

  lemma RecoversCoupled(a: Db, b: Db, now: Time)
    requires Coupled(a) && Recovers(a, b, now)
    ensures Coupled(b)
  {
    hide Coupled, Blocks, Expiry, MarksUnknown;
    var mid :| Expiry(a, mid, now) && Settles(mid, b);
    LapsingCoupled(a, mid, now);
    if Passive(mid, b) {
      PassiveCoupled(mid, b);
    } else if Blocks(mid, b) {
      BlocksCoupled(mid, b);
    } else {
      var c, marked :| MarksUnknown(mid, marked, c) && Blocks(marked, b);
      MarksCoupled(mid, marked, c);
      BlocksCoupled(marked, b);
    }
  }

  lemma PassiveCoupled(a: Db, b: Db)
    requires Coupled(a) && b.approvals == a.approvals && b.calls == a.calls
    ensures Coupled(b)
  {
  }

  lemma PersistsCoupled(a: Db, b: Db, now: Time, pass: Pass)
    requires Coupled(a) && Persists(a, b, now, pass)
    requires pass.approved <==> pass.req.call in a.approvals
    ensures Coupled(b)
  {
  }

  /** Any step that starts nothing keeps the coupling. */
  lemma KindKeepsCoupled(cfg: Config, a: Db, b: Db, now: Time, k: Kind)
    requires Coupled(a) && Shows(cfg, a, b, now, k) && !k.Starting?
    requires k.Result? ==> (k.pass.approved <==> k.pass.req.call in a.approvals)
    ensures Coupled(b)
  {
    hide Recovers, Expiry, Persists, HarnessMove, BindingOf, Evolves;
    match k
    case Recovering => RecoversCoupled(a, b, now);
    case Lapsing => LapsingCoupled(a, b, now);
    case Result(pass) => PersistsCoupled(a, b, now, pass);
    case _ =>
  }

  lemma StartCoupled(a: Db, b: Db, t: Token, c: CallId)
    requires Coupled(a) && StartsCall(a, b, t, c)
    ensures Coupled(b) <==> (c in a.approvals ==> a.approvals[c].status.Claimed?)
  {
    hide Evolves;
  }

  /** Whether a result is stored under an approval is decided by whether the call has one. */
  lemma ResultPass(cfg: Config, s: System, k: Kind, g: Gate)
    requires Governed(cfg, s) && k.Result? && ComesFrom(k, g) && LaneOk(cfg, s.db, g)
    ensures k.pass.approved <==> k.pass.req.call in s.db.approvals
  {
    RowsHaveCalls(cfg, s.db, s.now);
  }

  /** A step uncouples an approval from its call exactly when it starts a call without a live claim. */
  lemma UncouplesExactly(cfg: Config, s: System, step: Step)
    requires Governed(cfg, s) && Coupled(s.db)
    ensures Coupled(Next(cfg, s, step).db) <==> !StartsUnclaimed(s, step)
  {
    hide Governed, Coupled, Evolves, LaneOk, TakeTurn, StoreStep, Shows, StartsCall, ComesFrom;
    GovernedMeans(cfg, s);
    var s' := Next(cfg, s, step);
    if step.Advance? && GateOf(s, step.token).Starting? {
      ReadyTurn(cfg, GateOf(s, step.token), s.db, s.now, step.token, step.outcome);
      StartingTurn(cfg, GateOf(s, step.token), s.db, s.now, step.token, step.outcome);
      if GateOf(s', step.token).Executing? {
        StartCoupled(s.db, s'.db, step.token, GateOf(s, step.token).pass.req.call);
      }
    } else {
      var k := StepKind(cfg, s, step);
      NotStarting(cfg, s, step, k);
      if k.Result? {
        ResultPass(cfg, s, k, GateOf(s, step.token));
      }
      KindKeepsCoupled(cfg, s.db, s'.db, s.now, k);
    }
  }

  lemma NotStarting(cfg: Config, s: System, step: Step, k: Kind)
    requires step.Advance? ==> ComesFrom(k, GateOf(s, step.token)) && !GateOf(s, step.token).Starting?
    requires !step.Advance? ==> !k.Starting?
    ensures !k.Starting?
  {
  }

  // ---------- what holds in every run ----------

  /** Like `Couple`, but an approval may have been withdrawn before its call started. */
  predicate LooseCouple(approval: ApprovalStatus, call: InvocationStatus) {
    match approval
    case Claimed => call.Prepared? || call.Started? || call.UnknownResult?
    case Consumed => Deterministic(call)
    case Invalidated => !Deterministic(call)
    case _ => call.Prepared?
  }

  ghost predicate LooselyCoupled(db: Db) {
    forall c :: c in db.approvals ==> c in db.calls && LooseCouple(db.approvals[c].status, db.calls[c].status)
  }

  /** Once claimed, a row can only be spent or withdrawn. */
  predicate BeyondClaim(s: ApprovalStatus) {
    s.Claimed? || s.Consumed? || s.Invalidated?
  }

  /** A Gate about to start an approved call has had the claim, whether or not it still stands. */
  ghost predicate ClaimTaken(s: System, t: Token) {
    GateOf(s, t).Starting? && GateOf(s, t).pass.approved ==>
      var c := GateOf(s, t).pass.req.call;
      c in s.db.approvals && BeyondClaim(s.db.approvals[c].status)
  }

  ghost predicate Loose(s: System) {
    LooselyCoupled(s.db) && forall t: Token :: ClaimTaken(s, t)
  }

  lemma LapsingLoose(a: Db, b: Db, now: Time)
    requires LooselyCoupled(a) && Expiry(a, b, now)
    ensures LooselyCoupled(b)
  {
  }

  lemma BlocksLoose(a: Db, b: Db)
    requires LooselyCoupled(a) && Blocks(a, b)
    ensures LooselyCoupled(b)
  {
  }

  lemma MarksLoose(a: Db, b: Db, c: CallId)
    requires LooselyCoupled(a) && MarksUnknown(a, b, c)
    ensures LooselyCoupled(b)
  {
  }

  lemma RecoversLoose(a: Db, b: Db, now: Time)
    requires LooselyCoupled(a) && Recovers(a, b, now)
    ensures LooselyCoupled(b)
  {
    hide LooselyCoupled, Blocks, Expiry, MarksUnknown;
    var mid :| Expiry(a, mid, now) && Settles(mid, b);
    LapsingLoose(a, mid, now);
    if Passive(mid, b) {
      SameRowsLoose(mid, b);
    } else if Blocks(mid, b) {
      BlocksLoose(mid, b);
    } else {
      var c, marked :| MarksUnknown(mid, marked, c) && Blocks(marked, b);
      MarksLoose(mid, marked, c);
      BlocksLoose(marked, b);
    }
  }

  lemma SameRowsLoose(a: Db, b: Db)
    requires LooselyCoupled(a) && b.approvals == a.approvals && b.calls == a.calls
    ensures LooselyCoupled(b)
  {
  }

  lemma PersistsLoose(a: Db, b: Db, now: Time, pass: Pass)
    requires LooselyCoupled(a) && Persists(a, b, now, pass)
    requires pass.approved <==> pass.req.call in a.approvals
    ensures LooselyCoupled(b)
  {
  }

  lemma KindKeepsLoose(cfg: Config, a: Db, b: Db, now: Time, k: Kind)
    requires LooselyCoupled(a) && Shows(cfg, a, b, now, k)
    requires k.Result? ==> (k.pass.approved <==> k.pass.req.call in a.approvals)
    requires k.Starting? && k.call in a.approvals ==> BeyondClaim(a.approvals[k.call].status)
    ensures LooselyCoupled(b)
  {
    hide Recovers, Expiry, Persists, HarnessMove, BindingOf, Evolves;
    match k
    case Recovering => RecoversLoose(a, b, now);
    case Lapsing => LapsingLoose(a, b, now);
    case Result(pass) => PersistsLoose(a, b, now, pass);
    case _ =>
  }

  lemma RowBeyondClaim(a: Db, b: Db, now: Time, c: CallId)
    requires RowsMove(a, b, now) && c in a.approvals && BeyondClaim(a.approvals[c].status)
    ensures c in b.approvals && BeyondClaim(b.approvals[c].status)
  {
    assert RowMoves(a, b, now, c);
  }

  /** An approved tool is started through its claim. */
  lemma StartingTookClaim(cfg: Config, s: System, k: Kind, g: Gate, t: Token)
    requires Governed(cfg, s) && Loose(s) && k.Starting? && ComesFrom(k, g) && g == GateOf(s, t)
    ensures k.call in s.db.approvals ==> BeyondClaim(s.db.approvals[k.call].status)
  {
    hide LooselyCoupled, AuthorizedCall, RequiresApproval;
    GovernedMeans(cfg, s);
    assert LaneOk(cfg, s.db, g) && ClaimTaken(s, t);
    RowsHaveCalls(cfg, s.db, s.now);
  }

  lemma LooseNext(cfg: Config, s: System, step: Step)
    requires Governed(cfg, s) && Loose(s)
    ensures Loose(Next(cfg, s, step))
  {
    hide Governed, LooselyCoupled, Evolves, LaneOk, TakeTurn, StoreStep, Shows, ComesFrom, RowsMove, BeyondClaim;
    GovernedMeans(cfg, s);
    var s' := Next(cfg, s, step);
    var k := StepKind(cfg, s, step);
    KindMoves(cfg, s.db, s'.db, s.now, k);
    if step.Advance? && k.Result? {
      ResultPass(cfg, s, k, GateOf(s, step.token));
    }
    if step.Advance? && k.Starting? {
      StartingTookClaim(cfg, s, k, GateOf(s, step.token), step.token);
    }
    GatesOnly(k, step);
    KindKeepsLoose(cfg, s.db, s'.db, s.now, k);
    forall t: Token ensures ClaimTaken(s', t) {
      assert ClaimTaken(s, t);
      if step.Advance? && step.token == t {
        if GateOf(s, t).Starting? {
          StartingTurn(cfg, GateOf(s, t), s.db, s.now, t, step.outcome);
        } else {
          EntersStarting(cfg, GateOf(s, t), s.db, s.now, t, step.outcome);
          ClaimedIsBeyond();
        }
      } else if GateOf(s', t).Starting? && GateOf(s', t).pass.approved {
        assert GateOf(s', t) == GateOf(s, t);
        RowBeyondClaim(s.db, s'.db, s.now, GateOf(s, t).pass.req.call);
      }
    }
  }

  lemma ClaimedIsBeyond()
    ensures forall s: ApprovalStatus :: s.Claimed? ==> BeyondClaim(s)
  {
  }

  lemma GatesOnly(k: Kind, step: Step)
    requires !step.Advance? ==> ComesFromStore(k, step)
    ensures k.Result? || k.Starting? ==> step.Advance?
  {
  }

  lemma {:induction false} LooseExec(cfg: Config, s: System, steps: seq<Step>)
    requires Governed(cfg, s) && Loose(s)
    ensures Loose(Exec(cfg, s, steps))
    decreases |steps|
  {
    hide Governed, Loose, Next;
    if steps != [] {
      GovernedNext(cfg, s, steps[0]);
      LooseNext(cfg, s, steps[0]);
      LooseExec(cfg, Next(cfg, s, steps[0]), steps[1..]);
    }
  }

  /**
    In every run an approval is CONSUMED exactly when its call has a known result, and open or
    refused approvals have a PREPARED call.  All that a run can pull apart is a withdrawn approval
    and its call, which may then be STARTED or of unknown result, but never of known result.
   */
  lemma ConsumedMeansKnownResult(cfg: Config, s: System, steps: seq<Step>, c: CallId)
    requires Initial(cfg, s) && c in Exec(cfg, s, steps).db.approvals
    ensures var db := Exec(cfg, s, steps).db;
            && c in db.calls
            && LooseCouple(db.approvals[c].status, db.calls[c].status)
            && (db.approvals[c].status.Consumed? <==> Deterministic(db.calls[c].status))
  {
    hide Exec;
    InitialGoverned(cfg, s);
    LooseExec(cfg, s, steps);
  }

  // ---------- a claim is only lost to the token that took it ----------

  /**
    Steps that can take the claim of `c`: under the current token, a recovery that blocks, its
    withdrawal, or a result.
   */
  ghost predicate TakesClaim(cfg: Config, s: System, step: Step, c: CallId) {
    && (|| (step.Recover? && EndsBlocked(s.db, Next(cfg, s, step).db))
        || (step.WithdrawApproval? && step.call == c)
        || (step.Advance? && GateOf(s, step.token).Persisting?))
    && CurrentToken(s.db, step.token)
  }

  lemma RecoverNeedsLease(cfg: Config, s: System, step: Step)
    requires (step.Recover? || step.WithdrawApproval?) && StoreStep(cfg, s, step).Ok?
    ensures CurrentToken(s.db, step.token)
  {
    hide Quiet, Evolves, Triage, Refresh, CarryOut, JudgeRefreshed;
  }

  lemma PersistNeedsLease(db: Db, u: Unit, pass: Pass, outcome: Outcome)
    requires PersistResult(db, u, pass, outcome).Ok?
    ensures CurrentToken(db, u.token)
  {
    hide Quiet, Evolves, AddFacts, TransitionInvocation, Load, Consume;
  }

  lemma ClaimedRowKind(cfg: Config, a: Db, b: Db, now: Time, k: Kind, c: CallId)
    requires Shows(cfg, a, b, now, k) && c in a.approvals && a.approvals[c].status.Claimed?
    ensures c in b.approvals
    ensures b.approvals[c] == a.approvals[c] || k.Result? || k.Withdrawing? || k.Recovering?
    ensures k.Withdrawing? && k.call != c ==> b.approvals[c] == a.approvals[c]
    ensures k.Recovering? && !EndsBlocked(a, b) ==> b.approvals[c] == a.approvals[c]
  {
    hide Evolves, Recovers, HarnessMove, FreshRow;
    KindMoves(cfg, a, b, now, k);
    if k.Recovering? && !EndsBlocked(a, b) {
      UnblockedKeepsClaims(a, b, now, c);
    }
  }

  /** A recovery that blocked the run. */
  predicate EndsBlocked(a: Db, b: Db) {
    LiveRun(a.run.status) && b.run.status.Blocked?
  }

  /** Unless it blocks, recovery withdraws nothing. */
  lemma UnblockedKeepsClaims(a: Db, b: Db, now: Time, c: CallId)
    requires Recovers(a, b, now) && !EndsBlocked(a, b) && c in a.approvals && a.approvals[c].status.Claimed?
    ensures c in b.approvals && b.approvals[c] == a.approvals[c]
  {
  }

  lemma ClaimOnlyLostToHolder(cfg: Config, s: System, step: Step, c: CallId)
    requires s.db.approvals.Keys <= s.db.calls.Keys
    requires c in s.db.approvals && s.db.approvals[c].status.Claimed?
    ensures c in Next(cfg, s, step).db.approvals
    ensures TakesClaim(cfg, s, step, c) || Next(cfg, s, step).db.approvals[c] == s.db.approvals[c]
  {
    hide Evolves, StoreStep, TakeTurn, Shows, EndsBlocked;
    var k := StepKind(cfg, s, step);
    var s' := Next(cfg, s, step);
    ClaimedRowKind(cfg, s.db, s'.db, s.now, k, c);
    if s'.db != s.db {
      if step.Recover? || step.WithdrawApproval? {
        RecoverNeedsLease(cfg, s, step);
      } else if step.Advance? && GateOf(s, step.token).Persisting? {
        PersistingWrote(cfg, s, step);
      }
    }
  }

  lemma PersistingWrote(cfg: Config, s: System, step: Step)
    requires step.Advance? && GateOf(s, step.token).Persisting? && Next(cfg, s, step).db != s.db
    ensures CurrentToken(s.db, step.token)
  {
    hide PersistResult, Quiet, Evolves;
    var g := GateOf(s, step.token);
    PersistNeedsLease(s.db, Unit(s.now, step.token, g.pass.req.actor), g.pass, g.outcome);
  }

  // ---------- runs that keep the coupling ----------

  /**
    No recovery blocks the run, and nobody withdraws the claim, under the token of a Gate that is
    about to start an approved call.  A recovery that only files a plan is no matter.
   */
  ghost predicate Careful(cfg: Config, s: System, step: Step) {
    step.Recover? || step.WithdrawApproval? ==>
      var g := GateOf(s, step.token);
      g.Starting? && g.pass.approved ==>
        if step.Recover? then !EndsBlocked(s.db, Next(cfg, s, step).db) else step.call != g.pass.req.call
  }

  ghost predicate CarefulRun(cfg: Config, s: System, steps: seq<Step>)
    decreases |steps|
  {
    steps == [] || (Careful(cfg, s, steps[0]) && CarefulRun(cfg, Next(cfg, s, steps[0]), steps[1..]))
  }

  /** While its token is current, a Gate about to start an approved call still holds the claim. */
  ghost predicate ClaimHeld(s: System, t: Token) {
    GateOf(s, t).Starting? && GateOf(s, t).pass.approved && CurrentToken(s.db, t) ==>
      var c := GateOf(s, t).pass.req.call;
      c in s.db.approvals && s.db.approvals[c].status.Claimed?
  }

  ghost predicate ClaimsHeld(s: System) {
    forall t: Token :: ClaimHeld(s, t)
  }

  lemma CurrentBefore(a: Db, b: Db, t: Token)
    requires Evolves(a, b) && CurrentToken(b, t) && t < a.nextToken
    ensures CurrentToken(a, t)
  {
  }

  lemma EntersStarting(cfg: Config, g: Gate, db: Db, now: Time, t: Token, outcome: Outcome)
    requires LaneOk(cfg, db, g) && !g.Starting?
    ensures var turn := TakeTurn(cfg, g, db, now, t, outcome);
            turn.gate.Starting? && turn.gate.pass.approved ==>
              var c := turn.gate.pass.req.call;
              c in turn.db.approvals && turn.db.approvals[c].status.Claimed?
  {
    hide Quiet, Evolves, OpenApproval, PollApproval, ClaimAndAllow, PrepareAndAllow, RecordRecoveryAllow,
         ResumeOrClaim, PersistResult, LogDenial, RequiresApproval, AuthorizedCall, CallMatches, RequestFault,
         RepeatFault, WriteReplay, BudgetSpent, RecoveryBudgetSpent, DuplicateCode, ApprovalCode, Equivalent;
    if g.ClaimingApproval? {
      var u := Unit(now, t, g.pass.req.actor);
      if ClaimAndAllow(db, u, g.pass).Ok? { ClaimAndAllowEffect(db, u, g.pass); }
    } else if g.ResumingClaim? {
      var u := Unit(now, t, g.pass.req.actor);
      if ResumeOrClaim(db, u, g.pass).Ok? { ResumeOrClaimEffect(db, u, g.pass); }
    }
  }

  lemma ClaimsHeldNext(cfg: Config, s: System, step: Step)
    requires Governed(cfg, s) && Suppressed(cfg, s) && ClaimsHeld(s) && Careful(cfg, s, step)
    ensures ClaimsHeld(Next(cfg, s, step))
  {
    hide Governed, Suppressed, Evolves, LaneOk, StoreStep, TakeTurn, CheckStands, EndsBlocked;
    GovernedMeans(cfg, s);
    SuppressedMeans(cfg, s);
    NextEvolves(cfg, s, step);
    var s' := Next(cfg, s, step);
    forall t: Token | GateOf(s', t).Starting? && GateOf(s', t).pass.approved && CurrentToken(s'.db, t)
      ensures ClaimHeld(s', t)
    {
      if step.Advance? && step.token == t {
        if GateOf(s, t).Starting? {
          StartingTurn(cfg, GateOf(s, t), s.db, s.now, t, step.outcome);
          assert false;
        } else {
          EntersStarting(cfg, GateOf(s, t), s.db, s.now, t, step.outcome);
        }
      } else {
        assert GateOf(s', t) == GateOf(s, t);
        CurrentBefore(s.db, s'.db, t);
        assert ClaimHeld(s, t);
        ClaimOnlyLostToHolder(cfg, s, step, GateOf(s, t).pass.req.call);
      }
    }
  }

  lemma CarefulNeverUnclaimed(cfg: Config, s: System, step: Step)
    requires Governed(cfg, s) && ClaimsHeld(s)
    ensures !StartsUnclaimed(s, step)
  {
    if StartsUnclaimed(s, step) {
      var g := GateOf(s, step.token);
      assert LaneOk(cfg, s.db, g) && ClaimHeld(s, step.token);
      RowsHaveCalls(cfg, s.db, s.now);
    }
  }

  lemma {:induction false} CoupledExec(cfg: Config, s: System, steps: seq<Step>)
    requires Governed(cfg, s) && Suppressed(cfg, s) && ClaimsHeld(s) && Coupled(s.db) && CarefulRun(cfg, s, steps)
    ensures Coupled(Exec(cfg, s, steps).db)
    decreases |steps|
  {
    hide Governed, Suppressed, ClaimsHeld, Coupled, Next, StartsUnclaimed, Careful;
    if steps != [] {
      var step := steps[0];
      GovernedMeans(cfg, s);
      CarefulNeverUnclaimed(cfg, s, step);
      UncouplesExactly(cfg, s, step);
      GovernedNext(cfg, s, step);
      SuppressedNext(cfg, s, step);
      ClaimsHeldNext(cfg, s, step);
      CoupledExec(cfg, Next(cfg, s, step), steps[1..]);
    }
  }

  /**
    In every careful run every approval matches its call:
    open or refused ones have a PREPARED call, claims one that is PREPARED, STARTED or of unknown
    result, and an approval is CONSUMED exactly when its call has a known result.
   */
  lemma ApprovalsFollowCalls(cfg: Config, s: System, steps: seq<Step>, c: CallId)
    requires Initial(cfg, s) && CarefulRun(cfg, s, steps) && c in Exec(cfg, s, steps).db.approvals
    ensures var db := Exec(cfg, s, steps).db;
            && c in db.calls
            && Couple(db.approvals[c].status, db.calls[c].status)
            && (db.approvals[c].status.Consumed? <==> Deterministic(db.calls[c].status))
  {
    hide Exec, CarefulRun;
    InitialGoverned(cfg, s);
    InitialSuppressed(cfg, s);
    CoupledExec(cfg, s, steps);
  }

  // ---------- without that care ----------

  /** The Gate of `t` has claimed an approval and is about to start the call. */
  predicate ClaimedAndReady(s: System, t: Token) {
    && GateOf(s, t).Starting?
    && var c := GateOf(s, t).pass.req.call;
       && HoldsLease(s.db, Unit(s.now, t, GateOf(s, t).pass.req.actor))
       && c in s.db.calls && s.db.calls[c].status.Prepared?
       && c in s.db.approvals && s.db.approvals[c].status.Claimed?
  }

  /** The claim is gone, and nothing else that the start depends on has changed. */
  predicate ClaimGone(s: System, after: System, t: Token) {
    && GateOf(s, t).Starting?
    && after.gates == s.gates && after.now == s.now && after.db.lease == s.db.lease
    && var c := GateOf(s, t).pass.req.call;
       && c in after.db.calls && after.db.calls[c].status.Prepared?
       && c in after.db.approvals && after.db.approvals[c].status.Invalidated?
  }

  /** The Gate starts all the same: the handler may run under a withdrawn approval, whatever the run status. */
  lemma StartsWithoutClaim(cfg: Config, s: System, after: System, t: Token, outcome: Outcome)
    requires ClaimedAndReady(s, t) && ClaimGone(s, after, t)
    ensures var c, started := GateOf(s, t).pass.req.call, Next(cfg, after, Advance(t, outcome));
            && GateOf(started, t) == Executing(GateOf(s, t).pass)
            && c in started.db.approvals && started.db.approvals[c].status.Invalidated?
            && c in started.db.calls && started.db.calls[c].status.Started?
            && started.db.run.status == after.db.run.status
            && !Coupled(started.db)
  {
    hide Quiet, Evolves, StoreStep, TakeTurn, StartsCall;
    var c := GateOf(s, t).pass.req.call;
    assert GateOf(after, t) == GateOf(s, t);
    ReadyTurn(cfg, GateOf(after, t), after.db, after.now, t, outcome);
    StartingTurn(cfg, GateOf(after, t), after.db, after.now, t, outcome);
    StartKeepsRows(after.db, Next(cfg, after, Advance(t, outcome)).db, t, c);
  }

  lemma StartKeepsRows(a: Db, b: Db, t: Token, c: CallId)
    requires StartsCall(a, b, t, c)
    ensures b.approvals == a.approvals && c in b.calls && b.calls[c].status.Started? && b.run.status == a.run.status
  {
  }

  /**
    A recovery under the same token that blocks the run between claim and start leaves a BLOCKED
    run whose handler runs, with an INVALIDATED approval and a STARTED call.
   */
  lemma BlockingRecoveryUncouples(cfg: Config, s: System, t: Token, outcome: Outcome)
    requires ClaimedAndReady(s, t) && EndsBlocked(s.db, Next(cfg, s, Step.Recover(t)).db)
    ensures var c := GateOf(s, t).pass.req.call;
            var started := Next(cfg, Next(cfg, s, Step.Recover(t)), Advance(t, outcome));
            && started.db.run.status.Blocked? && GateOf(started, t) == Executing(GateOf(s, t).pass)
            && c in started.db.approvals && started.db.approvals[c].status.Invalidated?
            && c in started.db.calls && started.db.calls[c].status.Started?
            && !Coupled(started.db)
  {
    hide Next, Coupled, HoldsLease;
    BlockTakesClaim(cfg, s, t);
    StartsWithoutClaim(cfg, s, Next(cfg, s, Step.Recover(t)), t, outcome);
  }

  lemma BlockTakesClaim(cfg: Config, s: System, t: Token)
    requires ClaimedAndReady(s, t) && EndsBlocked(s.db, Next(cfg, s, Step.Recover(t)).db)
    ensures ClaimGone(s, Next(cfg, s, Step.Recover(t)), t)
  {
    hide Quiet, Evolves, Prepare, Recovers;
    var u := Unit(s.now, t, HARNESS);
    if Prepare(cfg, s.db, u, s.world).Ok? {
      PrepareRecoveryEffect(cfg, s.db, u, s.world);
      BlockingWithdraws(s.db, Prepare(cfg, s.db, u, s.world).value.db, s.now, GateOf(s, t).pass.req.call);
      PrepareKeepsLease(cfg, s.db, u, s.world);
    }
  }

  lemma BlockingWithdraws(a: Db, b: Db, now: Time, c: CallId)
    requires Recovers(a, b, now) && EndsBlocked(a, b)
    requires HoldsClaim(a, c)
    ensures c in b.calls && b.calls[c].status.Prepared? && c in b.approvals && b.approvals[c].status.Invalidated?
  {
    hide Blocks, Expiry, Passive, MarksUnknown;
    var mid :| Expiry(a, mid, now) && Settles(mid, b);
    LapsingKeepsClaim(a, mid, now, c);
    if Blocks(mid, b) {
      BlockWithdraws(mid, b, c);
    } else if Passive(mid, b) {
      PassiveBlocksNothing(a, mid, b, now);
    } else {
      var d, marked :| MarksUnknown(mid, marked, d) && Blocks(marked, b);
      MarkKeepsClaim(mid, marked, d, c);
      BlockWithdraws(marked, b, c);
    }
  }

  predicate HoldsClaim(db: Db, c: CallId) {
    c in db.calls && db.calls[c].status.Prepared? && c in db.approvals && db.approvals[c].status.Claimed?
  }

  lemma LapsingKeepsClaim(a: Db, b: Db, now: Time, c: CallId)
    requires Expiry(a, b, now) && HoldsClaim(a, c)
    ensures HoldsClaim(b, c)
  {
  }

  lemma MarkKeepsClaim(a: Db, b: Db, d: CallId, c: CallId)
    requires MarksUnknown(a, b, d) && HoldsClaim(a, c)
    ensures HoldsClaim(b, c)
  {
  }

  lemma BlockWithdraws(a: Db, b: Db, c: CallId)
    requires Blocks(a, b) && HoldsClaim(a, c)
    ensures c in b.calls && b.calls[c].status.Prepared? && c in b.approvals && b.approvals[c].status.Invalidated?
  {
  }

  lemma PassiveBlocksNothing(a: Db, mid: Db, b: Db, now: Time)
    requires Expiry(a, mid, now) && Passive(mid, b)
    ensures !EndsBlocked(a, b)
  {
  }

  // ---------- recovery leaves the lease alone ----------

  lemma {:induction false} ExpireEachLease(db: Db, u: Unit, ids: set<CallId>)
    requires ExpireEach(db, u, ids).Ok?
    ensures ExpireEach(db, u, ids).value.lease == db.lease
    decreases |ids|
  {
    hide Quiet, Evolves, Expire;
    if ids != {} {
      var c := Earliest(ids, RequestTimes(db.approvals));
      if Active(db.approvals[c].status) {
        ExpireLease(db, u, c);
        ExpireEachLease(Expire(db, u, c).value, u, ids - {c});
      } else {
        ExpireEachLease(db, u, ids - {c});
      }
    }
  }

  lemma ExpireLease(db: Db, u: Unit, c: CallId)
    requires c in db.approvals && Active(db.approvals[c].status) && Expire(db, u, c).Ok?
    ensures Expire(db, u, c).value.lease == db.lease
  {
    hide Quiet, Evolves;
  }

  lemma InvalidateLease(db: Db, u: Unit, c: CallId, revision: nat)
    requires Invalidate(db, u, c, revision).Ok?
    ensures Invalidate(db, u, c, revision).value.lease == db.lease
  {
    hide Quiet, Evolves, Expire;
    if Due(db.approvals[c], u.now) {
      ExpireLease(db, u, c);
    }
  }

  lemma {:induction false} WithdrawEachLease(db: Db, u: Unit, ids: set<CallId>)
    requires WithdrawEach(db, u, ids).Ok?
    ensures WithdrawEach(db, u, ids).value.lease == db.lease
    decreases |ids|
  {
    hide Quiet, Evolves, Invalidate;
    if ids != {} {
      var c := Earliest(ids, RequestTimes(db.approvals));
      InvalidateLease(db, u, c, db.approvals[c].revision);
      WithdrawEachLease(Invalidate(db, u, c, db.approvals[c].revision).value, u, ids - {c});
    }
  }

  lemma BlockLease(db: Db, u: Unit, action: RecoveryAction, stop: StopReason, reason: Option<ErrorCode>,
                   call: Option<CallId>, approval: Option<nat>)
    requires BlockAndRecord(db, u, action, stop, reason, call, approval).Ok?
    ensures BlockAndRecord(db, u, action, stop, reason, call, approval).value.db.lease == db.lease
  {
    hide Quiet, Evolves, WithdrawEach, KeyFor;
    WithdrawEachLease(db, u, Withdrawable(db));
  }

  lemma CarryOutLease(cfg: Config, db: Db, u: Unit, world: World, v: Verdict)
    requires CarryOut(cfg, db, u, world, v).Ok?
    ensures CarryOut(cfg, db, u, world, v).value.db.lease == db.lease
  {
    hide Quiet, Evolves, BlockAndRecord, KeyFor, TakeSnapshot, FindBoundary, BoundaryAllowed, MaxSequence;
    match v
    case Block(action, stop, reason, call, approval) => BlockLease(db, u, action, stop, reason, call, approval);
    case MarkUnknown(c) =>
      var marked := TransitionInvocation(db, u, c, InvocationStatus.Started, db.calls[c].revision,
                                         InvocationStatus.UnknownResult, Some(ResultUnknown)).value;
      BlockLease(marked, u, MarkUnknownResult, StopReason.UnknownResult, Some(RecoveryManualReviewRequired), Some(c),
          None);
    case _ =>
  }

  lemma RefreshLease(db: Db, u: Unit, world: World)
    requires Refresh(db, u, world).Ok?
    ensures Refresh(db, u, world).value.lease == db.lease
  {
    hide Quiet, Evolves, ExpireEach, InvalidateEach;
    ExpireEachLease(db, u, DueCalls(db, u.now));
  }

  lemma PrepareKeepsLease(cfg: Config, db: Db, u: Unit, world: World)
    requires Prepare(cfg, db, u, world).Ok?
    ensures Prepare(cfg, db, u, world).value.db.lease == db.lease
  {
    hide Quiet, Evolves, CarryOut, Triage, Refresh, Judge;
    var early := Triage(cfg, db, world);
    if early.Some? {
      CarryOutLease(cfg, db, u, world, early.value);
    } else {
      RefreshLease(db, u, world);
      var current := Refresh(db, u, world).value;
      CarryOutLease(cfg, current, u, world, JudgeRefreshed(current, world));
    }
  }

  /** The same by a stand-alone withdrawal, which the store allows though the harness makes none. */
  lemma LateWithdrawalUncouples(cfg: Config, s: System, t: Token, outcome: Outcome)
    requires ClaimedAndReady(s, t)
    ensures var c := GateOf(s, t).pass.req.call;
            var withdrawn := Next(cfg, s, WithdrawApproval(t, c, s.db.approvals[c].revision));
            var started := Next(cfg, withdrawn, Advance(t, outcome)).db;
            && c in started.approvals && started.approvals[c].status.Invalidated?
            && c in started.calls && started.calls[c].status.Started?
            && !Coupled(started)
  {
    hide Next, Coupled;
    var c := GateOf(s, t).pass.req.call;
    ClaimIsWithdrawn(cfg, s, t, c);
    StartsWithoutClaim(cfg, s, Next(cfg, s, WithdrawApproval(t, c, s.db.approvals[c].revision)), t, outcome);
  }

  lemma ClaimIsWithdrawn(cfg: Config, s: System, t: Token, c: CallId)
    requires CurrentToken(s.db, t) && s.now < s.db.lease.value.expiresAt
    requires c in s.db.calls && s.db.calls[c].status.Prepared?
    requires c in s.db.approvals && s.db.approvals[c].status.Claimed?
    ensures var after := Next(cfg, s, WithdrawApproval(t, c, s.db.approvals[c].revision));
            && after.gates == s.gates && after.now == s.now
            && after.db.calls == s.db.calls && after.db.lease == s.db.lease
            && c in after.db.approvals && after.db.approvals[c].status.Invalidated?
  {
    hide Quiet, Evolves;
  }
}
