/**
  Fenced at-most-once execution, and suppression of equivalent calls.

  Both are stated for every interleaving of Gates, takeovers, recoveries and crashes.
 */
module Execution {
  import opened Domain
  import opened Wrappers
  import opened StateStore
  import opened ApprovalStore
  import opened Gate
  import opened Protocol

  // ---------- at most once ----------

  ghost predicate NoDuplicates(s: seq<CallId>) {
    forall i, j :: 0 <= i < j < |s| ==> s[i] != s[j]
  }

  /** A Gate about to run a handler owns that run: the call is STARTED, not run yet, and nobody else's. */
  ghost predicate OwnsRun(s: System, t: Token) {
    GateOf(s, t).Executing? ==>
      var c := GateOf(s, t).pass.req.call;
      && HasStarted(s.db.calls, c)
      && c !in s.executed
      && forall t': Token :: t' != t && GateOf(s, t').Executing? ==> GateOf(s, t').pass.req.call != c
  }

  ghost predicate Fenced(s: System) {
    && NoDuplicates(s.executed)
    && (forall c :: c in s.executed ==> HasStarted(s.db.calls, c))
    && (forall t: Token :: OwnsRun(s, t))
  }

  /** Nothing new executes: Gates keep their state or stop holding a run. */
  lemma FencedQuiet(s: System, s': System)
    requires Fenced(s) && Evolves(s.db, s'.db) && s'.executed == s.executed
    requires forall t: Token :: GateOf(s', t).Executing? ==> GateOf(s', t) == GateOf(s, t)
    ensures Fenced(s')
  {
    forall t: Token ensures OwnsRun(s', t) {
      assert OwnsRun(s, t);
    }
  }

  lemma FencedStart(s: System, s': System, t: Token)
    requires Fenced(s) && GateOf(s, t).Starting? && s'.executed == s.executed
    requires StartsCall(s.db, s'.db, t, GateOf(s, t).pass.req.call)
    requires GateOf(s', t) == Executing(GateOf(s, t).pass)
    requires forall t': Token :: t' != t ==> GateOf(s', t') == GateOf(s, t')
    ensures Fenced(s')
  {
    var c := GateOf(s, t).pass.req.call;
    forall t': Token | GateOf(s, t').Executing? ensures GateOf(s, t').pass.req.call != c {
      assert OwnsRun(s, t') && !HasStarted(s.db.calls, c);
    }
    forall t': Token ensures OwnsRun(s', t') {
      assert OwnsRun(s, t');
    }
  }

  lemma FencedRun(s: System, s': System, t: Token)
    requires Fenced(s) && GateOf(s, t).Executing? && s'.db == s.db
    requires s'.executed == s.executed + [GateOf(s, t).pass.req.call]
    requires !GateOf(s', t).Executing?
    requires forall t': Token :: t' != t ==> GateOf(s', t') == GateOf(s, t')
    ensures Fenced(s')
  {
    assert OwnsRun(s, t);
    forall t': Token ensures OwnsRun(s', t') {
      assert OwnsRun(s, t');
    }
  }

  lemma FencedNext(cfg: Config, s: System, step: Step)
    requires Fenced(s)
    ensures Fenced(Next(cfg, s, step))
  {
    hide Evolves, TakeTurn, StoreStep, Fenced, StartsCall;
    var s' := Next(cfg, s, step);
    NextEvolves(cfg, s, step);
    if step.Advance? {
      var gate := GateOf(s, step.token);
      if gate.Starting? {
        StartingTurn(cfg, gate, s.db, s.now, step.token, step.outcome);
        if GateOf(s', step.token).Executing? {
          FencedStart(s, s', step.token);
        } else {
          FencedQuiet(s, s');
        }
      } else {
        OtherTurn(cfg, gate, s.db, s.now, step.token, step.outcome);
        if gate.Executing? {
          FencedRun(s, s', step.token);
        } else {
          FencedQuiet(s, s');
        }
      }
    } else {
      FencedQuiet(s, s');
    }
  }

  lemma {:induction false} FencedExec(cfg: Config, s: System, steps: seq<Step>)
    requires Fenced(s)
    ensures Fenced(Exec(cfg, s, steps))
    decreases |steps|
  {
    if steps != [] {
      FencedNext(cfg, s, steps[0]);
      FencedExec(cfg, Next(cfg, s, steps[0]), steps[1..]);
    }
  }

  /** In every run, no call's handler runs twice, and none runs before its call was marked STARTED. */
  lemma AtMostOnce(cfg: Config, s: System, steps: seq<Step>)
    requires Initial(cfg, s)
    ensures NoDuplicates(Exec(cfg, s, steps).executed)
    ensures forall c :: c in Exec(cfg, s, steps).executed ==> HasStarted(Exec(cfg, s, steps).db.calls, c)
  {
    assert forall t: Token :: OwnsRun(s, t);
    FencedExec(cfg, s, steps);
  }

  // ---------- fencing ----------

  /** Without a current, unexpired lease a Gate writes nothing: not a result, not even a denial. */
  lemma StaleGateWritesNothing(cfg: Config, s: System, t: Token, outcome: Outcome)
    requires !HoldsLease(s.db, Unit(s.now, t, ""))
    ensures Next(cfg, s, Advance(t, outcome)).db == s.db
  {
    hide Evolves, DecideInvoke, DecideReentry, DecideInternal, DecideLoad, CreateInvocation, ApprovalStore.Create,
         TransitionRun, Load, Claim, RecordBudgetDelta, ClaimTransaction, ResumeClaim, Consume, AddFacts;
    var gate := GateOf(s, t);
    if gate.Persisting? {
      assert !HoldsLease(s.db, Unit(s.now, t, gate.pass.req.actor));
    }
  }

  /** A call in a terminal status never changes again, whatever happens next. */
  lemma TerminalCallIsFrozen(cfg: Config, s: System, steps: seq<Step>, c: CallId)
    requires c in s.db.calls && TerminalCall(s.db.calls[c].status)
    ensures c in Exec(cfg, s, steps).db.calls && Exec(cfg, s, steps).db.calls[c] == s.db.calls[c]
  {
    ExecEvolves(cfg, s, steps);
  }

  /**
    Once recovery has marked a STARTED call UNKNOWN_RESULT, nobody can report a result for it any
    more: the row is as recovery wrote it for ever, and a Gate that still comes with a result of
    that call, the former owner's or another's, writes nothing and denies the call.
   */
  lemma RecoveryFencesTheOwner(cfg: Config, s: System, t: Token, steps: seq<Step>, c: CallId, late: Token,
      outcome: Outcome)
    requires c in s.db.calls && s.db.calls[c].status.Started?
    requires HasStarted(Next(cfg, s, Step.Recover(t)).db.calls, c)
    requires Next(cfg, s, Step.Recover(t)).db.calls[c].status.UnknownResult?
    ensures var marked := Next(cfg, s, Step.Recover(t));
            var later := Exec(cfg, marked, steps);
            && c in later.db.calls && later.db.calls[c] == marked.db.calls[c]
            && (GateOf(later, late).Persisting? && GateOf(later, late).pass.req.call == c ==>
                  var after := Next(cfg, later, Advance(late, outcome));
                  after.db == later.db && GateOf(after, late)
                      == Denying(GateOf(later, late).pass.req, ResultWriteFailed))
  {
    hide Next, Exec, Evolves;
    var marked := Next(cfg, s, Step.Recover(t));
    TerminalCallIsFrozen(cfg, marked, steps, c);
    var later := Exec(cfg, marked, steps);
    if GateOf(later, late).Persisting? && GateOf(later, late).pass.req.call == c {
      LateResultDenied(cfg, later, late, outcome);
    }
  }

  lemma LateResultDenied(cfg: Config, s: System, t: Token, outcome: Outcome)
    requires GateOf(s, t).Persisting?
    requires var c := GateOf(s, t).pass.req.call; c in s.db.calls && !s.db.calls[c].status.Started?
    ensures var after := Next(cfg, s, Advance(t, outcome));
            after.db == s.db && GateOf(after, t) == Denying(GateOf(s, t).pass.req, ResultWriteFailed)
  {
    hide Quiet, Evolves, AddFacts, Load, Consume, TransitionInvocation;
  }

  /**
    A handler is let run exactly by the step in which its Gate is ready, its lease holds and its call
    is PREPARED.  The run status is not looked at: a call can start in a run that is not RUNNING.
   */
  lemma HandlersStartExactly(cfg: Config, s: System, step: Step, t: Token)
    requires !GateOf(s, t).Executing?
    ensures var g, after := GateOf(s, t), Next(cfg, s, step);
            && (GateOf(after, t).Executing? <==>
                  && step.Advance? && step.token == t && g.Starting?
                  && HoldsLease(s.db, Unit(s.now, t, g.pass.req.actor))
                  && g.pass.req.call in s.db.calls && s.db.calls[g.pass.req.call].status.Prepared?)
            && (GateOf(after, t).Executing? ==>
                  && GateOf(after, t) == Executing(g.pass)
                  && after.db.run.status == s.db.run.status && after.db.approvals == s.db.approvals)
  {
    hide Quiet, Evolves, StoreStep, TakeTurn;
    if step.Advance? && step.token == t {
      if GateOf(s, t).Starting? {
        ReadyTurn(cfg, GateOf(s, t), s.db, s.now, t, step.outcome);
        StartingTurn(cfg, GateOf(s, t), s.db, s.now, t, step.outcome);
      } else {
        OtherTurn(cfg, GateOf(s, t), s.db, s.now, t, step.outcome);
      }
    }
  }

  lemma ReadyTurn(cfg: Config, g: Gate, db: Db, now: Time, t: Token, outcome: Outcome)
    requires g.Starting?
    ensures TakeTurn(cfg, g, db, now, t, outcome).gate.Executing? <==>
              && HoldsLease(db, Unit(now, t, g.pass.req.actor))
              && g.pass.req.call in db.calls && db.calls[g.pass.req.call].status.Prepared?
  {
    hide Evolves, Quiet;
  }

  // ---------- equivalent calls ----------

  /** How many equivalent calls of a tool may ever leave PREPARED. */
  function MaxRuns(cfg: Config, spec: ToolSpec): nat {
    if spec.risk.Read? then cfg.readLimit
    else if cfg.writeLimit < 1 then cfg.writeLimit else 1
  }

  predicate CurrentToken(db: Db, t: Token) {
    db.lease.Some? && db.lease.value.token == t
  }

  /** The Gate states that act on an earlier repeat check. */
  predicate Checked(g: Gate) {
    g.ClaimingApproval? || g.PreparingCall? || g.RecordingReentry? || g.ResumingClaim? || g.Starting?
  }

  /** ... and those whose call row exists already. */
  predicate Bound(g: Gate) {
    g.ClaimingApproval? || g.RecordingReentry? || g.ResumingClaim? || g.Starting?
  }

  predicate PassFits(cfg: Config, pass: Pass) {
    if pass.internal then pass.req.tool in cfg.internal
    else
      && pass.req.tool in cfg.registry
      && pass.spec == cfg.registry[pass.req.tool]
      && pass.seen < ExecutionLimit(cfg, pass.spec)
      && (!pass.spec.risk.Read? ==> pass.seen == 0)
  }

  predicate CallMatches(calls: map<CallId, Invocation>, pass: Pass) {
    pass.req.call in calls && calls[pass.req.call].tool == pass.req.tool && calls[pass.req.call].digest == pass.digest
  }

  /** While its token is current, what a Gate's snapshot counted is still the count. */
  ghost predicate CheckStands(cfg: Config, db: Db, t: Token, g: Gate) {
    Checked(g) ==>
      && PassFits(cfg, g.pass)
      && (Bound(g) ==> CallMatches(db.calls, g.pass))
      && (CurrentToken(db, t) && !g.pass.internal ==>
            g.pass.seen == |Equivalent(db.calls, g.pass.req.tool, g.pass.digest)|)
  }

  ghost predicate WithinLimits(cfg: Config, calls: map<CallId, Invocation>) {
    forall tool, digest :: tool in cfg.registry ==> |Equivalent(calls, tool, digest)| <= MaxRuns(cfg,
        cfg.registry[tool])
  }

  ghost predicate Suppressed(cfg: Config, s: System) {
    && ValidConfig(cfg)
    && (s.db.lease.Some? ==> s.db.lease.value.token < s.db.nextToken)
    && (forall t: Token :: !GateOf(s, t).Idle? ==> t < s.db.nextToken)
    && (forall t: Token :: CheckStands(cfg, s.db, t, GateOf(s, t)))
    && WithinLimits(cfg, s.db.calls)
  }

  lemma QuietKeepsEquivalent(a: Db, b: Db, tool: Tool, digest: nat)
    requires Quiet(a, b)
    ensures Equivalent(b.calls, tool, digest) == Equivalent(a.calls, tool, digest)
  {
    forall c ensures c in Equivalent(b.calls, tool, digest) <==> c in Equivalent(a.calls, tool, digest) {
      if c in b.calls && !b.calls[c].status.Prepared? {
        assert HasStarted(b.calls, c);
        assert HasStarted(a.calls, c);
        assert CallAdvances(a.calls[c], b.calls[c]);
      }
    }
  }

  lemma StartedSameCall(a: Db, b: Db, t: Token, c: CallId)
    requires StartsCall(a, b, t, c)
    ensures c in a.calls && a.calls[c].status.Prepared? && c in b.calls && b.calls[c].status.Started?
    ensures b.calls == a.calls[c := b.calls[c]] && SameCall(a.calls[c], b.calls[c])
  {
    assert CallAdvances(a.calls[c], b.calls[c]);
  }

  lemma OneMoreEquivalent(a: map<CallId, Invocation>, b: map<CallId, Invocation>, c: CallId, tool: Tool, digest: nat)
    requires c in a && a[c].status.Prepared? && c in b && b[c].status.Started? && b == a[c := b[c]]
             && SameCall(a[c], b[c])
    ensures Equivalent(b, tool, digest)
         == Equivalent(a, tool, digest) + (if a[c].tool == tool && a[c].digest == digest then {c} else {})
    ensures c !in Equivalent(a, tool, digest)
  {
  }

  lemma StartAddsOne(a: Db, b: Db, t: Token, c: CallId, tool: Tool, digest: nat)
    requires StartsCall(a, b, t, c)
    ensures c in a.calls
    ensures |Equivalent(b.calls, tool, digest)|
         == |Equivalent(a.calls, tool, digest)| + (if a.calls[c].tool == tool && a.calls[c].digest == digest then 1
             else 0)
  {
    hide StartsCall, Equivalent;
    StartedSameCall(a, b, t, c);
    OneMoreEquivalent(a.calls, b.calls, c, tool, digest);
  }

  /** A Gate that keeps its state through a quiet transaction keeps its check. */
  lemma QuietKeepsCheck(cfg: Config, a: Db, b: Db, t: Token, g: Gate)
    requires Quiet(a, b) && CheckStands(cfg, a, t, g)
    requires !g.Idle? ==> t < a.nextToken
    ensures CheckStands(cfg, b, t, g)
  {
    if Checked(g) {
      QuietKeepsEquivalent(a, b, g.pass.req.tool, g.pass.digest);
      if Bound(g) {
        assert CallAdvances(a.calls[g.pass.req.call], b.calls[g.pass.req.call]);
      }
    }
  }

  lemma QuietKeepsLimits(cfg: Config, a: Db, b: Db)
    requires Quiet(a, b) && WithinLimits(cfg, a.calls)
    ensures WithinLimits(cfg, b.calls)
  {
    forall tool, digest | tool in cfg.registry
      ensures |Equivalent(b.calls, tool, digest)| <= MaxRuns(cfg, cfg.registry[tool])
    {
      QuietKeepsEquivalent(a, b, tool, digest);
    }
  }

  /** The snapshot decisions hand on only checks that hold in the snapshot. */
  lemma DecisionsStand(cfg: Config, db: Db, u: Unit, req: Request, allowed: set<RunStatus>, readOnly: bool)
    requires ValidConfig(cfg)
    requires db.approvals.Keys <= db.calls.Keys
    ensures CheckStands(cfg, db, u.token, DecideInvoke(cfg, db, u, req))
    ensures CheckStands(cfg, db, u.token, DecideLoad(db, u, req))
    ensures CheckStands(cfg, db, u.token, DecideReentry(cfg, db, u, req))
    ensures CheckStands(cfg, db, u.token, DecideInternal(cfg, db, u, req, allowed, readOnly))
  {
    hide RequestFault, BudgetSpent, RecoveryBudgetSpent, DuplicateCode, ApprovalCode;
  }

  lemma SuppressedStart(cfg: Config, s: System, s': System, t: Token)
    requires Suppressed(cfg, s) && GateOf(s, t).Starting?
    requires StartsCall(s.db, s'.db, t, GateOf(s, t).pass.req.call)
    requires s'.gates == s.gates[t := Executing(GateOf(s, t).pass)]
    ensures Suppressed(cfg, s')
  {
    var pass := GateOf(s, t).pass;
    var c := pass.req.call;
    assert CheckStands(cfg, s.db, t, GateOf(s, t));
    forall tool, digest | tool in cfg.registry
      ensures |Equivalent(s'.db.calls, tool, digest)| <= MaxRuns(cfg, cfg.registry[tool])
    {
      StartAddsOne(s.db, s'.db, t, c, tool, digest);
    }
    forall t': Token | !GateOf(s', t').Idle? ensures t' < s'.db.nextToken {
      assert !GateOf(s, t').Idle?;
    }
    forall t': Token ensures CheckStands(cfg, s'.db, t', GateOf(s', t')) {
      assert CheckStands(cfg, s.db, t', GateOf(s, t'));
      if t' != t && Checked(GateOf(s, t')) && Bound(GateOf(s, t')) {
        assert CallAdvances(s.db.calls[GateOf(s, t').pass.req.call], s'.db.calls[GateOf(s, t').pass.req.call]);
      }
    }
  }

  /** A transaction that starts nothing; at most the Gate of `u` moves, to a state whose check stands. */
  lemma SuppressedQuiet(cfg: Config, s: System, s': System, u: Token)
    requires Suppressed(cfg, s) && Quiet(s.db, s'.db)
    requires s'.gates == s.gates || s'.gates == s.gates[u := GateOf(s', u)]
    requires || GateOf(s', u) == GateOf(s, u)
             || ((GateOf(s', u).Idle? || u < s.db.nextToken) && CheckStands(cfg, s'.db, u, GateOf(s', u)))
    ensures Suppressed(cfg, s')
  {
    QuietKeepsLimits(cfg, s.db, s'.db);
    forall t: Token ensures CheckStands(cfg, s'.db, t, GateOf(s', t)) && (!GateOf(s', t).Idle? ==> t < s.db.nextToken) {
      assert CheckStands(cfg, s.db, t, GateOf(s, t));
      assert t != u ==> GateOf(s', t) == GateOf(s, t);
      if GateOf(s', t) == GateOf(s, t) {
        QuietKeepsCheck(cfg, s.db, s'.db, t, GateOf(s, t));
      }
    }
  }

  /** A turn that starts nothing leaves the Gate in a state whose check stands. */
  lemma TurnKeepsCheck(cfg: Config, gate: Gate, db: Db, now: Time, t: Token, outcome: Outcome)
    requires ValidConfig(cfg) && db.approvals.Keys <= db.calls.Keys
    requires !gate.Starting? && CheckStands(cfg, db, t, gate) && t < db.nextToken
    ensures var turn := TakeTurn(cfg, gate, db, now, t, outcome);
            CheckStands(cfg, turn.db, t, turn.gate)
  {
    hide Quiet, Evolves, OpenApproval, PollApproval, ClaimAndAllow, PrepareAndAllow, RecordRecoveryAllow,
         ResumeOrClaim, PersistResult, LogDenial, DecideInvoke, DecideLoad, DecideReentry, DecideInternal,
         CheckStands;
    var turn := TakeTurn(cfg, gate, db, now, t, outcome);
    OtherTurn(cfg, gate, db, now, t, outcome);
    UncheckedStands(cfg, turn.db, t, turn.gate);
    match gate
    case Loading(req) => DecisionsStand(cfg, db, Unit(now, t, req.actor), req, {}, false);
    case Snapshotting(req) => DecisionsStand(cfg, db, Unit(now, t, req.actor), req, {}, false);
    case SnapshottingReentry(req) => DecisionsStand(cfg, db, Unit(now, t, req.actor), req, {}, false);
    case SnapshottingInternal(req, allowed, readOnly) => DecisionsStand(cfg, db, Unit(now, t, req.actor), req, allowed,
        readOnly);
    case ClaimingApproval(pass) => CarryCheck(cfg, db, turn.db, t, gate, Gate.Starting(pass));
    case RecordingReentry(pass) => CarryCheck(cfg, db, turn.db, t, gate, Gate.Starting(pass));
    case ResumingClaim(pass) => CarryCheck(cfg, db, turn.db, t, gate, Gate.Starting(pass));
    case PreparingCall(pass) =>
      if turn.gate.Starting? {
        PreparedMatches(db, Unit(now, t, pass.req.actor), pass);
        CarryCheck(cfg, db, turn.db, t, gate, Gate.Starting(pass));
      }
    case _ =>
  }

  lemma UncheckedStands(cfg: Config, db: Db, t: Token, g: Gate)
    ensures !Checked(g) ==> CheckStands(cfg, db, t, g)
  {
  }

  lemma CarryCheck(cfg: Config, a: Db, b: Db, t: Token, g: Gate, g': Gate)
    requires Quiet(a, b) && CheckStands(cfg, a, t, g) && Checked(g) && t < a.nextToken
    requires g'.Starting? && g'.pass == g.pass
    requires Bound(g) || CallMatches(b.calls, g.pass)
    ensures CheckStands(cfg, b, t, g')
  {
    QuietKeepsEquivalent(a, b, g.pass.req.tool, g.pass.digest);
    if Bound(g) {
      assert CallAdvances(a.calls[g.pass.req.call], b.calls[g.pass.req.call]);
    }
  }

  lemma PreparedMatches(db: Db, u: Unit, pass: Pass)
    requires PrepareAndAllow(db, u, pass).Ok?
    ensures CallMatches(PrepareAndAllow(db, u, pass).value.calls, pass)
  {
    hide Quiet, Evolves;
  }

  lemma SuppressedMeans(cfg: Config, s: System)
    requires Suppressed(cfg, s)
    ensures ValidConfig(cfg)
    ensures forall t: Token :: !GateOf(s, t).Idle? ==> t < s.db.nextToken
    ensures forall t: Token :: CheckStands(cfg, s.db, t, GateOf(s, t))
  {
  }

  lemma SuppressedNext(cfg: Config, s: System, step: Step)
    requires Suppressed(cfg, s) && s.db.approvals.Keys <= s.db.calls.Keys
    ensures Suppressed(cfg, Next(cfg, s, step))
  {
    hide Evolves, Quiet, TakeTurn, StoreStep, Suppressed, StartsCall, CheckStands;
    var s' := Next(cfg, s, step);
    QuietReflexive(s.db);
    SuppressedMeans(cfg, s);
    if step.Advance? {
      var t, gate := step.token, GateOf(s, step.token);
      UncheckedStands(cfg, s'.db, t, GateOf(s', t));
      if gate.Starting? {
        StartingTurn(cfg, gate, s.db, s.now, t, step.outcome);
        if GateOf(s', t).Executing? {
          SuppressedStart(cfg, s, s', t);
        } else {
          SuppressedQuiet(cfg, s, s', t);
        }
      } else {
        OtherTurn(cfg, gate, s.db, s.now, t, step.outcome);
        if !gate.Idle? {
          TurnKeepsCheck(cfg, gate, s.db, s.now, t, step.outcome);
        }
        SuppressedQuiet(cfg, s, s', t);
      }
    } else {
      var t := if step.Submit? || step.Crash? then step.token else 0;
      UncheckedStands(cfg, s'.db, t, GateOf(s', t));
      SuppressedQuiet(cfg, s, s', t);
    }
  }

  lemma {:induction false} SuppressedExec(cfg: Config, s: System, steps: seq<Step>)
    requires Suppressed(cfg, s) && s.db.approvals.Keys <= s.db.calls.Keys
    ensures Suppressed(cfg, Exec(cfg, s, steps))
    decreases |steps|
  {
    if steps != [] {
      SuppressedNext(cfg, s, steps[0]);
      NextEvolves(cfg, s, steps[0]);
      SuppressedExec(cfg, Next(cfg, s, steps[0]), steps[1..]);
    }
  }

  lemma InitialSuppressed(cfg: Config, s: System)
    requires Initial(cfg, s)
    ensures Suppressed(cfg, s)
  {
    assert forall tool, digest :: Equivalent(s.db.calls, tool, digest) == {};
  }

  /**
    In every run, at most one call with a given tool and arguments ever leaves PREPARED when the
    tool is not a reader, and at most the configured number when it is.
   */
  lemma EquivalentCallsAreSuppressed(cfg: Config, s: System, steps: seq<Step>, tool: Tool, digest: nat)
    requires Initial(cfg, s) && tool in cfg.registry
    ensures |Equivalent(Exec(cfg, s, steps).db.calls, tool, digest)| <= MaxRuns(cfg, cfg.registry[tool])
  {
    InitialSuppressed(cfg, s);
    SuppressedExec(cfg, s, steps);
  }
}
