/**
  What every stored approval satisfies in every reachable state, and what it takes for a call
  that needs an approval to start.
 */
module Approvals {
  import opened Domain
  import opened Wrappers
  import opened ApprovalStore
  import opened Gate
  import opened Protocol
  import opened Execution
  import opened ApprovalEffects
  import opened StepEffects

  // ---------- rows ----------

  predicate Claimable(s: ApprovalStatus) {
    s.Claimed? || s.Consumed?
  }

  predicate Granted(s: ApprovalStatus) {
    s.Approved? || Claimable(s)
  }

  /** `Approval.model_post_init`: which fields a row of each status carries, and their order in time. */
  predicate Coherent(a: Approval) {
    && a.requestedAt < a.expiresAt
    && a.roles != {}
    && (Granted(a.status) || a.status.Rejected? ==> a.decidedAt.Some? && a.decidedBy.Some?)
    && (Claimable(a.status) <==> a.claimedAt.Some?)
    && (Claimable(a.status) <==> a.intent.Some?)
    && (a.status.Pending? ==> a.decidedAt.None? && a.decidedBy.None?)
    && (a.status.Consumed? <==> a.consumedAt.Some?)
    && (!a.status.Consumed? ==> a.consumptionCode.None?)
    && (a.decidedAt.Some? ==> a.requestedAt <= a.decidedAt.value)
    && (a.claimedAt.Some? && a.decidedAt.Some? ==> a.decidedAt.value <= a.claimedAt.value)
    && (a.consumedAt.Some? && a.decidedAt.Some? ==> a.decidedAt.value <= a.consumedAt.value)
    && (a.consumedAt.Some? && a.claimedAt.Some? ==> a.claimedAt.value <= a.consumedAt.value)
  }

  predicate Past(t: Option<Time>, now: Time) {
    t.Some? ==> t.value <= now
  }

  /** The log entry of a decision that lets `a` be used. */
  predicate Grants(e: Entry, a: Approval) {
    && e.event.ApprovalDecided? && e.event.approval == a.id && e.event.granted
    && e.event.approver == e.actor && e.actor != a.requestedBy
    && !(a.roles !! e.event.roles)
    && e.at < a.expiresAt
  }

  predicate ClaimedBy(e: Entry, a: Approval, c: CallId) {
    e.event == ApprovalClaimed(a.id, c) && e.at < a.expiresAt
  }

  ghost predicate GrantLogged(log: AuditLog, a: Approval) {
    exists i :: 0 <= i < |log| && Grants(log[i].entry, a)
  }

  /** A grant and, after it, a claim for this very call, both before the approval expired. */
  ghost predicate Authorized(log: AuditLog, a: Approval, c: CallId) {
    exists i, j :: 0 <= i < j < |log| && Grants(log[i].entry, a) && ClaimedBy(log[j].entry, a, c)
  }

  /** What a row says about the call and the run it is bound to. */
  predicate TermsHold(cfg: Config, db: Db, c: CallId)
    requires c in db.approvals
  {
    && BindingHolds(db, c)
    && RequiresApproval(cfg, db.approvals[c].tool)
    && db.approvals[c].roles == cfg.approvalRoles
    && db.approvals[c].id < db.nextId
  }

  /** What a row says about its own past. */
  ghost predicate HistoryHolds(log: AuditLog, a: Approval, c: CallId, now: Time) {
    && Coherent(a)
    && a.requestedAt <= now && Past(a.decidedAt, now) && Past(a.claimedAt, now)
    && (a.claimedAt.Some? ==> a.claimedAt.value < a.expiresAt)
    && (a.intent.Some? ==> a.intent.value == c)
    && (a.status.Approved? ==> GrantLogged(log, a))
    && (Claimable(a.status) ==> Authorized(log, a, c))
  }

  ghost predicate RowsOk(cfg: Config, db: Db, now: Time) {
    && (forall c :: c in db.approvals ==> TermsHold(cfg, db, c) && HistoryHolds(db.audit, db.approvals[c], c, now))
    && (forall c, d :: c in db.approvals && d in db.approvals && db.approvals[c].id == db.approvals[d].id ==> c == d)
  }

  // ---------- how one row moves ----------

  predicate SameTerms(a: Approval, b: Approval) {
    && a.id == b.id && a.tool == b.tool && a.digest == b.digest && a.binding == b.binding
    && a.requestedBy == b.requestedBy && a.roles == b.roles
    && a.requestedAt == b.requestedAt && a.expiresAt == b.expiresAt
  }

  ghost predicate RowMoves(a: Db, b: Db, now: Time, c: CallId)
    requires c in a.approvals && c in b.approvals
  {
    var r, r' := a.approvals[c], b.approvals[c];
    || r' == r
    || (Due(r, now) && r' == ExpiredRow(r))
    || ((Active(r.status) || r.status.Claimed?) && r' == WithdrawnRow(r))
    || (exists actor, roles, grant :: Decides(a, b, Unit(now, 0, actor), c, roles, grant))
    || (exists actor :: Claims(a, b, Unit(now, 0, actor), c))
    || (r.status.Claimed? && exists code :: r' == ConsumedRow(r, now, code))
  }

  ghost predicate RowsMove(a: Db, b: Db, now: Time) {
    && a.approvals.Keys <= b.approvals.Keys
    && forall c :: c in a.approvals ==> RowMoves(a, b, now, c)
  }

  lemma SettlesMoves(mid: Db, b: Db)
    requires Settles(mid, b)
    ensures b.approvals.Keys == mid.approvals.Keys
    ensures forall c :: c in mid.approvals ==>
              || b.approvals[c] == mid.approvals[c]
              || ((Active(mid.approvals[c].status) || mid.approvals[c].status.Claimed?)
                  && b.approvals[c] == WithdrawnRow(mid.approvals[c]))
  {
    if !Passive(mid, b) && !Blocks(mid, b) {
      var d, marked :| MarksUnknown(mid, marked, d) && Blocks(marked, b);
    }
  }

  lemma RecoversMoves(a: Db, b: Db, now: Time)
    requires Recovers(a, b, now)
    ensures RowsMove(a, b, now)
  {
    hide Settles, RowMoves;
    var mid :| Expiry(a, mid, now) && Settles(mid, b);
    SettlesMoves(mid, b);
    forall c | c in a.approvals ensures RowMoves(a, b, now, c) {
      OneOfTwoMoves(a, mid, b, now, c);
    }
  }

  /** A row that lapsed is not withdrawn on top of that: it moves once. */
  lemma OneOfTwoMoves(a: Db, mid: Db, b: Db, now: Time, c: CallId)
    requires c in a.approvals && c in mid.approvals && c in b.approvals
    requires var r, m, r' := a.approvals[c], mid.approvals[c], b.approvals[c];
             && (m == r || (Due(r, now) && m == ExpiredRow(r)))
             && (r' == m || ((Active(m.status) || m.status.Claimed?) && r' == WithdrawnRow(m)))
    ensures RowMoves(a, b, now, c)
  {
    hide Decides, Claims;
  }

  lemma KindMoves(cfg: Config, a: Db, b: Db, now: Time, k: Kind)
    requires Shows(cfg, a, b, now, k)
    ensures RowsMove(a, b, now)
    ensures !k.Opening? ==> b.approvals.Keys == a.approvals.Keys
  {
    hide Evolves, FreshRow, Recovers, HarnessMove;
    match k
    case Recovering =>
      RecoversMoves(a, b, now);
      RecoversKeepsKeys(a, b, now);
    case Deciding(actor, c, roles, grant) => assert RowMoves(a, b, now, c);
    case Claiming(actor, c) => assert RowMoves(a, b, now, c);
    case _ =>
  }

  lemma RecoversKeepsKeys(a: Db, b: Db, now: Time)
    requires Recovers(a, b, now)
    ensures b.approvals.Keys == a.approvals.Keys
  {
  }

  lemma GrantLoggedGrows(log: AuditLog, log': AuditLog, a: Approval, b: Approval)
    requires log <= log' && SameTerms(a, b) && GrantLogged(log, a)
    ensures GrantLogged(log', b)
  {
    var i :| 0 <= i < |log| && Grants(log[i].entry, a);
    assert log'[i] == log[i];
    assert Grants(log'[i].entry, b);
  }

  lemma AuthorizedGrows(log: AuditLog, log': AuditLog, a: Approval, b: Approval, c: CallId)
    requires log <= log' && SameTerms(a, b) && Authorized(log, a, c)
    ensures Authorized(log', b, c)
  {
    var i, j :| 0 <= i < j < |log| && Grants(log[i].entry, a) && ClaimedBy(log[j].entry, a, c);
    assert log'[i] == log[i] && log'[j] == log[j];
    assert Grants(log'[i].entry, b) && ClaimedBy(log'[j].entry, b, c);
  }

  lemma RowKeepsHistory(a: Db, b: Db, before: Time, now: Time, c: CallId)
    requires Evolves(a, b) && c in a.approvals && c in b.approvals && RowMoves(a, b, now, c)
    requires before <= now && HistoryHolds(a.audit, a.approvals[c], c, before)
    ensures SameTerms(a.approvals[c], b.approvals[c])
    ensures HistoryHolds(b.audit, b.approvals[c], c, now)
  {
    hide Evolves, GrantLogged, Authorized;
    var r, r' := a.approvals[c], b.approvals[c];
    assert a.audit <= b.audit by { EvolvesGrowsLog(a, b); }
    assert SameTerms(r, r');
    if GrantLogged(a.audit, r) { GrantLoggedGrows(a.audit, b.audit, r, r'); }
    if Authorized(a.audit, r, c) { AuthorizedGrows(a.audit, b.audit, r, r', c); }
    if actor, roles, grant :| Decides(a, b, Unit(now, 0, actor), c, roles, grant) {
      if grant { DecisionGrants(a, b, Unit(now, 0, actor), c, roles); }
    } else if actor :| Claims(a, b, Unit(now, 0, actor), c) {
      ClaimAuthorizes(a, b, Unit(now, 0, actor), c);
    }
  }

  lemma EvolvesGrowsLog(a: Db, b: Db)
    requires Evolves(a, b)
    ensures a.audit <= b.audit
  {
  }

  lemma DecisionGrants(a: Db, b: Db, u: Unit, c: CallId, roles: set<Role>)
    requires Decides(a, b, u, c, roles, true)
    ensures c in b.approvals && GrantLogged(b.audit, b.approvals[c])
  {
    assert Grants(b.audit[|a.audit|].entry, b.approvals[c]);
  }

  lemma ClaimAuthorizes(a: Db, b: Db, u: Unit, c: CallId)
    requires a.audit <= b.audit && Claims(a, b, u, c) && GrantLogged(a.audit, a.approvals[c])
    ensures Authorized(b.audit, b.approvals[c], c)
  {
    var i :| 0 <= i < |a.audit| && Grants(a.audit[i].entry, a.approvals[c]);
    var j :| |a.audit| <= j < |b.audit| && b.audit[j].entry
        == Entry(u.actor, u.now, ApprovalClaimed(a.approvals[c].id, c));
    assert b.audit[i] == a.audit[i];
    assert Grants(b.audit[i].entry, b.approvals[c]) && ClaimedBy(b.audit[j].entry, b.approvals[c], c);
  }

  /** Terms bind to columns that never change once the row exists. */
  lemma RowKeepsTerms(cfg: Config, a: Db, b: Db, c: CallId)
    requires Evolves(a, b) && c in a.approvals && c in b.approvals && SameTerms(a.approvals[c], b.approvals[c])
    requires TermsHold(cfg, a, c)
    ensures TermsHold(cfg, b, c)
  {
    assert CallAdvances(a.calls[c], b.calls[c]);
  }

  lemma FreshHistory(cfg: Config, a: Db, b: Db, u: Unit, pass: Pass, existing: bool)
    requires Opens(cfg, a, b, u, pass, existing)
    requires ValidConfig(cfg) && cfg.approvalRoles != {} && RequiresApproval(cfg, pass.req.tool)
    requires pass.req.call in a.calls ==> a.calls[pass.req.call].tool == pass.req.tool
    ensures TermsHold(cfg, b, pass.req.call)
    ensures HistoryHolds(b.audit, b.approvals[pass.req.call], pass.req.call, u.now)
  {
    hide RequiresApproval;
  }

  lemma RowsStay(cfg: Config, a: Db, b: Db, before: Time, now: Time, k: Kind)
    requires Evolves(a, b) && Shows(cfg, a, b, now, k) && before <= now && RowsOk(cfg, a, before)
    requires ValidConfig(cfg)
    requires k.Opening? ==>
               && cfg.approvalRoles != {} && RequiresApproval(cfg, k.pass.req.tool)
               && (k.pass.req.call in a.calls ==> a.calls[k.pass.req.call].tool == k.pass.req.tool)
    ensures RowsOk(cfg, b, now)
  {
    hide Evolves, TermsHold, HistoryHolds, RowMoves, Shows, FreshRow, RequiresApproval;
    KindMoves(cfg, a, b, now, k);
    forall c | c in a.approvals
      ensures SameTerms(a.approvals[c], b.approvals[c]) && TermsHold(cfg, b, c)
              && HistoryHolds(b.audit, b.approvals[c], c, now)
    {
      RowKeepsHistory(a, b, before, now, c);
      RowKeepsTerms(cfg, a, b, c);
    }
    if k.Opening? {
      OpeningMeans(cfg, a, b, now, k);
      FreshHistory(cfg, a, b, Unit(now, 0, k.actor), k.pass, k.existing);
      forall c | c in a.approvals ensures a.approvals[c].id < a.nextId {
        TermsBoundId(cfg, a, c);
      }
    }
  }

  lemma TermsBoundId(cfg: Config, db: Db, c: CallId)
    requires c in db.approvals && TermsHold(cfg, db, c)
    ensures db.approvals[c].id < db.nextId
  {
  }

  lemma OpeningMeans(cfg: Config, a: Db, b: Db, now: Time, k: Kind)
    requires k.Opening? && Shows(cfg, a, b, now, k)
    ensures Opens(cfg, a, b, Unit(now, 0, k.actor), k.pass, k.existing)
    ensures b.approvals.Keys == a.approvals.Keys + {k.pass.req.call}
    ensures k.pass.req.call !in a.approvals && a.nextId <= b.approvals[k.pass.req.call].id
  {
  }

  // ---------- Gates ----------

  /** The Gate states between a positive decision and the end of the call. */
  predicate Passing(g: Gate) {
    g.ClaimingApproval? || g.PreparingCall? || g.RecordingReentry? || g.ResumingClaim?
    || g.Starting? || g.Executing? || g.Persisting?
  }

  predicate Underway(g: Gate) {
    g.Starting? || g.Executing? || g.Persisting?
  }

  ghost predicate AuthorizedCall(db: Db, c: CallId) {
    c in db.approvals && Authorized(db.audit, db.approvals[c], c)
  }

  /** A Gate passes a call along with an approval exactly when its tool needs one. */
  ghost predicate LaneOk(cfg: Config, db: Db, g: Gate) {
    && (g.OpeningApproval? ==>
          && RequiresApproval(cfg, g.pass.req.tool) && cfg.approvalRoles != {}
          && (g.existing ==> CallMatches(db.calls, g.pass)))
    && (Passing(g) ==>
          && (g.pass.approved <==> RequiresApproval(cfg, g.pass.req.tool))
          && (g.PreparingCall? || g.RecordingReentry? ==> !g.pass.approved)
          && (!g.PreparingCall? ==> CallMatches(db.calls, g.pass)))
    && (Underway(g) && g.pass.approved ==> AuthorizedCall(db, g.pass.req.call))
  }

  /** A call of a tool that needs an approval has one, and an authorised one once it has started. */
  ghost predicate CallCovered(cfg: Config, db: Db, c: CallId)
    requires c in db.calls
  {
    RequiresApproval(cfg, db.calls[c].tool) ==>
      c in db.approvals && (HasStarted(db.calls, c) ==> AuthorizedCall(db, c))
  }

  ghost predicate CallsCovered(cfg: Config, db: Db) {
    forall c :: c in db.calls ==> CallCovered(cfg, db, c)
  }

  ghost predicate Governed(cfg: Config, s: System) {
    && ValidConfig(cfg)
    && RowsOk(cfg, s.db, s.now)
    && CallsCovered(cfg, s.db)
    && (forall t: Token :: LaneOk(cfg, s.db, GateOf(s, t)))
  }

  lemma RowsHaveCalls(cfg: Config, db: Db, now: Time)
    requires RowsOk(cfg, db, now)
    ensures db.approvals.Keys <= db.calls.Keys
    ensures forall c :: c in db.approvals ==>
              && c in db.calls && db.calls[c].tool == db.approvals[c].tool
              && RequiresApproval(cfg, db.approvals[c].tool)
  {
    forall c | c in db.approvals
      ensures c in db.calls && db.calls[c].tool == db.approvals[c].tool && RequiresApproval(cfg, db.approvals[c].tool)
    {
      assert TermsHold(cfg, db, c);
    }
  }

  lemma DecisionsKeepLanes(cfg: Config, db: Db, u: Unit, req: Request, allowed: set<RunStatus>, readOnly: bool)
    requires ValidConfig(cfg) && CallsCovered(cfg, db)
    requires forall c :: c in db.approvals ==>
               c in db.calls && db.calls[c].tool == db.approvals[c].tool && RequiresApproval(cfg, db.approvals[c].tool)
    ensures LaneOk(cfg, db, DecideInvoke(cfg, db, u, req))
    ensures LaneOk(cfg, db, DecideLoad(db, u, req))
    ensures LaneOk(cfg, db, DecideReentry(cfg, db, u, req))
    ensures LaneOk(cfg, db, DecideInternal(cfg, db, u, req, allowed, readOnly))
  {
    hide RequestFault, RepeatFault, WriteReplay, BudgetSpent, RecoveryBudgetSpent, DuplicateCode, ApprovalCode,
         Equivalent, Authorized;
    if req.call in db.calls {
      assert CallCovered(cfg, db, req.call);
    }
  }

  lemma AuthorizedCallStays(cfg: Config, a: Db, b: Db, before: Time, now: Time, c: CallId)
    requires Evolves(a, b) && RowsMove(a, b, now) && RowsOk(cfg, a, before) && before <= now && AuthorizedCall(a, c)
    ensures AuthorizedCall(b, c)
  {
    hide Evolves, RowMoves, HistoryHolds, Authorized, TermsHold;
    EvolvesGrowsLog(a, b);
    RowKeepsHistory(a, b, before, now, c);
    AuthorizedGrows(a.audit, b.audit, a.approvals[c], b.approvals[c], c);
  }

  lemma CallMatchesStays(a: Db, b: Db, pass: Pass)
    requires Evolves(a, b) && CallMatches(a.calls, pass)
    ensures CallMatches(b.calls, pass)
  {
    assert CallAdvances(a.calls[pass.req.call], b.calls[pass.req.call]);
  }

  /** A Gate that keeps its state keeps its lane through every transaction of anyone. */
  lemma LaneStays(cfg: Config, a: Db, b: Db, before: Time, now: Time, g: Gate)
    requires Evolves(a, b) && RowsMove(a, b, now) && RowsOk(cfg, a, before) && before <= now && LaneOk(cfg, a, g)
    ensures LaneOk(cfg, b, g)
  {
    hide Evolves, RowsMove, RowsOk, AuthorizedCall, CallMatches, RequiresApproval;
    if (g.OpeningApproval? || Passing(g)) && CallMatches(a.calls, g.pass) {
      CallMatchesStays(a, b, g.pass);
    }
    if Underway(g) && g.pass.approved {
      AuthorizedCallStays(cfg, a, b, before, now, g.pass.req.call);
    }
  }

  lemma ClaimedRowIsAuthorized(cfg: Config, db: Db, now: Time, c: CallId)
    requires RowsOk(cfg, db, now) && c in db.approvals && db.approvals[c].status.Claimed?
    ensures AuthorizedCall(db, c)
  {
    assert HistoryHolds(db.audit, db.approvals[c], c, now);
  }

  lemma ClaimsAuthorize(cfg: Config, a: Db, b: Db, u: Unit, c: CallId)
    requires RowsOk(cfg, a, u.now) && Claims(a, b, u, c) && Evolves(a, b)
    ensures AuthorizedCall(b, c)
  {
    hide Authorized;
    assert HistoryHolds(a.audit, a.approvals[c], c, u.now);
    ClaimAuthorizes(a, b, u, c);
  }

  lemma RowsOkLater(cfg: Config, db: Db, before: Time, now: Time)
    requires RowsOk(cfg, db, before) && before <= now
    ensures RowsOk(cfg, db, now)
  {
    hide Authorized, GrantLogged, TermsHold;
  }

  /** The lane a Gate is in after its own turn. */
  lemma TurnKeepsLane(cfg: Config, gate: Gate, db: Db, now: Time, t: Token, outcome: Outcome)
    requires ValidConfig(cfg) && RowsOk(cfg, db, now) && CallsCovered(cfg, db) && LaneOk(cfg, db, gate)
    ensures var turn := TakeTurn(cfg, gate, db, now, t, outcome); LaneOk(cfg, turn.db, turn.gate)
  {
    hide Quiet, Evolves, OpenApproval, PollApproval, ClaimAndAllow, PrepareAndAllow, RecordRecoveryAllow,
         ResumeOrClaim, PersistResult, LogDenial, MarkStarted, DecideInvoke, DecideLoad, DecideReentry,
         DecideInternal, RowsOk, CallsCovered, RequiresApproval, AuthorizedCall, CallMatches, Claims, Passive, Shows,
         RowsMove, StartsCall;
    RowsHaveCalls(cfg, db, now);
    var turn := TakeTurn(cfg, gate, db, now, t, outcome);
    var k := TurnKind(cfg, gate, db, now, t, outcome);
    KindMoves(cfg, db, turn.db, now, k);
    TurnEvolves(cfg, gate, db, now, t, outcome);
    LaneStays(cfg, db, turn.db, now, now, gate);
    match gate
    case Snapshotting(req) => DecisionsKeepLanes(cfg, db, Unit(now, t, req.actor), req, {}, false);
    case Loading(req) => DecisionsKeepLanes(cfg, db, Unit(now, t, req.actor), req, {}, false);
    case SnapshottingReentry(req) => DecisionsKeepLanes(cfg, db, Unit(now, t, req.actor), req, {}, false);
    case SnapshottingInternal(req, allowed, readOnly) =>
      DecisionsKeepLanes(cfg, db, Unit(now, t, req.actor), req, allowed, readOnly);
    case ClaimingApproval(pass) =>
      var u := Unit(now, t, pass.req.actor);
      if ClaimAndAllow(db, u, pass).Ok? {
        ClaimAndAllowEffect(db, u, pass);
        ClaimsAuthorize(cfg, db, turn.db, u, pass.req.call);
      }
    case PreparingCall(pass) =>
      if PrepareAndAllow(db, Unit(now, t, pass.req.actor), pass).Ok? {
        PreparedMatches(db, Unit(now, t, pass.req.actor), pass);
      }
    case ResumingClaim(pass) =>
      var u := Unit(now, t, pass.req.actor);
      if ResumeOrClaim(db, u, pass).Ok? {
        ResumeAuthorizes(cfg, db, u, pass);
      }
    case _ =>
  }

  lemma ResumeAuthorizes(cfg: Config, db: Db, u: Unit, pass: Pass)
    requires RowsOk(cfg, db, u.now) && ResumeOrClaim(db, u, pass).Ok?
    ensures AuthorizedCall(ResumeOrClaim(db, u, pass).value, pass.req.call)
  {
    hide ResumeOrClaim, Evolves, AuthorizedCall, Claims, RowsOk;
    var b, c := ResumeOrClaim(db, u, pass).value, pass.req.call;
    ResumeOrClaimEffect(db, u, pass);
    QuietIsEvolves(db);
    if Claims(db, b, u, c) {
      ClaimsAuthorize(cfg, db, b, u, c);
    } else {
      ClaimedRowIsAuthorized(cfg, db, u.now, c);
      PassiveMoves(db, b, u.now);
      AuthorizedCallStays(cfg, db, b, u.now, u.now, c);
    }
  }

  lemma PassiveMoves(a: Db, b: Db, now: Time)
    requires Passive(a, b)
    ensures RowsMove(a, b, now)
  {
    hide Decides, Claims;
  }

  lemma TurnEvolves(cfg: Config, gate: Gate, db: Db, now: Time, t: Token, outcome: Outcome)
    ensures Evolves(db, TakeTurn(cfg, gate, db, now, t, outcome).db)
  {
    hide Quiet, Evolves, TakeTurn, StartsCall;
    QuietReflexive(db);
    QuietIsEvolves(db);
    if gate.Starting? {
      StartingTurn(cfg, gate, db, now, t, outcome);
      StartIsEvolves(db, TakeTurn(cfg, gate, db, now, t, outcome).db, t, gate.pass.req.call);
    } else {
      OtherTurn(cfg, gate, db, now, t, outcome);
    }
  }

  // ---------- every step ----------

  /** A call appears only by a Creation or an Opening; it starts only by a Starting step. */
  lemma KindCalls(cfg: Config, a: Db, b: Db, now: Time, k: Kind, c: CallId)
    requires Shows(cfg, a, b, now, k) && c in b.calls
    ensures c !in a.calls ==>
              || (k.Creation? && k.pass.req.call == c && b.calls[c].tool == k.pass.req.tool
                  && b.calls[c].status.Prepared?)
              || (k.Opening? && k.pass.req.call == c && c in b.approvals && b.calls[c].status.Prepared?)
    ensures c in a.calls ==> (HasStarted(b.calls, c) ==> HasStarted(a.calls, c) || (k.Starting? && k.call == c))
  {
    hide Evolves, Expiry, FreshRow, HarnessMove, BindingHolds;
    if k.Recovering? {
      RecoversCalls(a, b, now, c);
    } else if k.Lapsing? {
      LapsingCalls(a, b, now);
    }
  }

  lemma LapsingCalls(a: Db, b: Db, now: Time)
    requires Expiry(a, b, now)
    ensures a.calls == b.calls
  {
  }

  lemma RecoversCalls(a: Db, b: Db, now: Time, c: CallId)
    requires Recovers(a, b, now) && c in b.calls
    ensures c in a.calls
    ensures b.calls[c] == a.calls[c] || (a.calls[c].status.Started? && b.calls[c].status.UnknownResult?)
  {
    hide Expiry;
    var mid :| Expiry(a, mid, now) && Settles(mid, b);
    LapsingCalls(a, mid, now);
    if !Passive(mid, b) && !Blocks(mid, b) {
      var d, marked :| MarksUnknown(mid, marked, d) && Blocks(marked, b);
    }
  }

  lemma SameTool(a: Db, b: Db, c: CallId)
    requires Evolves(a, b) && c in a.calls
    ensures c in b.calls && a.calls[c].tool == b.calls[c].tool && a.calls[c].digest == b.calls[c].digest
    ensures HasStarted(a.calls, c) ==> HasStarted(b.calls, c)
    ensures a.approvals.Keys <= b.approvals.Keys
  {
    assert CallAdvances(a.calls[c], b.calls[c]);
  }

  lemma CallStaysCovered(cfg: Config, a: Db, b: Db, now: Time, k: Kind, c: CallId)
    requires Evolves(a, b) && Shows(cfg, a, b, now, k) && RowsOk(cfg, a, now) && CallsCovered(cfg, a) && c in b.calls
    requires k.Creation? ==> !RequiresApproval(cfg, k.pass.req.tool)
    requires k.Starting? && RequiresApproval(cfg, b.calls[c].tool) && k.call == c ==> AuthorizedCall(b, c)
    ensures CallCovered(cfg, b, c)
  {
    hide Evolves, Shows, RowsOk, RequiresApproval, AuthorizedCall, RowsMove, HasStarted;
    KindCalls(cfg, a, b, now, k, c);
    if c in a.calls {
      SameTool(a, b, c);
      assert CallCovered(cfg, a, c);
      if HasStarted(a.calls, c) && RequiresApproval(cfg, b.calls[c].tool) {
        KindMoves(cfg, a, b, now, k);
        AuthorizedCallStays(cfg, a, b, now, now, c);
      }
    } else {
      FreshNotStarted(b.calls, c);
    }
  }

  lemma FreshNotStarted(calls: map<CallId, Invocation>, c: CallId)
    requires c in calls && calls[c].status.Prepared?
    ensures !HasStarted(calls, c)
  {
  }

  lemma GovernedMeans(cfg: Config, s: System)
    requires Governed(cfg, s)
    ensures ValidConfig(cfg) && RowsOk(cfg, s.db, s.now) && CallsCovered(cfg, s.db)
    ensures forall t: Token :: LaneOk(cfg, s.db, GateOf(s, t))
    ensures s.db.approvals.Keys <= s.db.calls.Keys
  {
    hide LaneOk, CallCovered, HistoryHolds;
  }

  /** Where an Opening, a Creation or a Starting came from, its lane says what the step needs. */
  lemma LaneAllows(cfg: Config, s: System, k: Kind, g: Gate)
    requires LaneOk(cfg, s.db, g) && ComesFrom(k, g)
    ensures k.Opening? ==>
              && cfg.approvalRoles != {} && RequiresApproval(cfg, k.pass.req.tool)
              && (k.existing ==> CallMatches(s.db.calls, k.pass))
    ensures k.Creation? ==> !RequiresApproval(cfg, k.pass.req.tool)
    ensures k.Starting? ==>
              && g.Starting? && CallMatches(s.db.calls, g.pass) && g.pass.req.call == k.call
              && (RequiresApproval(cfg, g.pass.req.tool) ==> AuthorizedCall(s.db, k.call))
  {
    hide RequiresApproval, AuthorizedCall, CallMatches;
  }

  lemma OpeningTool(cfg: Config, a: Db, b: Db, now: Time, k: Kind)
    requires k.Opening? && Shows(cfg, a, b, now, k) && (k.existing ==> CallMatches(a.calls, k.pass))
    ensures k.pass.req.call in a.calls ==> a.calls[k.pass.req.call].tool == k.pass.req.tool
  {
  }

  lemma DataGoverned(cfg: Config, s: System, step: Step)
    requires Governed(cfg, s)
    ensures RowsOk(cfg, Next(cfg, s, step).db, s.now) && CallsCovered(cfg, Next(cfg, s, step).db)
    ensures RowsMove(s.db, Next(cfg, s, step).db, s.now)
  {
    hide Next, Evolves, Shows, RowsOk, Governed, LaneOk, RequiresApproval, AuthorizedCall, RowsMove, CallMatches,
         ComesFrom, CallCovered, ValidConfig, HasStarted;
    GovernedMeans(cfg, s);
    NextEvolves(cfg, s, step);
    var s' := Next(cfg, s, step);
    var k := StepKind(cfg, s, step);
    KindMoves(cfg, s.db, s'.db, s.now, k);
    if step.Advance? {
      LaneAllows(cfg, s, k, GateOf(s, step.token));
    }
    if k.Opening? {
      OpeningTool(cfg, s.db, s'.db, s.now, k);
    }
    RowsStay(cfg, s.db, s'.db, s.now, s.now, k);
    forall c | c in s'.db.calls ensures CallCovered(cfg, s'.db, c) {
      if k.Starting? && k.call == c && RequiresApproval(cfg, s'.db.calls[c].tool) {
        StartedWasAuthorized(cfg, s, s', k, GateOf(s, step.token));
      }
      CallStaysCovered(cfg, s.db, s'.db, s.now, k, c);
    }
  }

  lemma StartedWasAuthorized(cfg: Config, s: System, s': System, k: Kind, g: Gate)
    requires k.Starting? && g.Starting? && CallMatches(s.db.calls, g.pass) && g.pass.req.call == k.call
    requires RequiresApproval(cfg, g.pass.req.tool) ==> AuthorizedCall(s.db, k.call)
    requires Evolves(s.db, s'.db) && RowsMove(s.db, s'.db, s.now) && RowsOk(cfg, s.db, s.now)
    ensures k.call in s'.db.calls && (RequiresApproval(cfg, s'.db.calls[k.call].tool) ==> AuthorizedCall(s'.db, k.call))
  {
    hide Evolves, RowsMove, RowsOk, AuthorizedCall, RequiresApproval;
    SameTool(s.db, s'.db, k.call);
    if RequiresApproval(cfg, g.pass.req.tool) {
      AuthorizedCallStays(cfg, s.db, s'.db, s.now, s.now, k.call);
    }
  }

  lemma IdleLane(cfg: Config, db: Db, g: Gate)
    requires g.Idle? || EntersGate(g)
    ensures LaneOk(cfg, db, g)
  {
  }

  lemma GovernedNext(cfg: Config, s: System, step: Step)
    requires Governed(cfg, s)
    ensures Governed(cfg, Next(cfg, s, step))
  {
    hide Evolves, RowsOk, LaneOk, CallsCovered, RowsMove, TakeTurn, StoreStep, ValidConfig;
    GovernedMeans(cfg, s);
    DataGoverned(cfg, s, step);
    NextEvolves(cfg, s, step);
    var s' := Next(cfg, s, step);
    RowsOkLater(cfg, s'.db, s.now, s'.now);
    forall t: Token ensures LaneOk(cfg, s'.db, GateOf(s', t)) {
      if step.Advance? && step.token == t {
        TurnKeepsLane(cfg, GateOf(s, t), s.db, s.now, t, step.outcome);
      } else if GateOf(s', t) == GateOf(s, t) {
        LaneStays(cfg, s.db, s'.db, s.now, s.now, GateOf(s, t));
      } else {
        IdleLane(cfg, s'.db, GateOf(s', t));
      }
    }
  }

  lemma {:induction false} GovernedExec(cfg: Config, s: System, steps: seq<Step>)
    requires Governed(cfg, s)
    ensures Governed(cfg, Exec(cfg, s, steps))
    decreases |steps|
  {
    hide Governed, Next;
    if steps != [] {
      GovernedNext(cfg, s, steps[0]);
      GovernedExec(cfg, Next(cfg, s, steps[0]), steps[1..]);
    }
  }

  lemma InitialGoverned(cfg: Config, s: System)
    requires Initial(cfg, s)
    ensures Governed(cfg, s)
  {
    forall t: Token ensures LaneOk(cfg, s.db, GateOf(s, t)) {
      IdleLane(cfg, s.db, GateOf(s, t));
    }
  }

  /**
    In every run every stored approval keeps to the field rules of its status, is bound to its
    own call as stored, and belongs to a call that needs it.
   */
  lemma ApprovalsStayCoherent(cfg: Config, s: System, steps: seq<Step>, c: CallId)
    requires Initial(cfg, s) && c in Exec(cfg, s, steps).db.approvals
    ensures var db := Exec(cfg, s, steps).db;
            Coherent(db.approvals[c]) && BindingHolds(db, c) && RequiresApproval(cfg, db.calls[c].tool)
  {
    hide Exec, Initial, BindingOf, RequiresApproval;
    InitialGoverned(cfg, s);
    GovernedExec(cfg, s, steps);
    var db := Exec(cfg, s, steps).db;
    assert TermsHold(cfg, db, c) && HistoryHolds(db.audit, db.approvals[c], c, Exec(cfg, s, steps).now);
  }

  /** A registered tool that asks for an approval itself, or is made to by the configuration. */
  predicate Guarded(cfg: Config, tool: Tool) {
    tool in cfg.registry && (tool in cfg.approvalTools || cfg.registry[tool].approvalRequired)
  }

  /** The approval and the call name each other, and the approval is for this run as it was configured. */
  predicate BoundTo(run: Run, c: CallId, i: Invocation, a: Approval) {
    && a.tool == i.tool && a.digest == i.digest && i.approval == Some(a.id)
    && a.binding.call == c && a.binding.tool == i.tool && a.binding.digest == i.digest
    && a.binding.identity == run.identity && a.binding.config == run.config
    && a.binding.requestedBy == a.requestedBy && a.binding.roles == a.roles
    && a.binding.requestedAt == a.requestedAt && a.binding.expiresAt == a.expiresAt
  }

  /**
    In every run, by re-entry as by invocation: a call of a tool that needs an approval has run its
    handler only if an approval bound to this run, call, tool and argument digest was granted by
    someone other than its requester who held an allowed role, and was afterwards claimed for this
    call, both before it expired.
   */
  lemma NoUnapprovedExecution(cfg: Config, s: System, steps: seq<Step>, c: CallId)
    requires Initial(cfg, s) && c in Exec(cfg, s, steps).executed
    ensures var db := Exec(cfg, s, steps).db;
            && c in db.calls
            && (Guarded(cfg, db.calls[c].tool) ==>
                  && c in db.approvals && BoundTo(db.run, c, db.calls[c], db.approvals[c])
                  && Authorized(db.audit, db.approvals[c], c))
  {
    hide Exec, Authorized, NoDuplicates;
    AtMostOnce(cfg, s, steps);
    InitialGoverned(cfg, s);
    GovernedExec(cfg, s, steps);
    var db := Exec(cfg, s, steps).db;
    assert HasStarted(db.calls, c);
    assert CallCovered(cfg, db, c);
    if RequiresApproval(cfg, db.calls[c].tool) {
      assert TermsHold(cfg, db, c);
    }
  }
}
