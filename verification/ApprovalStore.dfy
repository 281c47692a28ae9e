/**
  The approval lifecycle of `ApprovalStore`.  An approval is addressed by the call it is bound
  to: the table holds at most one approval per call.
 */
module ApprovalStore {
  import opened Domain
  import opened Wrappers
  import opened StateStore

  function BindingOf(run: Run, c: CallId, tool: Tool, digest: nat, requestedBy: Actor, roles: set<Role>,
                     requestedAt: Time, expiresAt: Time): Binding {
    Binding(run.identity, c, tool, digest, run.config, requestedBy, roles, requestedAt, expiresAt)
  }

  /** `_validate_current_binding`: the approval still describes the run and the stored call. */
  predicate BindingHolds(db: Db, c: CallId)
    requires c in db.approvals
  {
    && c in db.calls
    && var a, i := db.approvals[c], db.calls[c];
    && a.binding == BindingOf(db.run, c, i.tool, i.digest, a.requestedBy, a.roles, a.requestedAt, a.expiresAt)
    && i.tool == a.tool && i.digest == a.digest && i.approval == Some(a.id)
  }

  /** A stop reason for the run that waits on an approval. */
  function StopRun(db: Db, u: Unit, reason: StopReason): (r: Result<Db>)
    ensures r.Ok? ==> Quiet(db, r.value)
  {
    TransitionRun(db, u, WaitingApproval, db.run.revision, Stopped, Some(reason), Some(NotEvaluated))
  }

  /** Replaces the row of `c` and raises its revision. */
  function PutApproval(db: Db, c: CallId, a: Approval): (r: Db)
    requires c in db.approvals
    ensures Quiet(db, r)
  {
    db.(approvals := db.approvals[c := a.(revision := a.revision + 1)])
  }

  /** `_expire`: an active row becomes EXPIRED and stops the run that waits for it. */
  function Expire(db: Db, u: Unit, c: CallId): (r: Result<Db>)
    requires c in db.approvals && Active(db.approvals[c].status)
    ensures r.Ok? ==> Quiet(db, r.value)
  {
    var a := db.approvals[c];
    var marked := Log(PutApproval(db, c, a.(status := ApprovalStatus.Expired)), u, ApprovalExpiredAt(a.id));
    if marked.run.status.WaitingApproval? then StopRun(marked, u, StopReason.ApprovalExpired) else Ok(marked)
  }

  predicate Due(a: Approval, now: Time) {
    Active(a.status) && a.expiresAt <= now
  }

  function MaterializeExpiry(db: Db, u: Unit, c: CallId): (r: Result<Db>)
    requires c in db.approvals
    ensures r.Ok? ==> Quiet(db, r.value)
    ensures !Due(db.approvals[c], u.now) ==> r == Ok(db)
  {
    if Due(db.approvals[c], u.now) then Expire(db, u, c) else Ok(db)
  }

  /** `load`: reads one approval, recording its expiry when it is due. */
  function Load(db: Db, u: Unit, c: CallId): (r: Result<Db>)
    ensures r.Ok? ==> Quiet(db, r.value) && c in db.approvals
    ensures HoldsLease(db, u) && c in db.approvals && !Due(db.approvals[c], u.now) ==> r == Ok(db)
  {
    if c !in db.approvals then Err(ApprovalNotFound)
    else if !HoldsLease(db, u) then Err(LeaseFault(db, u))
    else MaterializeExpiry(db, u, c)
  }

  datatype Ask = Ask(call: CallId, digest: nat, requestedBy: Actor, roles: set<Role>, ttl: nat)

  /** `create`: opens an approval for a PREPARED call of a RUNNING run. */
  function Create(db: Db, u: Unit, ask: Ask): (r: Result<Db>)
    ensures r.Ok? ==> Quiet(db, r.value)
  {
    var c := ask.call;
    if ask.requestedBy != u.actor then Err(ApprovalInvalid)
    else if !HoldsLease(db, u) then Err(LeaseFault(db, u))
    else if c !in db.calls then Err(ApprovalNotFound)
    else if ask.digest != db.calls[c].digest then Err(ApprovalBindingMismatch)
    else if c in db.approvals then HandleDuplicate(db, u, ask)
    else if !db.calls[c].status.Prepared? then Err(ApprovalNotExecutable)
    else if !db.run.status.Running? then Err(ApprovalInvalid)
    else if db.calls[c].approval.Some? then Err(ApprovalConflict)
    else
      var i := db.calls[c];
      var expiresAt := u.now + ask.ttl;
      var binding := BindingOf(db.run, c, i.tool, i.digest, ask.requestedBy, ask.roles, u.now, expiresAt);
      var a := Approval(db.nextId, i.tool, i.digest, binding, ask.requestedBy, ask.roles, ApprovalStatus.Pending, 0,
                        u.now, expiresAt, None, None, None, None, None, None);
      var linked := i.(approval := Some(a.id), revision := i.revision + 1, updatedAt := u.now);
      Ok(Log(db.(approvals := db.approvals[c := a], calls := db.calls[c := linked], nextId := a.id + 1),
             u, ApprovalRequestedFor(c, a.id)))
  }

  function HandleDuplicate(db: Db, u: Unit, ask: Ask): (r: Result<Db>)
    requires ask.call in db.approvals
    ensures r.Ok? ==> r.value == db
  {
    var a := db.approvals[ask.call];
    if !Active(a.status) then Err(ApprovalReplayed)
    else if a.requestedBy != ask.requestedBy || a.digest != ask.digest || a.roles != ask.roles
        || a.expiresAt != a.requestedAt + ask.ttl
      then Err(ApprovalConflict)
    else if a.expiresAt <= u.now then Err(ApprovalReplayed)
    else if !db.run.status.WaitingApproval? then Err(ApprovalNotExecutable)
    else if !BindingHolds(db, ask.call) then Err(ApprovalBindingMismatch)
    else Ok(db)
  }

  /** `claim`: one execution intent takes an APPROVED row, before it expires. */
  function Claim(db0: Db, u: Unit, c: CallId, revision: nat, intent: CallId): (r: Result<Db>)
    ensures r.Ok? ==> Quiet(db0, r.value)
  {
    if c !in db0.approvals then Err(ApprovalNotFound)
    else if !HoldsLease(db0, u) then Err(LeaseFault(db0, u))
    else
      var db :- MaterializeExpiry(db0, u, c);
      if c !in db.approvals then Err(ApprovalNotFound) else
      var a := db.approvals[c];
      if a.status.Expired? then Err(ErrorCode.ApprovalExpired)
      else if a.status.Claimed? then Err(ApprovalAlreadyClaimed)
      else if a.revision != revision then Err(ApprovalConflict)
      else if !a.status.Approved? then Err(ApprovalNotExecutable)
      else if a.expiresAt <= u.now then Err(ErrorCode.ApprovalExpired)
      else if intent != c then Err(ApprovalBindingMismatch)
      else if !db.run.status.WaitingApproval? then Err(ApprovalNotExecutable)
      else if !BindingHolds(db, c) then Err(ApprovalBindingMismatch)
      else
        var claimed := a.(status := ApprovalStatus.Claimed, claimedAt := Some(u.now), intent := Some(intent));
        Ok(Log(PutApproval(db, c, claimed), u, ApprovalClaimed(a.id, intent)))
  }

  /** `resume_claim`: recovers a claim whose call has not started. */
  function ResumeClaim(db: Db, u: Unit, c: CallId, revision: nat, intent: CallId): (r: Result<Db>)
    ensures r.Ok? ==> Quiet(db, r.value)
  {
    if c !in db.approvals then Err(ApprovalNotFound)
    else if !HoldsLease(db, u) then Err(LeaseFault(db, u))
    else if !BindingHolds(db, c) then Err(ApprovalBindingMismatch)
    else
      var a := db.approvals[c];
      if a.revision != revision then Err(ApprovalConflict)
      else if !a.status.Claimed? || a.intent != Some(intent) || intent != c then Err(ApprovalNotExecutable)
      else if !db.run.status.Running? then Err(ApprovalNotExecutable)
      else if !db.calls[c].status.Prepared? then Err(ApprovalNotExecutable)
      else Ok(Log(db, u, ApprovalClaimRecovered(a.id)))
  }

  /** `consume`: a claim is spent only by the deterministic result of its own call. */
  function Consume(db: Db, u: Unit, c: CallId, revision: nat, intent: CallId, result: InvocationStatus,
                   code: Option<ErrorCode>): (r: Result<Db>)
    ensures r.Ok? ==> Quiet(db, r.value)
  {
    if c !in db.approvals then Err(ApprovalNotFound)
    else if !HoldsLease(db, u) then Err(LeaseFault(db, u))
    else
      var a := db.approvals[c];
      if a.revision != revision then Err(ApprovalConflict)
      else if !a.status.Claimed? || a.intent != Some(intent) || intent != c then Err(ApprovalNotExecutable)
      else if !db.run.status.Running? then Err(ApprovalNotExecutable)
      else if !Deterministic(result) then Err(ApprovalNotExecutable)
      else if c !in db.calls || db.calls[c].status != result then Err(ApprovalNotExecutable)
      else
        var consumed := a.(status := ApprovalStatus.Consumed, consumedAt := Some(u.now), consumptionCode := code);
        Ok(Log(PutApproval(db, c, consumed), u, ApprovalConsumed(a.id, result)))
  }

  /** `invalidate`: withdraws an approval that has not been used to start its call. */
  function Invalidate(db0: Db, u: Unit, c: CallId, revision: nat): (r: Result<Db>)
    ensures r.Ok? ==> Quiet(db0, r.value)
  {
    if c !in db0.approvals then Err(ApprovalNotFound)
    else if !HoldsLease(db0, u) then Err(LeaseFault(db0, u))
    else
      var db :- MaterializeExpiry(db0, u, c);
      if c !in db.approvals then Err(ApprovalNotFound) else
      var a := db.approvals[c];
      if a.revision != revision then Err(ApprovalConflict)
      else if a.status.Claimed? && !(c in db.calls && db.calls[c].status.Prepared?) then Err(ApprovalNotExecutable)
      else if !a.status.Claimed? && !Active(a.status) then Err(ApprovalNotExecutable)
      else
        var withdrawn := a.(status := Invalidated, claimedAt := None, intent := None, consumedAt := None,
            consumptionCode := None);
        Ok(Log(PutApproval(db, c, withdrawn), u, ApprovalInvalidated(a.id)))
  }

  /** `approve` and `reject`: a decision by someone else, who holds an allowed role, while the run waits. */
  function Decide(db0: Db, u: Unit, c: CallId, revision: nat, approver: Actor, roles: set<Role>,
      grant: bool): (r: Result<Db>)
    ensures r.Ok? ==> Quiet(db0, r.value)
  {
    if c !in db0.approvals then Err(ApprovalNotFound)
    else if !HoldsLease(db0, u) then Err(LeaseFault(db0, u))
    else
      var db :- MaterializeExpiry(db0, u, c);
      var decided :- DecideCurrent(db, u, c, revision, approver, roles, grant);
      QuietTransitive(db0, db, decided);
      Ok(decided)
  }

  function DecideCurrent(db: Db, u: Unit, c: CallId, revision: nat, approver: Actor, roles: set<Role>,
      grant: bool): (r: Result<Db>)
    ensures r.Ok? ==> Quiet(db, r.value)
  {
    if c !in db.approvals then Err(ApprovalNotFound)
    else
      var a := db.approvals[c];
      if a.status.Expired? then Err(ErrorCode.ApprovalExpired)
      else if a.revision != revision then Err(ApprovalConflict)
      else if !a.status.Pending? then Err(ApprovalNotExecutable)
      else if approver != u.actor then Err(ApproverDenied)
      else if !db.run.status.WaitingApproval? then Err(ApprovalNotExecutable)
      else if approver == a.requestedBy then Err(SelfApprovalDenied)
      else if a.roles !! roles then Err(ApproverDenied)
      else
        var decided := a.(status := if grant then ApprovalStatus.Approved else ApprovalStatus.Rejected,
                          decidedAt := Some(u.now), decidedBy := Some(approver));
        var recorded := Log(PutApproval(db, c, decided), u, ApprovalDecided(a.id, approver, roles, grant));
        if grant then Ok(recorded) else StopRun(recorded, u, StopReason.ApprovalRejected)
  }

  // ---------- sweeping every due approval ----------

  /** The earliest of a set of rows, by time and then by identity: the first one a query returns. */
  predicate IsEarliest(ids: set<nat>, at: map<nat, Time>, c: nat)
    requires ids <= at.Keys
  {
    c in ids && forall d :: d in ids ==> at[c] < at[d] || (at[c] == at[d] && c <= d)
  }

  lemma {:induction false} EarliestExists(ids: set<nat>, at: map<nat, Time>)
    requires ids != {} && ids <= at.Keys
    ensures exists c :: IsEarliest(ids, at, c)
    decreases |ids|
  {
    var d :| d in ids;
    if ids == {d} {
      assert IsEarliest(ids, at, d);
    } else {
      EarliestExists(ids - {d}, at);
      var e :| IsEarliest(ids - {d}, at, e);
      if at[d] < at[e] || (at[d] == at[e] && d <= e) {
        assert IsEarliest(ids, at, d);
      } else {
        assert IsEarliest(ids, at, e);
      }
    }
  }

  function Earliest(ids: set<nat>, at: map<nat, Time>): (c: nat)
    requires ids != {} && ids <= at.Keys
    ensures IsEarliest(ids, at, c)
  {
    EarliestExists(ids, at);
    var c :| c in ids && IsEarliest(ids, at, c);
    c
  }

  function RequestTimes(approvals: map<CallId, Approval>): map<nat, Time> {
    map c | c in approvals :: approvals[c].requestedAt
  }

  function DueCalls(db: Db, now: Time): set<CallId> {
    set c | c in db.approvals && Due(db.approvals[c], now)
  }

  function ExpireEach(db: Db, u: Unit, ids: set<CallId>): (r: Result<Db>)
    ensures r.Ok? ==> Quiet(db, r.value)
    ensures ids == {} ==> r == Ok(db)
    decreases |ids|
  {
    if ids == {} then Ok(db)
    else if !(ids <= db.approvals.Keys) then Err(ApprovalNotFound)
    else
      var c := Earliest(ids, RequestTimes(db.approvals));
      if !Active(db.approvals[c].status) then ExpireEach(db, u, ids - {c})
      else
        var next :- Expire(db, u, c);
        var rest := ExpireEach(next, u, ids - {c});
        if rest.Ok? then QuietTransitive(db, next, rest.value); rest else rest
  }

  /** `expire_due`. */
  function ExpireDue(db: Db, u: Unit): (r: Result<Db>)
    ensures r.Ok? ==> Quiet(db, r.value)
    ensures HoldsLease(db, u) && DueCalls(db, u.now) == {} ==> r == Ok(db)
  {
    if !HoldsLease(db, u) then Err(LeaseFault(db, u))
    else ExpireEach(db, u, DueCalls(db, u.now))
  }
}
