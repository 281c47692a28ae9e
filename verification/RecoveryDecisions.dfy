/**
  Which decision recovery takes, read off the stored rows and the working tree, and what it leaves
  of the facts it goes on with.
 */
module RecoveryDecisions {
  import opened Domain
  import opened Wrappers
  import opened StateStore
  import opened ApprovalStore
  import opened Recovery
  import opened Protocol
  import opened StepEffects
  import opened ApprovalEffects
  import opened Approvals
  import opened Execution
  import opened Outstanding
  import opened Checkpoints
  import opened RecoveryPlans
  import opened RecoveryFixpoint
  import Budget

  // ---------- what a decision looks at ----------

  /** The checkpoint written last, which has the highest number. */
  function LastOf(cs: seq<Checkpoint>): Checkpoint
    requires cs != []
  {
    cs[|cs| - 1]
  }

  /** Roots, HEAD and index are those of the checkpoint, and so is what lies outside, if it is protected. */
  predicate PlaceKept(base: Workspace, now: Workspace) {
    base.identity == now.identity && (base.externalProtected ==> base.external == now.external)
  }

  predicate FilesKept(base: Workspace, now: Workspace) {
    base.status == now.status && base.diff == now.diff
  }

  /** An entry that was added, removed, or rewritten. */
  predicate EntryDiffers(base: Workspace, now: Workspace, p: Path) {
    || (p in base.entries && p !in now.entries) || (p !in base.entries && p in now.entries)
    || (p in base.entries && p in now.entries && base.entries[p] != now.entries[p])
  }

  /** A fact that a call left which finished no earlier than `since`. */
  predicate FactSince(db: Db, e: nat, since: Time) {
    && e in db.evidence && db.evidence[e].call.Some? && db.evidence[e].call.value in db.calls
    && var i := db.calls[db.evidence[e].call.value];
       (i.status.Succeeded? || i.status.Failed? || i.status.TimedOut?) && since <= i.updatedAt
  }

  /**
    The change can be owed to finished calls: the checkpoint saw every entry, and either each entry
    that differs has a fact of such a call about it, or such a call ran a command or a test.
   */
  ghost predicate Owed(db: Db, base: Checkpoint, now: Workspace) {
    && !base.snapshot.workspace.truncated
    && (|| (forall p :: EntryDiffers(base.snapshot.workspace, now, p) ==>
              exists e :: FactSince(db, e, base.createdAt) && db.evidence[e].path == Some(p))
        || exists e :: FactSince(db, e, base.createdAt)
                       && (db.evidence[e].kind.CommandFact? || db.evidence[e].kind.TestReportFact?))
  }

  predicate Open(i: Invocation) {
    i.status.Prepared? || i.status.Started?
  }

  predicate Unfinished(a: Approval) {
    a.status.Pending? || a.status.Approved? || a.status.Claimed?
  }

  /** Every call has a known result and no approval can still lead to one. */
  predicate AllEnded(db: Db) {
    && (forall c :: c in db.calls ==> !Open(db.calls[c]) && !db.calls[c].status.UnknownResult?)
    && (forall c :: c in db.approvals ==> !Unfinished(db.approvals[c]))
  }

  /** A finished call whose result no checkpoint holds. */
  predicate Loose(db: Db, c: CallId) {
    && c in db.calls
    && (db.calls[c].status.Succeeded? || db.calls[c].status.Failed? || db.calls[c].status.TimedOut?)
    && forall i :: 0 <= i < |db.checkpoints| ==>
         !(db.checkpoints[i].boundary.call == Some(c) && ToolBoundary(db.checkpoints[i].boundary.kind))
  }

  /** ... and none of the others ended before it. */
  predicate FirstLoose(db: Db, c: CallId) {
    Loose(db, c) && forall d :: d in db.calls && Loose(db, d) ==> db.calls[c].updatedAt <= db.calls[d].updatedAt
  }

  predicate AllCaptured(db: Db) {
    forall c :: c in db.calls ==> !Loose(db, c)
  }

  /** The one call that is open, and there is no call of unknown result. */
  predicate OnlyOpen(db: Db, c: CallId, status: InvocationStatus) {
    && c in db.calls && db.calls[c].status == status
    && forall d :: d in db.calls ==> !db.calls[d].status.UnknownResult? && (Open(db.calls[d]) ==> d == c)
  }

  // ---------- the parts of a decision ----------

  lemma {:induction false} LatestIsHighest(cs: seq<Checkpoint>)
    ensures Latest(cs).Some? ==> forall c :: c in cs ==> c.sequence <= Latest(cs).value.sequence
  {
    if cs != [] {
      LatestIsHighest(cs[1..]);
      forall c | c in cs ensures c.sequence <= Latest(cs).value.sequence {
        assert c == cs[0] || c in cs[1..];
      }
    }
  }

  lemma LatestIsLast(cs: seq<Checkpoint>)
    requires Numbered(cs) && cs != []
    ensures Latest(cs) == Some(LastOf(cs))
  {
    LatestIsHighest(cs);
    assert LastOf(cs) in cs;
  }

  lemma OwedMeans(db: Db, base: Checkpoint, now: Workspace)
    ensures DeltaAttributable(db, base, now) <==> Owed(db, base, now)
  {
    var changed := ChangedPaths(base.snapshot.workspace, now);
    var later := set c | c in db.calls && Deterministic(db.calls[c].status) && db.calls[c].updatedAt >= base.createdAt;
    var related := set e | e in db.evidence && db.evidence[e].call.Some? && db.evidence[e].call.value in later;
    assert forall p :: p in changed <==> EntryDiffers(base.snapshot.workspace, now, p);
    assert forall e :: e in related <==> FactSince(db, e, base.createdAt);
    if later == {} {
      assert related == {};
    }
  }

  lemma LooseMeans(db: Db)
    ensures Uncheckpointed(db) == set c | c in db.calls && Loose(db, c)
    ensures Uncheckpointed(db) == {} <==> AllCaptured(db)
  {
    assert forall c :: c in db.calls ==> (c in Uncheckpointed(db) <==> Loose(db, c));
    if !AllCaptured(db) {
      var c :| c in db.calls && Loose(db, c);
      assert c in Uncheckpointed(db);
    }
  }

  lemma TreeMeans(base: Workspace, now: Workspace)
    ensures WorkspaceDiffers(base, now) <==> !FilesKept(base, now)
    ensures IdentityChanged(base, now) || ExternalChanged(base, now) <==> !PlaceKept(base, now)
  {
  }

  // ---------- decisions on calls that are not over ----------

  lemma OpenCalls(db: Db)
    ensures CallsWith(db.calls, InvocationStatus.UnknownResult) == {}
            <==> forall c :: c in db.calls ==> !db.calls[c].status.UnknownResult?
    ensures CallsWith(db.calls, InvocationStatus.Started) == {}
            <==> forall c :: c in db.calls ==> !db.calls[c].status.Started?
    ensures CallsWith(db.calls, InvocationStatus.Prepared) == {}
            <==> forall c :: c in db.calls ==> !db.calls[c].status.Prepared?
  {
    assert forall c, s :: c in CallsWith(db.calls, s) <==> c in db.calls && db.calls[c].status == s;
  }

  /** A single open call gives the decision of its own status and of its approval. */
  lemma OneOpenDecides(db: Db, world: World, c: CallId)
    ensures OnlyOpen(db, c, InvocationStatus.Started) ==> Judge(db, world) == MarkUnknown(c)
    ensures OnlyOpen(db, c, InvocationStatus.Prepared) ==> Judge(db, world) == JudgePrepared(db, c)
  {
    hide Latest, WorkspaceDiffers, DeltaAttributable, MissingCheckpoint, JudgePrepared, FirstCall;
    var started := CallsWith(db.calls, InvocationStatus.Started);
    var prepared := CallsWith(db.calls, InvocationStatus.Prepared);
    if OnlyOpen(db, c, InvocationStatus.Started) {
      assert started == {c} && prepared == {};
      assert started + prepared == {c};
      OpenCalls(db);
      FirstOfOne(db.calls, c);
    } else if OnlyOpen(db, c, InvocationStatus.Prepared) {
      assert started == {} && prepared == {c};
      assert started + prepared == {c};
      OpenCalls(db);
      FirstOfOne(db.calls, c);
    }
  }

  lemma FirstOfOne(calls: map<CallId, Invocation>, c: CallId)
    requires c in calls
    ensures FirstCall(calls, {c}) == Some(c)
  {
  }

  /** Two calls are open at once. */
  predicate TwoOpen(db: Db) {
    exists c, d :: c in db.calls && d in db.calls && c != d && Open(db.calls[c]) && Open(db.calls[d])
  }

  predicate SomeUnknown(db: Db) {
    exists c :: c in db.calls && db.calls[c].status.UnknownResult?
  }

  /** No call is open, but an approval is. */
  predicate StrayApproval(db: Db) {
    && (forall c :: c in db.calls ==> !Open(db.calls[c]) && !db.calls[c].status.UnknownResult?)
    && (exists c :: c in db.approvals && Unfinished(db.approvals[c]))
  }

  lemma CallsWithMeans(db: Db)
    ensures forall c, s :: c in CallsWith(db.calls, s) <==> c in db.calls && db.calls[c].status == s
  {
  }

  lemma UnknownDecides(db: Db, world: World)
    requires SomeUnknown(db)
    ensures var v := Judge(db, world);
            && v.Block? && v.action.ManualReview? && v.stop.UnknownResult?
            && v.reason == Some(RecoveryManualReviewRequired) && v.approval.None? && v.call.Some?
            && v.call.value in db.calls && db.calls[v.call.value].status.UnknownResult?
            && (forall d :: d in db.calls && db.calls[d].status.UnknownResult? ==>
                  db.calls[v.call.value].createdAt <= db.calls[d].createdAt)
  {
    hide Latest, WorkspaceDiffers, DeltaAttributable, MissingCheckpoint, JudgePrepared;
    CallsWithMeans(db);
    OpenCalls(db);
  }

  lemma TwoOpenDecide(db: Db, world: World)
    requires TwoOpen(db) && !SomeUnknown(db)
    ensures Judge(db, world) == BlockFor(RecoveryStateAmbiguous, GateBlocked)
  {
    hide Latest, WorkspaceDiffers, DeltaAttributable, MissingCheckpoint, JudgePrepared, FirstCall;
    var c, d :| c in db.calls && d in db.calls && c != d && Open(db.calls[c]) && Open(db.calls[d]);
    var open := CallsWith(db.calls, InvocationStatus.Started) + CallsWith(db.calls, InvocationStatus.Prepared);
    assert c in open && d in open - {c};
    assert |open| == 1 + |open - {c}|;
    OpenCalls(db);
  }

  lemma StrayDecides(db: Db, world: World)
    requires StrayApproval(db)
    ensures Judge(db, world) == BlockFor(RecoveryStateAmbiguous, GateBlocked)
  {
    hide Latest, WorkspaceDiffers, DeltaAttributable, MissingCheckpoint, JudgePrepared, FirstCall;
    OpenCalls(db);
    NoneOpen(db);
  }

  lemma NoneOpen(db: Db)
    requires forall c :: c in db.calls ==> !Open(db.calls[c])
    ensures |CallsWith(db.calls, InvocationStatus.Started) + CallsWith(db.calls, InvocationStatus.Prepared)| == 0
  {
    OpenCalls(db);
  }

  /** Everything is over: what counts are the checkpoints and the working tree. */
  lemma EndedDecides(db: Db, world: World)
    requires AllEnded(db) && Numbered(db.checkpoints)
    ensures var v := Judge(db, world);
            if db.checkpoints == [] then
              v == if AllCaptured(db) then Record(ContinueAgent, Resumable, None, None, None)
                   else BlockFor(RecoveryCheckpointRequired, GateBlocked)
            else
              var base, now := LastOf(db.checkpoints), world.workspace;
              if AllCaptured(db) then
                v == if FilesKept(base.snapshot.workspace, now) then Record(ContinueAgent, Resumable, None, None, None)
                     else BlockFor(RecoveryWorkspaceChanged, WorkspaceChanged)
              else if FilesKept(base.snapshot.workspace, now) || Owed(db, base, now) then
                v.Rebuild? && FirstLoose(db, v.missing)
              else v == BlockFor(RecoveryWorkspaceChanged, WorkspaceChanged)
  {
    hide Latest, WorkspaceDiffers, DeltaAttributable, JudgePrepared, FirstCall, FilesKept, Owed, CallsWith, Numbered,
         Loose, AllCaptured, Uncheckpointed, MissingCheckpoint;
    OpenCalls(db);
    NoneOpen(db);
    LooseMeans(db);
    MissingMeans(db);
    if db.checkpoints != [] {
      LatestIsLast(db.checkpoints);
      var base := LastOf(db.checkpoints);
      TreeMeans(base.snapshot.workspace, world.workspace);
      OwedMeans(db, base, world.workspace);
    }
  }

  lemma MissingMeans(db: Db)
    ensures MissingCheckpoint(db).None? <==> AllCaptured(db)
    ensures db.checkpoints == [] ==> Latest(db.checkpoints).None?
    ensures MissingCheckpoint(db).Some? ==>
              FirstLoose(db, MissingCheckpoint(db).value)
  {
    hide Loose, AllCaptured, Uncheckpointed;
    LooseMeans(db);
    if MissingCheckpoint(db).Some? {
      var c := MissingCheckpoint(db).value;
      forall d | d in db.calls && Loose(db, d) ensures db.calls[c].updatedAt <= db.calls[d].updatedAt {
        assert d in Uncheckpointed(db);
      }
    }
  }

  // ---------- decisions ----------

  /** The checkpoint speaks of this place, or there is nothing yet that one could speak of. */
  predicate PlaceOk(db: Db, world: World) {
    if db.checkpoints == [] then db.calls == map[] && db.approvals == map[] && db.evidence == map[]
    else PlaceKept(LastOf(db.checkpoints).snapshot.workspace, world.workspace)
  }

  predicate NoneDue(db: Db, now: Time) {
    forall c :: c in db.approvals ==>
      var a := db.approvals[c]; (a.status.Pending? || a.status.Approved?) ==> now < a.expiresAt
  }

  /** The rows and the working tree are looked at in detail. */
  predicate Examined(cfg: Config, db: Db, now: Time, world: World) {
    && (db.run.status.Running? || db.run.status.WaitingApproval?) && db.run.config == cfg.fingerprint
    && PlaceOk(db, world) && NoneDue(db, now)
  }

  function Decision(cfg: Config, db: Db, now: Time, world: World): Verdict {
    if Triage(cfg, db, world).Some? then Triage(cfg, db, world).value
    else if DueCalls(db, now) != {} then FinishedVerdict()
    else Judge(db, world)
  }

  lemma TriageExactly(cfg: Config, db: Db, world: World)
    requires Numbered(db.checkpoints)
    ensures var r, run := Triage(cfg, db, world), db.run;
            if run.status.Completed? || run.status.Stopped? || run.status.Failed? then r == Some(FinishedVerdict())
            else if run.status.Blocked? then
              r.Some? && r.value.Record? && r.value.action.ManualReview? && r.value.status.NeedsReview?
              && r.value.reason == Some(RecoveryManualReviewRequired)
            else if run.status.New? || run.status.Verifying? then
              r == Some(Record(ManualReview, NeedsReview, Some(RecoveryNotAllowed), None, None))
            else if run.config != cfg.fingerprint then r == Some(BlockFor(RecoveryConfigMismatch, WorkspaceChanged))
            else if PlaceOk(db, world) then r.None?
            else if db.checkpoints == [] then r == Some(BlockFor(RecoveryCheckpointRequired, GateBlocked))
            else r == Some(BlockFor(RecoveryWorkspaceChanged, WorkspaceChanged))
  {
    hide CallsWith, FirstCall, IdentityChanged, ExternalChanged, PlaceKept, Numbered;
    if db.checkpoints != [] {
      LatestIsLast(db.checkpoints);
      TreeMeans(LastOf(db.checkpoints).snapshot.workspace, world.workspace);
    }
  }

  lemma DueMeans(db: Db, now: Time)
    ensures DueCalls(db, now) == {} <==> NoneDue(db, now)
  {
    assert forall c :: c in DueCalls(db, now) <==> c in db.approvals && Due(db.approvals[c], now);
  }

  /** A decision that is not taken on sight: the rows are examined, or the sweep ends the run. */
  lemma ExaminedDecides(cfg: Config, db: Db, now: Time, world: World)
    requires Numbered(db.checkpoints)
    ensures var v := Decision(cfg, db, now, world);
            if Examined(cfg, db, now, world) then v == Judge(db, world)
            else
              || (v.Record? && (v.action.AlreadyTerminal? || v.action.ManualReview?)
                  && v.reason != Some(RecoveryWorkspaceChanged))
              || (v.Block? && v.action.ManualReview?)
  {
    hide Triage, Judge, DueCalls, PlaceOk, NoneDue, Numbered;
    TriageExactly(cfg, db, world);
    DueMeans(db, now);
  }

  // ---------- the situations, one by one ----------

  lemma SituationOf(db: Db) returns (c: CallId)
    ensures || SomeUnknown(db) || TwoOpen(db) || OnlyOpen(db, c, InvocationStatus.Started)
            || OnlyOpen(db, c, InvocationStatus.Prepared) || StrayApproval(db) || AllEnded(db)
  {
    c := 0;
    if !SomeUnknown(db) && !TwoOpen(db) && exists d :: d in db.calls && Open(db.calls[d]) {
      c :| c in db.calls && Open(db.calls[c]);
    }
  }

  /** The run goes on: everything is over, captured, and where the last checkpoint saw it. */
  predicate MayContinue(db: Db, world: World) {
    && AllEnded(db) && AllCaptured(db)
    && (db.checkpoints != [] ==> FilesKept(LastOf(db.checkpoints).snapshot.workspace, world.workspace))
  }

  ghost predicate MayRebuild(db: Db, world: World) {
    && AllEnded(db) && !AllCaptured(db) && db.checkpoints != []
    && (|| FilesKept(LastOf(db.checkpoints).snapshot.workspace, world.workspace)
        || Owed(db, LastOf(db.checkpoints), world.workspace))
  }

  ghost predicate FilesMoved(db: Db, world: World) {
    && AllEnded(db) && db.checkpoints != []
    && !FilesKept(LastOf(db.checkpoints).snapshot.workspace, world.workspace)
    && (AllCaptured(db) || !Owed(db, LastOf(db.checkpoints), world.workspace))
  }

  lemma JudgesTheTree(db: Db, world: World)
    requires Numbered(db.checkpoints)
    ensures var v := Judge(db, world);
            && (v.Record? && v.action.ContinueAgent? <==> MayContinue(db, world))
            && (v.Rebuild? <==> MayRebuild(db, world))
            && (v.Block? && v.reason == Some(RecoveryWorkspaceChanged) <==> FilesMoved(db, world))
            && (v.Rebuild? ==> FirstLoose(db, v.missing))
  {
    hide Judge, FilesKept, Owed, Numbered, Loose, AllCaptured, SomeUnknown, TwoOpen, StrayApproval, AllEnded;
    var c := SituationOf(db);
    if AllEnded(db) {
      EndedDecides(db, world);
    } else if SomeUnknown(db) {
      UnknownDecides(db, world);
    } else if TwoOpen(db) {
      TwoOpenDecide(db, world);
    } else if StrayApproval(db) {
      StrayDecides(db, world);
    } else {
      OneOpenDecides(db, world, c);
    }
  }

  /** What the single PREPARED call `c` meets: its approval, or none, and the status of the run. */
  predicate GoesBack(db: Db, c: CallId) {
    if c in db.approvals then db.approvals[c].status.Approved? else db.run.status.Running?
  }

  predicate Waits(db: Db, c: CallId) {
    c in db.approvals && db.approvals[c].status.Pending? && db.run.status.WaitingApproval?
  }

  predicate ResumesClaim(db: Db, c: CallId) {
    c in db.approvals && db.approvals[c].status.Claimed? && db.run.status.Running?
  }

  predicate LostItsApproval(db: Db, c: CallId) {
    c in db.approvals && !Unfinished(db.approvals[c])
  }

  lemma JudgesTheCall(db: Db, world: World, c: CallId)
    requires Numbered(db.checkpoints)
    ensures var v := Judge(db, world);
            && (v.MarkUnknown? && v.started == c <==> OnlyOpen(db, c, InvocationStatus.Started))
            && (v.Record? && v.action.ReenterGate? && v.call == Some(c)
                <==> OnlyOpen(db, c, InvocationStatus.Prepared) && GoesBack(db, c))
            && (v.Record? && v.action.WaitForApproval? && v.call == Some(c)
                <==> OnlyOpen(db, c, InvocationStatus.Prepared) && Waits(db, c))
            && (v.Record? && v.action.ResumeClaimThenReenterGate? && v.call == Some(c)
                <==> OnlyOpen(db, c, InvocationStatus.Prepared) && ResumesClaim(db, c))
  {
    hide Judge, FilesKept, Owed, Numbered, Loose, AllCaptured, SomeUnknown, TwoOpen, StrayApproval, AllEnded, OnlyOpen;
    var d := SituationOf(db);
    if OnlyOpen(db, c, InvocationStatus.Started) || OnlyOpen(db, c, InvocationStatus.Prepared) {
      OneOpenDecides(db, world, c);
      StatusOfOpen(db, c);
    } else if OnlyOpen(db, d, InvocationStatus.Started) || OnlyOpen(db, d, InvocationStatus.Prepared) {
      OneOpenDecides(db, world, d);
    } else if SomeUnknown(db) {
      UnknownDecides(db, world);
    } else if TwoOpen(db) {
      TwoOpenDecide(db, world);
    } else if StrayApproval(db) {
      StrayDecides(db, world);
    } else {
      EndedDecides(db, world);
    }
  }

  lemma StatusOfOpen(db: Db, c: CallId)
    ensures !(OnlyOpen(db, c, InvocationStatus.Started) && OnlyOpen(db, c, InvocationStatus.Prepared))
  {
  }

  /** Two calls are open, an approval has no open call, or the approval and the run's status do not match. */
  ghost predicate Unclear(db: Db) {
    && !SomeUnknown(db)
    && (|| TwoOpen(db) || StrayApproval(db)
        || exists c :: OnlyOpen(db, c, InvocationStatus.Prepared)
                       && !GoesBack(db, c) && !Waits(db, c) && !ResumesClaim(db, c) && !LostItsApproval(db, c))
  }

  ghost predicate Withdrawn(db: Db) {
    exists c :: OnlyOpen(db, c, InvocationStatus.Prepared) && LostItsApproval(db, c)
  }

  lemma JudgesReview(db: Db, world: World)
    requires Numbered(db.checkpoints)
    ensures var v := Judge(db, world);
            && (v.Block? && v.reason == Some(RecoveryStateAmbiguous) <==> Unclear(db))
            && (v.Block? && v.reason == Some(RecoveryApprovalInvalid) <==> Withdrawn(db))
            && (v.Block? && v.reason == Some(RecoveryManualReviewRequired) <==> SomeUnknown(db))
            && (v.Block? && v.reason == Some(RecoveryCheckpointRequired)
                <==> AllEnded(db) && !AllCaptured(db) && db.checkpoints == [])
  {
    hide Judge, FilesKept, Owed, Numbered, Loose, AllCaptured, SomeUnknown, TwoOpen, StrayApproval, AllEnded, OnlyOpen;
    var d := SituationOf(db);
    if SomeUnknown(db) {
      UnknownDecides(db, world);
      UnknownExcludes(db);
    } else if OnlyOpen(db, d, InvocationStatus.Started) || OnlyOpen(db, d, InvocationStatus.Prepared) {
      OneOpenDecides(db, world, d);
      OpenExcludes(db, d);
    } else {
      NoOneOpen(db, d);
      if TwoOpen(db) {
        TwoOpenDecide(db, world);
      } else if StrayApproval(db) {
        StrayDecides(db, world);
      } else {
        EndedDecides(db, world);
      }
    }
  }

  lemma UnknownExcludes(db: Db)
    requires SomeUnknown(db)
    ensures !AllEnded(db)
    ensures forall c :: !OnlyOpen(db, c, InvocationStatus.Prepared)
  {
  }

  lemma OpenExcludes(db: Db, d: CallId)
    requires OnlyOpen(db, d, InvocationStatus.Started) || OnlyOpen(db, d, InvocationStatus.Prepared)
    ensures !TwoOpen(db) && !StrayApproval(db) && !AllEnded(db)
    ensures forall c :: OnlyOpen(db, c, InvocationStatus.Prepared) ==>
              c == d && OnlyOpen(db, d, InvocationStatus.Prepared)
    ensures !(OnlyOpen(db, d, InvocationStatus.Started) && OnlyOpen(db, d, InvocationStatus.Prepared))
  {
  }

  lemma NoOneOpen(db: Db, d: CallId)
    requires TwoOpen(db) || StrayApproval(db) || AllEnded(db)
    ensures forall c :: !OnlyOpen(db, c, InvocationStatus.Prepared)
    ensures TwoOpen(db) || StrayApproval(db) ==> !AllEnded(db)
  {
  }

  // ---------- plans ----------

  /** The plan is the one for the decision, and names the state it was stored in. */
  lemma PlanIsDecided(cfg: Config, db: Db, u: Unit, world: World)
    requires Ready(db, u) && Filed(db.recoveries) && Prepare(cfg, db, u, world).Ok?
    ensures PlanFor(Prepare(cfg, db, u, world).value.plan.key, Decision(cfg, db, u.now, world))
  {
    hide Quiet, Evolves, Triage, Judge, Prepare, Refresh, CarryOut, DueCalls, Chained, AtMostOne, WaitsForCall,
         StepsKnown, Filed, PlanFor, Ready, Uncheckpointed, AllFree, StaleIds, VerdictFits;
    ReadyMeans(db, u);
    if Triage(cfg, db, world).Some? {
      PrepareEarly(cfg, db, u, world);
      CarryOutPlan(cfg, db, u, world, Triage(cfg, db, world).value);
    } else if DueCalls(db, u.now) != {} {
      TriageNoneMeans(cfg, db, world);
      SweepStops(db, u, world);
      var current := Refresh(db, u, world).value;
      FinishedIsRecorded(cfg, current, world);
      PrepareLate(cfg, db, u, world);
      RefreshIsLater(db, u, world);
      EvolvesFiled(db, current);
      CarryOutPlan(cfg, current, u, world, FinishedVerdict());
    } else {
      var current := LateJudgement(cfg, db, u, world);
      EvolvesFiled(db, current);
      CarryOutPlan(cfg, current, u, world, Judge(db, world));
    }
  }

  lemma RefreshIsLater(db: Db, u: Unit, world: World)
    requires Refresh(db, u, world).Ok?
    ensures Evolves(db, Refresh(db, u, world).value)
  {
    hide Evolves, Refresh;
  }

  lemma WellIsNumbered(db: Db)
    requires WellCheckpointed(db)
    ensures Numbered(db.checkpoints)
  {
    hide Chained;
  }

  /** What the holder of the lease is told, in a reachable state in which recovery succeeds. */
  lemma RunIsDecided(cfg: Config, s0: System, steps: seq<Step>, u: Unit)
    requires Initial(cfg, s0)
    requires HoldsLease(Exec(cfg, s0, steps).db, u)
    requires Prepare(cfg, Exec(cfg, s0, steps).db, u, Exec(cfg, s0, steps).world).Ok?
    ensures var s := Exec(cfg, s0, steps);
            && Numbered(s.db.checkpoints)
            && PlanFor(Prepare(cfg, s.db, u, s.world).value.plan.key, Decision(cfg, s.db, u.now, s.world))
  {
    hide Exec, Prepare, PlanFor, Decision, Ready, Filed, Numbered, WellCheckpointed;
    var s := Exec(cfg, s0, steps);
    ReachableIsReady(cfg, s0, steps, u);
    WellIsNumbered(s.db);
    InitialFiled(cfg, s0);
    FiledExec(cfg, s0, steps);
    PlanIsDecided(cfg, s.db, u, s.world);
  }

  lemma InitialFiled(cfg: Config, s: System)
    requires Initial(cfg, s)
    ensures Filed(s.db.recoveries)
  {
  }

  /**
    In every run, a plan to go on is returned exactly when the run is live under the configuration it
    began with, no approval is due, every call has ended with a known result that a checkpoint holds,
    no approval is left, and the working tree is the one that the last checkpoint saw.  A checkpoint is
    rebuilt exactly when results are missing and the tree has not changed, or its change can be owed
    to finished calls.  The change of the tree is the reason given exactly in the remaining cases.
   */
  lemma RecoveryWatchesTheTree(cfg: Config, s0: System, steps: seq<Step>, u: Unit)
    requires Initial(cfg, s0)
    requires HoldsLease(Exec(cfg, s0, steps).db, u)
    requires Prepare(cfg, Exec(cfg, s0, steps).db, u, Exec(cfg, s0, steps).world).Ok?
    ensures var db, world := Exec(cfg, s0, steps).db, Exec(cfg, s0, steps).world;
            var k := Prepare(cfg, db, u, world).value.plan.key;
            && (k.action.ContinueAgent? <==> Examined(cfg, db, u.now, world) && MayContinue(db, world))
            && (k.action.RebuildCheckpointThenContinue?
                <==> Examined(cfg, db, u.now, world) && MayRebuild(db, world))
            && (k.action.RebuildCheckpointThenContinue? ==> k.call.Some? && FirstLoose(db, k.call.value))
            && (k.reason == Some(RecoveryWorkspaceChanged) <==>
                  || PlaceMoved(cfg, db, world)
                  || (Examined(cfg, db, u.now, world) && FilesMoved(db, world)))
  {
    hide Exec, Prepare, Triage, Judge, DueCalls, MayContinue, MayRebuild, FilesMoved, NoneDue, Numbered, FirstLoose;
    var s := Exec(cfg, s0, steps);
    RunIsDecided(cfg, s0, steps, u);
    ExaminedDecides(cfg, s.db, u.now, s.world);
    TriageExactly(cfg, s.db, s.world);
    DueMeans(s.db, u.now);
    JudgesTheTree(s.db, s.world);
    JudgesReasons(s.db, s.world);
  }

  /** A live run under its own configuration, in another place than the one its last checkpoint saw. */
  predicate PlaceMoved(cfg: Config, db: Db, world: World) {
    && (db.run.status.Running? || db.run.status.WaitingApproval?) && db.run.config == cfg.fingerprint
    && db.checkpoints != []
    && !PlaceKept(LastOf(db.checkpoints).snapshot.workspace, world.workspace)
  }

  lemma JudgesReasons(db: Db, world: World)
    ensures var v := Judge(db, world);
            v.Record? ==> v.reason.None? || (v.action.WaitForApproval? && v.reason == Some(ApprovalRequired))
    ensures var v := Judge(db, world);
            v.Record? ==> v.action.ContinueAgent? || v.action.ReenterGate? || v.action.WaitForApproval?
                          || v.action.ResumeClaimThenReenterGate?
    ensures var v := Judge(db, world);
            v.Block? ==> v.action.ManualReview? && v.reason != Some(RecoveryConfigMismatch)
                         && v.reason != Some(RecoveryNotAllowed)
  {
    hide CallsWith, FirstCall, MissingCheckpoint, Latest, WorkspaceDiffers, DeltaAttributable;
  }

  /**
    In every run, a plan about an open call names the only one there is: a STARTED call is marked
    unknown; a PREPARED one goes back to the Gate, waits, or resumes its claim, exactly as its
    approval and the status of the run say.
   */
  lemma RecoveryFollowsTheCall(cfg: Config, s0: System, steps: seq<Step>, u: Unit, c: CallId)
    requires Initial(cfg, s0)
    requires HoldsLease(Exec(cfg, s0, steps).db, u)
    requires Prepare(cfg, Exec(cfg, s0, steps).db, u, Exec(cfg, s0, steps).world).Ok?
    ensures var db, world := Exec(cfg, s0, steps).db, Exec(cfg, s0, steps).world;
            var k := Prepare(cfg, db, u, world).value.plan.key;
            && (k.action.MarkUnknownResult? && k.call == Some(c)
                <==> Examined(cfg, db, u.now, world) && OnlyOpen(db, c, InvocationStatus.Started))
            && (k.action.ReenterGate? && k.call == Some(c)
                <==> Examined(cfg, db, u.now, world) && OnlyOpen(db, c, InvocationStatus.Prepared) && GoesBack(db, c))
            && (k.action.WaitForApproval? && k.call == Some(c)
                <==> Examined(cfg, db, u.now, world) && OnlyOpen(db, c, InvocationStatus.Prepared) && Waits(db, c))
            && (k.action.ResumeClaimThenReenterGate? && k.call == Some(c)
                <==> && Examined(cfg, db, u.now, world) && OnlyOpen(db, c, InvocationStatus.Prepared)
                     && ResumesClaim(db, c))
  {
    hide Exec, Prepare, Triage, Judge, DueCalls, Examined, OnlyOpen, GoesBack, Waits, ResumesClaim, Numbered;
    var s := Exec(cfg, s0, steps);
    RunIsDecided(cfg, s0, steps, u);
    ExaminedDecides(cfg, s.db, u.now, s.world);
    JudgesTheCall(s.db, s.world, c);
    JudgesReasons(s.db, s.world);
  }

  /** In every run, the reason for a review, and that the run is over, are given exactly in these states. */
  lemma RecoveryAsksForReview(cfg: Config, s0: System, steps: seq<Step>, u: Unit)
    requires Initial(cfg, s0)
    requires HoldsLease(Exec(cfg, s0, steps).db, u)
    requires Prepare(cfg, Exec(cfg, s0, steps).db, u, Exec(cfg, s0, steps).world).Ok?
    ensures var db, world := Exec(cfg, s0, steps).db, Exec(cfg, s0, steps).world;
            var k, live := Prepare(cfg, db, u, world).value.plan.key,
                           db.run.status.Running? || db.run.status.WaitingApproval?;
            && (k.reason == Some(RecoveryStateAmbiguous) <==> Examined(cfg, db, u.now, world) && Unclear(db))
            && (k.reason == Some(RecoveryApprovalInvalid) <==> Examined(cfg, db, u.now, world) && Withdrawn(db))
            && (k.reason == Some(RecoveryConfigMismatch) <==> live && db.run.config != cfg.fingerprint)
            && (k.reason == Some(RecoveryCheckpointRequired) <==>
                  live && db.run.config == cfg.fingerprint && db.checkpoints == [] && !PlaceOk(db, world))
            && (k.reason == Some(RecoveryNotAllowed) <==> db.run.status.New? || db.run.status.Verifying?)
            && (k.action.AlreadyTerminal? <==>
                  || db.run.status.Completed? || db.run.status.Stopped? || db.run.status.Failed?
                  || (live && db.run.config == cfg.fingerprint && PlaceOk(db, world) && !NoneDue(db, u.now)))
            && (k.reason == Some(RecoveryManualReviewRequired) <==>
                  || db.run.status.Blocked?
                  || (Examined(cfg, db, u.now, world)
                      && (SomeUnknown(db) || exists c :: OnlyOpen(db, c, InvocationStatus.Started))))
  {
    hide Exec, Prepare, Triage, Judge, DueCalls, PlaceOk, NoneDue, Unclear, Withdrawn, OnlyOpen, Numbered, SomeUnknown;
    var s := Exec(cfg, s0, steps);
    RunIsDecided(cfg, s0, steps, u);
    ExaminedDecides(cfg, s.db, u.now, s.world);
    TriageExactly(cfg, s.db, s.world);
    DueMeans(s.db, u.now);
    JudgesReview(s.db, s.world);
    JudgesReasons(s.db, s.world);
    if s.db.checkpoints == [] && PlaceOk(s.db, s.world) {
      NothingToCapture(s.db, s.world);
    }
    var v := Judge(s.db, s.world);
    if v.MarkUnknown? {
      JudgesTheCall(s.db, s.world, v.started);
    }
    forall c | OnlyOpen(s.db, c, InvocationStatus.Started) ensures v == MarkUnknown(c) {
      JudgesTheCall(s.db, s.world, c);
    }
  }

  lemma NothingToCapture(db: Db, world: World)
    requires db.checkpoints == [] && PlaceOk(db, world)
    ensures AllCaptured(db)
  {
  }

  // ---------- what a plan leaves ----------

  /** The run is blocked for `stop`, ended now and never judged; its budget, limits and origin stay. */
  predicate Closed(a: Run, b: Run, stop: StopReason, now: Time) {
    b == a.(status := Blocked, stopReason := Some(stop), acceptance := NotEvaluated, endedAt := Some(now),
            revision := b.revision)
    && a.revision < b.revision
  }

  /** No approval can be decided or claimed any more, and no claim can start its call. */
  predicate NoneUsable(db: Db) {
    forall c :: c in db.approvals ==>
      var a := db.approvals[c];
      && !a.status.Pending? && !a.status.Approved?
      && (a.status.Claimed? ==> !(c in db.calls && db.calls[c].status.Prepared?))
  }

  lemma BlockCloses(db: Db, u: Unit, action: RecoveryAction, stop: StopReason, reason: Option<ErrorCode>,
                    call: Option<CallId>, approval: Option<nat>)
    requires BlockAndRecord(db, u, action, stop, reason, call, approval).Ok? && LiveRun(db.run.status)
    ensures var b := BlockAndRecord(db, u, action, stop, reason, call, approval).value.db;
            Closed(db.run, b.run, stop, u.now) && NoneUsable(b) && b.evidence == db.evidence && b.calls == db.calls
  {
    hide Quiet, Evolves, WithdrawEach, RecordPlan, Blocks, Withdrawable;
    WithdrawEachEffect(db, u, Withdrawable(db));
    WithdrawKeepsFacts(db, u, Withdrawable(db));
    var withdrawn := WithdrawEach(db, u, Withdrawable(db)).value;
    var blocked := BlockRecovery(db, u, stop).value;
    BlockRecoveryEffect(db, u, stop);
    var key := KeyFor(blocked, blocked.run.lastCheckpoint, action, NeedsReview, reason, call, approval);
    RecordPlanView(blocked, u, key);
    BlocksMeans(db, blocked);
  }

  lemma BlocksMeans(a: Db, b: Db)
    requires Blocks(a, b)
    ensures NoneUsable(b) && b.calls == a.calls
  {
  }

  lemma {:induction false} WithdrawKeepsFacts(db: Db, u: Unit, ids: set<CallId>)
    requires ids <= Withdrawable(db) && WithdrawEach(db, u, ids).Ok?
    ensures WithdrawEach(db, u, ids).value.evidence == db.evidence
    decreases |ids|
  {
    hide Quiet, Evolves, Invalidate;
    if ids != {} {
      var c := Earliest(ids, RequestTimes(db.approvals));
      InvalidateEffect(db, u, c, db.approvals[c].revision);
      InvalidateKeepsFacts(db, u, c, db.approvals[c].revision);
      var next := Invalidate(db, u, c, db.approvals[c].revision).value;
      assert ids - {c} <= Withdrawable(next);
      WithdrawKeepsFacts(next, u, ids - {c});
    }
  }

  lemma InvalidateKeepsFacts(db: Db, u: Unit, c: CallId, revision: nat)
    requires Invalidate(db, u, c, revision).Ok?
    ensures Invalidate(db, u, c, revision).value.evidence == db.evidence
  {
    hide Quiet, Evolves;
  }

  /** A file that a fact tells about no longer reads as the fact says, or cannot be read. */
  predicate Contradicted(fact: Evidence, world: World) {
    && (fact.kind.ReadFact? || fact.kind.DocumentFact? || fact.kind.DiffFact?) && fact.path.Some?
    && (fact.path.value in world.files ==> world.files[fact.path.value] != fact.content)
  }

  /** Exactly the facts that the files contradict lose their validity; nothing else about a fact changes. */
  predicate FactsChecked(a: Db, b: Db, world: World) {
    && b.evidence.Keys == a.evidence.Keys
    && forall e :: e in a.evidence ==>
         b.evidence[e] == a.evidence[e].(valid := a.evidence[e].valid && !Contradicted(a.evidence[e], world))
  }

  lemma RefreshChecksFacts(db: Db, u: Unit, world: World)
    requires HoldsLease(db, u) && DueCalls(db, u.now) == {} && LiveRun(db.run.status)
    ensures Refresh(db, u, world).Ok? && FactsChecked(db, Refresh(db, u, world).value, world)
    ensures Refreshed(db, Refresh(db, u, world).value)
  {
    hide Quiet, Evolves, ExpireDue, InvalidateEach;
    NoneDueNoExpiry(db, u);
    InvalidateEachSucceeds(db, u, StaleIds(db, world));
    forall e | e in db.evidence
      ensures e in StaleIds(db, world) <==> db.evidence[e].valid && Contradicted(db.evidence[e], world)
    {
      assert Stale(db.evidence[e], world) <==> db.evidence[e].valid && Contradicted(db.evidence[e], world);
    }
  }

  lemma CarryOutKeepsFacts(cfg: Config, db: Db, u: Unit, world: World, v: Verdict)
    requires CarryOut(cfg, db, u, world, v).Ok? && LiveRun(db.run.status)
    ensures CarryOut(cfg, db, u, world, v).value.db.evidence == db.evidence
    ensures v.Block? ==> Closed(db.run, CarryOut(cfg, db, u, world, v).value.db.run, v.stop, u.now)
                         && NoneUsable(CarryOut(cfg, db, u, world, v).value.db)
    ensures v.MarkUnknown? ==>
              && Closed(db.run, CarryOut(cfg, db, u, world, v).value.db.run, StopReason.UnknownResult, u.now)
              && NoneUsable(CarryOut(cfg, db, u, world, v).value.db)
  {
    hide Quiet, Evolves, RecordPlan, BlockAndRecord, RebuildAndRecord, TransitionInvocation, Closed, NoneUsable, KeyFor;
    match v {
      case Record(action, status, reason, call, approval) =>
        RecordPlanView(db, u, KeyFor(db, db.run.lastCheckpoint, action, status, reason, call, approval));
      case Block(action, stop, reason, call, approval) => BlockCloses(db, u, action, stop, reason, call, approval);
      case MarkUnknown(c) => MarkCloses(db, u, c);
      case Rebuild(c) => RebuildKeepsFacts(cfg, db, u, world, c);
    }
  }

  lemma MarkCloses(db: Db, u: Unit, c: CallId)
    requires MarkUnknownAndRecord(db, u, c).Ok? && LiveRun(db.run.status)
    ensures var b := MarkUnknownAndRecord(db, u, c).value.db;
            && Closed(db.run, b.run, StopReason.UnknownResult, u.now) && NoneUsable(b) && b.evidence == db.evidence
  {
    hide Quiet, Evolves, BlockAndRecord, NoneUsable, TransitionInvocation;
    MoveKeepsRun(db, u, c, InvocationStatus.Started, db.calls[c].revision, InvocationStatus.UnknownResult,
        Some(ResultUnknown));
    var marked := TransitionInvocation(db, u, c, InvocationStatus.Started, db.calls[c].revision,
                                       InvocationStatus.UnknownResult, Some(ResultUnknown)).value;
    BlockCloses(marked, u, MarkUnknownResult, StopReason.UnknownResult, Some(RecoveryManualReviewRequired), Some(c),
        None);
  }

  lemma MoveKeepsRun(db: Db, u: Unit, c: CallId, expected: InvocationStatus, revision: nat, target: InvocationStatus,
      error: Option<ErrorCode>)
    requires TransitionInvocation(db, u, c, expected, revision, target, error).Ok?
    ensures var b := TransitionInvocation(db, u, c, expected, revision, target, error).value;
            b.run == db.run.(revision := db.run.revision + 1) && b.evidence == db.evidence
  {
    hide Quiet, Evolves;
  }

  lemma RebuildKeepsFacts(cfg: Config, db: Db, u: Unit, world: World, c: CallId)
    requires RebuildAndRecord(cfg, db, u, world, c).Ok?
    ensures RebuildAndRecord(cfg, db, u, world, c).value.db.evidence == db.evidence
  {
    hide Quiet, Evolves, RecordPlan, TakeSnapshot, FindBoundary, BoundaryAllowed, MaxSequence, KeyFor, RebuildBoundary;
    var written := CreateCheckpoint(cfg, db, u, RebuildBoundary(db, c), world).value;
    RecordPlanView(written.db, u, KeyFor(written.db, Some(written.checkpoint.id), RebuildCheckpointThenContinue,
        Resumable, None, Some(c), db.calls[c].approval));
  }

  lemma FactsThen(a: Db, b: Db, c: Db, world: World)
    requires FactsChecked(a, b, world) && c.evidence == b.evidence
    ensures FactsChecked(a, c, world)
  {
  }

  /**
    In every run, recovery that examines the rows takes the validity of exactly those facts that the
    files contradict.
   */
  lemma RecoveryChecksFacts(cfg: Config, s0: System, steps: seq<Step>, u: Unit)
    requires Initial(cfg, s0)
    requires HoldsLease(Exec(cfg, s0, steps).db, u)
    requires Prepare(cfg, Exec(cfg, s0, steps).db, u, Exec(cfg, s0, steps).world).Ok?
    requires Examined(cfg, Exec(cfg, s0, steps).db, u.now, Exec(cfg, s0, steps).world)
    ensures var db, world := Exec(cfg, s0, steps).db, Exec(cfg, s0, steps).world;
            FactsChecked(db, Prepare(cfg, db, u, world).value.db, world)
  {
    hide Exec, Prepare, Triage, Judge, DueCalls, PlaceOk, NoneDue, Numbered, Ready, WellCheckpointed, Refresh, CarryOut,
         Closed, NoneUsable, FactsChecked, Evolves, Quiet, Uncheckpointed, AllFree, StaleIds, VerdictFits;
    var s := Exec(cfg, s0, steps);
    ReachableIsReady(cfg, s0, steps, u);
    WellIsNumbered(s.db);
    TriageExactly(cfg, s.db, s.world);
    DueMeans(s.db, u.now);
    ReadyMeans(s.db, u);
    var current := LateJudgement(cfg, s.db, u, s.world);
    RefreshChecksFacts(s.db, u, s.world);
    CarryOutKeepsFacts(cfg, current, u, s.world, Judge(s.db, s.world));
    FactsThen(s.db, current, Prepare(cfg, s.db, u, s.world).value.db, s.world);
  }

  /** Why a run ends that is left for review. */
  function StopFor(reason: ErrorCode): StopReason {
    if reason.RecoveryManualReviewRequired? then StopReason.UnknownResult
    else if reason.RecoveryStateAmbiguous? || reason.RecoveryCheckpointRequired? then GateBlocked
    else WorkspaceChanged
  }

  lemma JudgedStops(db: Db, world: World)
    ensures var v := Judge(db, world); v.Block? ==> v.reason.Some? && v.stop == StopFor(v.reason.value)
    ensures var v := Judge(db, world); v.Record? ==> !v.status.NeedsReview?
  {
    hide CallsWith, FirstCall, MissingCheckpoint, Latest, WorkspaceDiffers, DeltaAttributable;
  }

  lemma TriagedStops(cfg: Config, db: Db, world: World)
    requires LiveRun(db.run.status) && Triage(cfg, db, world).Some?
    ensures var v := Triage(cfg, db, world).value; v.Block? && v.reason.Some? && v.stop == StopFor(v.reason.value)
  {
    hide CallsWith, FirstCall, Latest, IdentityChanged, ExternalChanged;
  }

  /**
    In every run, a live run that is left for review ends now, for the reason that the plan gives, with
    no approval left that anything could still be started with.
   */
  lemma ReviewClosesTheRun(cfg: Config, s0: System, steps: seq<Step>, u: Unit)
    requires Initial(cfg, s0)
    requires HoldsLease(Exec(cfg, s0, steps).db, u) && LiveRun(Exec(cfg, s0, steps).db.run.status)
    requires Prepare(cfg, Exec(cfg, s0, steps).db, u, Exec(cfg, s0, steps).world).Ok?
    ensures var db, planned := Exec(cfg, s0, steps).db,
                               Prepare(cfg, Exec(cfg, s0, steps).db, u, Exec(cfg, s0, steps).world).value;
            planned.plan.key.status.NeedsReview? ==>
              && planned.plan.key.reason.Some?
              && Closed(db.run, planned.db.run, StopFor(planned.plan.key.reason.value), u.now)
              && NoneUsable(planned.db)
  {
    hide Exec, Prepare, Triage, Judge, DueCalls, Numbered, Ready, WellCheckpointed, Refresh, CarryOut, StopFor,
         NoneUsable, FactsChecked, Evolves, Quiet, Uncheckpointed, AllFree, StaleIds, VerdictFits;
    var s := Exec(cfg, s0, steps);
    RunIsDecided(cfg, s0, steps, u);
    ReachableIsReady(cfg, s0, steps, u);
    ReadyMeans(s.db, u);
    if Triage(cfg, s.db, s.world).Some? {
      TriagedStops(cfg, s.db, s.world);
      PrepareEarly(cfg, s.db, u, s.world);
      CarryOutKeepsFacts(cfg, s.db, u, s.world, Triage(cfg, s.db, s.world).value);
    } else if DueCalls(s.db, u.now) == {} {
      var current := LateJudgement(cfg, s.db, u, s.world);
      RefreshChecksFacts(s.db, u, s.world);
      JudgedStops(s.db, s.world);
      CarryOutKeepsFacts(cfg, current, u, s.world, Judge(s.db, s.world));
      RefreshRaises(s.db, u, s.world);
    }
    StopForUnknown();
  }

  lemma StopForUnknown()
    ensures StopFor(RecoveryManualReviewRequired) == StopReason.UnknownResult
  {
  }

  lemma RefreshRaises(db: Db, u: Unit, world: World)
    requires Refresh(db, u, world).Ok?
    ensures db.run.revision <= Refresh(db, u, world).value.run.revision
  {
    RefreshIsLater(db, u, world);
    hide Refresh;
  }

  /** The key of a stored plan says what the database it was stored in looks like. */
  ghost predicate NamesState(k: RecoveryKey, b: Db) {
    && k.runRevision == b.run.revision && k in b.recoveries
    && (forall e :: e in k.validEvidence <==> e in b.evidence && b.evidence[e].valid)
    && (forall e :: e in k.invalidEvidence <==> e in b.evidence && !b.evidence[e].valid)
    && (!k.action.RebuildCheckpointThenContinue? ==> k.checkpoint == b.run.lastCheckpoint)
  }

  /** The boundary at which the result of a call is captured. */
  predicate Captures(b: Boundary, c: CallId, i: Invocation) {
    && b.ref == c && b.call == Some(c) && b.step == Some(i.step) && b.approval.None?
    && match i.status
       case Succeeded => b.kind.ToolSucceeded?
       case Failed => b.kind.ToolFailed?
       case TimedOut => b.kind.ToolTimedOut?
       case _ => b.kind.ToolUnknownResult?
  }

  /**
    A rebuild names a checkpoint that holds the result of its call; beyond the `earlier` ones, at
    just that boundary.
   */
  ghost predicate NamesRebuilt(k: RecoveryKey, calls: map<CallId, Invocation>, earlier: nat, b: Db) {
    k.action.RebuildCheckpointThenContinue? ==>
      && k.call.Some? && k.call.value in calls
      && exists i :: 0 <= i < |b.checkpoints| && Some(b.checkpoints[i].id) == k.checkpoint
                     && b.checkpoints[i].boundary.ref == k.call.value && ToolBoundary(b.checkpoints[i].boundary.kind)
                     && (i < earlier || Captures(b.checkpoints[i].boundary, k.call.value, calls[k.call.value]))
  }

  lemma RecordedNames(db: Db, u: Unit, checkpoint: Option<nat>, action: RecoveryAction, status: RecoveryStatus,
                      reason: Option<ErrorCode>, call: Option<CallId>, approval: Option<nat>)
    requires Filed(db.recoveries)
    requires action.RebuildCheckpointThenContinue? || checkpoint == db.run.lastCheckpoint
    ensures var key := KeyFor(db, checkpoint, action, status, reason, call, approval);
            && RecordPlan(db, u, key).plan.key == key && NamesState(key, RecordPlan(db, u, key).db)
            && RecordPlan(db, u, key).db.checkpoints == db.checkpoints
  {
    hide Quiet, Evolves;
    var key := KeyFor(db, checkpoint, action, status, reason, call, approval);
    RecordPlanView(db, u, key);
    RecordPlanKey(db, u, key);
    assert ValidIds(db) == set e | e in db.evidence && db.evidence[e].valid;
    assert InvalidIds(db) == set e | e in db.evidence && !db.evidence[e].valid;
  }

  lemma BlockNames(db: Db, u: Unit, action: RecoveryAction, stop: StopReason, reason: Option<ErrorCode>,
                   call: Option<CallId>, approval: Option<nat>)
    requires Filed(db.recoveries) && BlockAndRecord(db, u, action, stop, reason, call, approval).Ok?
    requires !action.RebuildCheckpointThenContinue?
    ensures var planned := BlockAndRecord(db, u, action, stop, reason, call, approval).value;
            NamesState(planned.plan.key, planned.db)
  {
    QuietIsEvolves(db);
    hide Quiet, Evolves, BlockRecovery, RecordPlan, Filed, KeyFor, NamesState;
    var blocked := BlockRecovery(db, u, stop).value;
    EvolvesFiled(db, blocked);
    RecordedNames(blocked, u, blocked.run.lastCheckpoint, action, NeedsReview, reason, call, approval);
  }

  lemma RebuiltNames(cfg: Config, db: Db, u: Unit, world: World, c: CallId)
    requires Filed(db.recoveries) && RebuildAndRecord(cfg, db, u, world, c).Ok?
    ensures var planned := RebuildAndRecord(cfg, db, u, world, c).value;
            && NamesState(planned.plan.key, planned.db)
            && NamesRebuilt(planned.plan.key, db.calls, |db.checkpoints|, planned.db)
  {
    QuietIsEvolves(db);
    hide Quiet, Evolves, RecordPlan, Filed, NamesState, CreateCheckpoint;
    var written := CreateCheckpoint(cfg, db, u, RebuildBoundary(db, c), world).value;
    EvolvesFiled(db, written.db);
    RecordedNames(written.db, u, Some(written.checkpoint.id), RebuildCheckpointThenContinue, Resumable, None, Some(c),
        db.calls[c].approval);
    WrittenIsThere(cfg, db, u, RebuildBoundary(db, c), world);
  }

  lemma WrittenIsThere(cfg: Config, db: Db, u: Unit, b: Boundary, world: World)
    requires CreateCheckpoint(cfg, db, u, b, world).Ok?
    ensures var written := CreateCheckpoint(cfg, db, u, b, world).value;
            && SameBoundary(written.checkpoint, b) && written.checkpoint in written.db.checkpoints
            && (written.checkpoint in db.checkpoints
                || (written.checkpoint.boundary == b
                    && written.db.checkpoints == db.checkpoints + [written.checkpoint]))
            && db.checkpoints <= written.db.checkpoints
  {
    hide Quiet, Evolves, TakeSnapshot, BoundaryAllowed, MaxSequence;
    if FindBoundary(db.checkpoints, b).None? {
      var row := NewCheckpoint(db, u, b, world);
      assert (db.checkpoints + [row])[|db.checkpoints|] == row;
    }
  }

  /** Every plan names the state it leaves, and a rebuild the checkpoint that now holds the result. */
  lemma PlansNameTheirState(cfg: Config, db: Db, u: Unit, world: World)
    requires Filed(db.recoveries) && Prepare(cfg, db, u, world).Ok?
    ensures var planned := Prepare(cfg, db, u, world).value;
            && NamesState(planned.plan.key, planned.db)
            && NamesRebuilt(planned.plan.key, db.calls, |db.checkpoints|, planned.db)
  {
    QuietIsEvolves(db);
    hide Quiet, Evolves, CarryOut, Triage, Refresh, Judge, Filed, NamesState, NamesRebuilt;
    if Triage(cfg, db, world).Some? {
      TriageFits(cfg, db, world);
      CarriedNames(cfg, db, u, world, Triage(cfg, db, world).value);
    } else {
      var current := Refresh(db, u, world).value;
      EvolvesFiled(db, current);
      JudgeFits(current, world);
      CarriedNames(cfg, current, u, world, JudgeRefreshed(current, world));
      RefreshKeepsCalls(db, u, world);
    }
  }

  lemma RefreshKeepsCalls(db: Db, u: Unit, world: World)
    requires Refresh(db, u, world).Ok?
    ensures Refresh(db, u, world).value.calls == db.calls && Refresh(db, u, world).value.checkpoints == db.checkpoints
  {
    RefreshEffect(db, u, world);
    Budget.RefreshBudget(db, u, world);
    hide Quiet, Evolves, Refresh;
  }

  /** Recovery touches nothing without the lease, nor when the log is not the one that was appended. */
  lemma DamagedLogIsRefused(cfg: Config, db: Db, u: Unit, world: World)
    ensures !HoldsLease(db, u) ==> Prepare(cfg, db, u, world) == Err(LeaseFault(db, u))
    ensures HoldsLease(db, u) && !Chained(db.audit) ==> Prepare(cfg, db, u, world) == Err(RecoveryAuditInvalid)
  {
    hide Quiet, Evolves, CarryOut, Triage, Refresh, JudgeRefreshed, Chained;
  }

  lemma CarriedNames(cfg: Config, db: Db, u: Unit, world: World, v: Verdict)
    requires Filed(db.recoveries) && CarryOut(cfg, db, u, world, v).Ok?
    requires v.Record? || v.Block? ==> !v.action.RebuildCheckpointThenContinue?
    ensures var planned := CarryOut(cfg, db, u, world, v).value;
            && NamesState(planned.plan.key, planned.db)
            && NamesRebuilt(planned.plan.key, db.calls, |db.checkpoints|, planned.db)
  {
    QuietIsEvolves(db);
    CarryOutPlan(cfg, db, u, world, v);
    hide Quiet, Evolves, RecordPlan, BlockAndRecord, RebuildAndRecord, TransitionInvocation, KeyFor, NamesState, Filed;
    match v {
      case Record(action, status, reason, call, approval) =>
        RecordedNames(db, u, db.run.lastCheckpoint, action, status, reason, call, approval);
      case Block(action, stop, reason, call, approval) => BlockNames(db, u, action, stop, reason, call, approval);
      case MarkUnknown(c) =>
        var marked := TransitionInvocation(db, u, c, InvocationStatus.Started, db.calls[c].revision,
                                           InvocationStatus.UnknownResult, Some(ResultUnknown)).value;
        EvolvesFiled(db, marked);
        BlockNames(marked, u, MarkUnknownResult, StopReason.UnknownResult, Some(RecoveryManualReviewRequired), Some(c),
            None);
      case Rebuild(c) => RebuiltNames(cfg, db, u, world, c);
    }
  }
}
