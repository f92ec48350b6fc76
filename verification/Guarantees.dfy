/** What the write pipeline guarantees in every reachable state. */
module Guarantees {
  import opened Base
  import opened OutboxTable
  import opened GoogleModel
  import opened Protocol
  import opened ReservedIds
  import opened Pipeline

  // ---------------------------------------------------------------------------
  // At most one live copy; the burned-id budget
  // ---------------------------------------------------------------------------

  /** The ids ever reserved are a prefix of the generations, all but the last are tombstones, so
      at most one managed event of the projection is live; and 0 <= gen - floor <= 50. */
  lemma AtMostOneLiveCopy(s: Cell)
    requires Reachable(s)
    ensures forall j: nat, k :: k in s.slots && j < k ==> IsTombstone(s.slots, j)
    ensures forall j, k :: j in s.slots && k in s.slots && s.slots[j].Live? && s.slots[k].Live? ==> j == k
    ensures 0 <= s.proj.gen - s.proj.floor <= MAX_TOTAL_ID_GENERATIONS
  {
    ReachableIsOk(s);
    forall j, k | j in s.slots && k in s.slots && s.slots[j].Live? && s.slots[k].Live?
      ensures j == k
    {
      assert !(j < s.proj.gen) && !(k < s.proj.gen);
    }
  }

  /** Every op ever queued, and the one being executed, addresses the calendar of its projection, the one
      whose events the slots are. */
  lemma EveryOpIsAddressed(s: Cell)
    requires Reachable(s)
    ensures forall i :: i in s.rows ==> s.rows[i].calendar == s.site.calendar
    ensures s.exec.Idle? || s.exec.Replanning? || AtHome(s)
  {
    ReachableIsOk(s);
    forall i | i in s.rows ensures s.rows[i].calendar == s.site.calendar {
      assert RowOk(s.site, s.rows[i]);
    }
    if !s.exec.Idle? && !s.exec.Replanning? { OpIsAddressed(s); }
  }

  // ---------------------------------------------------------------------------
  // How a live copy can leave tracking
  // ---------------------------------------------------------------------------

  ghost predicate PendingCreate(s: Cell) {
    exists i :: i in s.rows && s.rows[i].status == Pending && s.rows[i].kind == Create
  }

  /** The three exits: a create that found its own event edited under it, a create poisoned after
      its insert had landed, and an update or delete that supersedes a pending create. */
  ghost predicate IsExit(s: Cell, a: Action) {
    || (a.ASettle? && s.exec.Superseding? && s.exec.row.kind == Create)
    || (a.ASettle? && s.exec.Raised? && s.exec.row.kind == Create && Poisoned(s.exec.row, s.exec.err))
    || (a.ADiff? && PendingCreate(s) && Diverged(s.proj) &&
        Decide(s.site, s.proj, s.flags, a.mapped) in {Some(Update), Some(Delete)})
  }

  /** An exit loses a copy exactly if there was one to lose: the only id that can be live holds a live
      event the projection does not name, and no other create op is left open. */
  ghost predicate LosesCopy(s: Cell, a: Action)
    requires Enabled(s, a)
  {
    IsExit(s, a) && Stray(s) && !OpenCreate(Next(s, a))
  }

  ghost predicate Stray(s: Cell) {
    s.proj.gen in s.slots && s.slots[s.proj.gen].Live? && s.proj.gid != Some(s.proj.gen)
  }

  lemma TrackedMeansNoStray(s: Cell)
    requires IdsOk(s)
    ensures Tracked(s) <==> OpenCreate(s) || !Stray(s)
  {
    if !Stray(s) {
      forall j | j in s.slots && s.slots[j].Live? ensures s.proj.gid == Some(j) {
        assert !(j < s.proj.gen);
      }
    }
  }

  lemma ExitKeepsStray(s: Cell, a: Action)
    requires Enabled(s, a) && IsExit(s, a)
    ensures Stray(Next(s, a)) <==> Stray(s)
  {
  }

  lemma DiffKeepsTracking(s: Cell, mapped: bool, now: int, free: nat)
    requires PipelineOk(s) && Enabled(s, ADiff(mapped, now, free)) && Tracked(s)
    requires !IsExit(s, ADiff(mapped, now, free))
    ensures Tracked(DiffStep(s, mapped, now, free))
  {
    var t := DiffStep(s, mapped, now, free);
    var d := Decide(s.site, s.proj, s.flags, mapped);
    if Diverged(s.proj) && d.Some? {
      var q := RequestFor(s.site, s.proj, d.value);
      EnqueueKeepsKeysUnique(s.rows, q, now, free);
      if d.value == Create {
        assert OpenCreate(t);
      } else if OpenCreate(s) {
        var i :| i in s.rows && Open(s.rows[i]) && s.rows[i].kind == Create;
        assert t.rows[i] == s.rows[i];
      }
    } else if OpenCreate(s) {
      assert OpenCreate(t);
    }
  }

  lemma FinishKeepsTracking(s: Cell, now: int)
    requires PipelineOk(s) && Enabled(s, ASettle(now)) && (s.exec.Created? || s.exec.GivingUp?)
    ensures Tracked(Settle(s, now))
  {
    var t := Settle(s, now);
    SettleKeepsIds(s, now);
    TrackedMeansNoStray(t);
  }

  /** The other ends of an op keep every other row open. */
  lemma OtherRowStaysOpen(s: Cell, now: int, i: nat)
    requires Enabled(s, ASettle(now)) && i in s.rows && (s.exec.Replanning? || i != s.exec.id)
    ensures i in Settle(s, now).rows && Settle(s, now).rows[i] == s.rows[i]
  {
  }

  /** The end of an op that is no create, and no exit of one, leaves an open create open. */
  lemma SettleKeepsOpenCreate(s: Cell, now: int)
    requires ExecLinked(s) && Enabled(s, ASettle(now)) && !IsExit(s, ASettle(now))
    requires !s.exec.Created? && !s.exec.GivingUp? && OpenCreate(s)
    ensures OpenCreate(Settle(s, now))
  {
    var i :| i in s.rows && Open(s.rows[i]) && s.rows[i].kind == Create;
    var t := Settle(s, now);
    if s.exec.Replanning? || i != s.exec.id { OtherRowStaysOpen(s, now, i); }
    assert i in t.rows && Open(t.rows[i]) && t.rows[i].kind == Create;
  }

  lemma SettleKeepsTracking(s: Cell, now: int)
    requires PipelineOk(s) && Enabled(s, ASettle(now)) && Tracked(s)
    requires !IsExit(s, ASettle(now))
    ensures Tracked(Settle(s, now))
  {
    if s.exec.Created? || s.exec.GivingUp? {
      FinishKeepsTracking(s, now);
    } else if OpenCreate(s) {
      SettleKeepsOpenCreate(s, now);
    } else {
      SettleKeepsNames(s, now);
    }
  }

  lemma SettleKeepsNames(s: Cell, now: int)
    requires PipelineOk(s) && Enabled(s, ASettle(now)) && !s.exec.Created? && !s.exec.GivingUp?
    requires forall j :: j in s.slots && s.slots[j].Live? ==> s.proj.gid == Some(j)
    ensures forall j :: j in Settle(s, now).slots && Settle(s, now).slots[j].Live? ==> Settle(s, now).proj.gid == Some(j)
  {
    assert Settle(s, now).slots == s.slots;
  }

  lemma SendKeepsNames(s: Cell, net: Net, gone: GoneReply)
    requires AtCall(s.exec) && ExecLinked(s) && s.exec.row.kind != Create
    requires forall j :: j in s.slots && s.slots[j].Live? ==> s.proj.gid == Some(j)
    ensures forall j :: j in Send(s, net, gone).slots && Send(s, net, gone).slots[j].Live? ==> Send(s, net, gone).proj.gid == Some(j)
  {
  }

  lemma SendKeepsTracking(s: Cell, net: Net, gone: GoneReply)
    requires PipelineOk(s) && AtCall(s.exec) && Tracked(s)
    ensures Tracked(Send(s, net, gone))
  {
    SendFrame(s, net, gone);
    if s.exec.row.kind == Create {
      var t := Send(s, net, gone);
      assert Open(t.rows[s.exec.id]) && t.rows[s.exec.id].kind == Create;
    } else if OpenCreate(s) {
      assert OpenCreate(Send(s, net, gone));
    } else {
      SendKeepsNames(s, net, gone);
    }
  }

  /** A step that touches neither rows nor the worker keeps every row; one that only drops settled
      rows or rewrites the status of open ones keeps the open creates. */
  lemma QuietStepKeepsOpenCreate(s: Cell, a: Action)
    requires Enabled(s, a) && OpenCreate(s) && !a.ADiff? && !a.ASettle? && !a.ASend?
    ensures OpenCreate(Next(s, a))
  {
    var i :| i in s.rows && Open(s.rows[i]) && s.rows[i].kind == Create;
    OpenRowStaysOpen(s, a, i);
    assert i in Next(s, a).rows;
  }

  lemma OpenRowStaysOpen(s: Cell, a: Action, i: nat)
    requires Enabled(s, a) && !a.ADiff? && !a.ASettle? && !a.ASend? && i in s.rows && Open(s.rows[i])
    ensures i in Next(s, a).rows && Open(Next(s, a).rows[i]) && Next(s, a).rows[i].kind == s.rows[i].kind
  {
  }

  lemma QuietStepKeepsNames(s: Cell, a: Action)
    requires PipelineOk(s) && Enabled(s, a) && !a.ADiff? && !a.ASettle? && !a.ASend?
    requires forall j :: j in s.slots && s.slots[j].Live? ==> s.proj.gid == Some(j)
    ensures forall j :: j in Next(s, a).slots && Next(s, a).slots[j].Live? ==> Next(s, a).proj.gid == Some(j)
  {
  }

  lemma QuietStepKeepsTracking(s: Cell, a: Action)
    requires PipelineOk(s) && Enabled(s, a) && Tracked(s)
    requires !a.ADiff? && !a.ASettle? && !a.ASend?
    ensures Tracked(Next(s, a))
  {
    if OpenCreate(s) { QuietStepKeepsOpenCreate(s, a); } else { QuietStepKeepsNames(s, a); }
  }

  /** A live event is named by its projection or owed to an open create op; only the three exits
      can change that. */
  lemma TrackingIsLostOnlyAtExits(s: Cell, a: Action)
    requires PipelineOk(s) && Enabled(s, a) && Tracked(s)
    requires !IsExit(s, a)
    ensures Tracked(Next(s, a))
  {
    if a.ADiff? { DiffKeepsTracking(s, a.mapped, a.now, a.free); }
    else if a.ASettle? { SettleKeepsTracking(s, a.now); }
    else if a.ASend? { SendKeepsTracking(s, a.net, a.gone); }
    else { QuietStepKeepsTracking(s, a); }
  }

  /** Exactly when a step loses a copy. */
  lemma TrackingIsLostExactly(s: Cell, a: Action)
    requires PipelineOk(s) && Enabled(s, a) && Tracked(s)
    ensures Tracked(Next(s, a)) <==> !LosesCopy(s, a)
  {
    if IsExit(s, a) {
      StepKeepsIds(s, a);
      TrackedMeansNoStray(Next(s, a));
      ExitKeepsStray(s, a);
    } else {
      TrackingIsLostOnlyAtExits(s, a);
    }
  }

  /** Discovery undoes a loss: relinking a copy that is still live makes its projection name it. */
  lemma RelinkRestoresTracking(s: Cell, gen: nat, etag: nat)
    requires PipelineOk(s) && Enabled(s, ARelink(gen, etag)) && s.slots[gen].Live?
    ensures Tracked(Next(s, ARelink(gen, etag)))
  {
    var t := Next(s, ARelink(gen, etag));
    StepKeepsIds(s, ARelink(gen, etag));
    TrackedMeansNoStray(t);
    assert gen == t.proj.gen;
  }

  ghost predicate LossFree(s: Cell, run: seq<Action>)
    requires Valid(s, run)
    decreases |run|
  {
    run == [] || (!LosesCopy(s, run[0]) && LossFree(Next(s, run[0]), run[1..]))
  }

  /** Over whole runs: unless one of the three exits fires on a landed copy that no other open create
      will find, no live copy is ever lost. */
  lemma {:induction false} RunKeepsTracking(s: Cell, run: seq<Action>)
    requires PipelineOk(s) && Tracked(s) && Valid(s, run) && LossFree(s, run)
    ensures Tracked(Run(s, run))
    decreases |run|
  {
    if run != [] {
      StepKeepsPipeline(s, run[0]);
      TrackingIsLostExactly(s, run[0]);
      RunKeepsTracking(Next(s, run[0]), run[1..]);
    }
  }

  // ---------------------------------------------------------------------------
  // What is given up, and what is retried for ever
  // ---------------------------------------------------------------------------

  /** Of all steps, exactly these fail a projection for good: the end of the burned-id budget, and the sixth
      failure of an op whose error is denied or local. */
  lemma FailsForGoodExactly(s: Cell, a: Action)
    requires Enabled(s, a) && !s.log.everFailed
    ensures Next(s, a).log.everFailed <==>
            a.ASettle? && (s.exec.GivingUp? || (s.exec.Raised? && (s.exec.err == Denied || s.exec.err == Local) && s.exec.row.attempts >= 5))
  {
    if a.ASend? { SendFrame(s, a.net, a.gone); }
    else if a.ASettle? { SettleFailsExactly(s, a.now); }
  }

  lemma SettleFailsExactly(s: Cell, now: int)
    requires Enabled(s, ASettle(now)) && !s.log.everFailed
    ensures Settle(s, now).log.everFailed <==>
            s.exec.GivingUp? || (s.exec.Raised? && (s.exec.err == Denied || s.exec.err == Local) && s.exec.row.attempts >= 5)
  {
  }

  /** A quota answer or a transient error is retried for ever: the op comes due again exactly after its
      backoff, and the projection does not change. */
  lemma TransientFailuresAreRetried(s: Cell, now: int, later: int)
    requires PipelineOk(s) && Enabled(s, ASettle(now)) && s.exec.Raised? && (s.exec.err == RateLimited || s.exec.err == Transient)
    ensures var t := Settle(s, now);
            && t.proj == s.proj && t.exec == Idle && t.log == s.log
            && (IsDue(t.rows[s.exec.id], s.site.user, later) <==> later - now >= Backoff(s.exec.row.attempts))
  {
    assert RowOk(s.site, s.rows[s.exec.id]);
  }

  /** A copy that dies while it is being restored: answered 410 the create is retried for ever, answered 404
      it counts towards the six. */
  lemma GoneUnderRestore(s: Cell, gone: GoneReply)
    requires s.exec.Restoring? && AtHome(s) && IsTombstone(s.slots, s.exec.gen) && s.exec.etag == s.slots[s.exec.gen].etag
    ensures Send(s, Fine, gone).exec == Raised(s.exec.id, s.exec.row, if gone == WasGone then Transient else Denied)
  {
  }

  /** A clean-up makes the diff visit a projection exactly if it has not failed and does not count as
      cleaned up at that version. */
  lemma CleanupIsVisitedExactly(p: Projection, version: nat)
    ensures Diverged(Cleanup(p, version)) <==> !p.failed && (p.appliedVersion != Some(version) || p.applied != Some(Nothing))
  {
  }

  // ---------------------------------------------------------------------------
  // Success is recorded for what was sent
  // ---------------------------------------------------------------------------

  /** An op that succeeds settles the wish it was stamped with and no other: the projection stays
      diverged exactly if the wish or its version has moved on since, so a replan that happens while
      the op is in flight is never lost. */
  lemma SuccessSettlesOnlyItsOwnWish(s: Cell, now: int)
    requires PipelineOk(s) && Enabled(s, ASettle(now))
    requires s.exec.Created? || s.exec.Updated? || s.exec.Deleted? || s.exec.PatchSent? || s.exec.RemoveSent?
    ensures Diverged(Settle(s, now).proj) <==>
            s.exec.row.version != s.proj.desiredVersion || s.exec.row.stamp != Some(s.proj.desired)
  {
    assert RowOk(s.site, s.rows[s.exec.id]) && SameJob(s.rows[s.exec.id], s.exec.row);
  }

  /** A recorded success is next seen by the diff as a copy to update or delete, whatever was there
      before, never as one to create again; and an update or delete then addresses the recorded id, the
      update under the recorded etag. */
  lemma SuccessIsUpdatedNext(s: Cell, p: Projection, row: Row, gid: nat, etag: nat, id: nat, next: Row)
    requires Managed(s.site) && s.proj == RecordSuccess(p, row, gid, etag)
    ensures Decide(s.site, s.proj, s.flags, true) == Some(if p.desired.Nothing? then Delete else OpKind.Update)
    ensures next.kind == OpKind.Update && next.payload.Some? ==> Begin(s, id, next) == Updating(id, next, gid, Some(etag))
    ensures next.kind == Delete ==> Begin(s, id, next) == Deleting(id, next, gid)
  {
  }

  /** A recorded absence is next seen as a copy to create, or, if nothing is wanted, as nothing to do:
      no second delete of a top-level copy. */
  lemma AbsenceIsRecreatedNext(site: Site, p: Projection, row: Row, flags: Flags)
    requires Managed(site) && !site.isInstance
    ensures Decide(site, RecordAbsent(p, row), flags, true) == if p.desired.Nothing? then None else Some(Create)
    ensures Diverged(RecordAbsent(p, row)) <==> row.version != p.desiredVersion || p.desired.Copy?
  {
  }

  /** A recorded writeback disarms: the diff patches the source again only once a new edit arms the flag
      and what is wanted is not what was sent. */
  lemma WritebackWaitsForANewEdit(site: Site, p: Projection, row: Row, flags: Flags, armed: bool, mapped: bool)
    requires IsOriginWriteback(site) && p.desired.Copy?
    ensures Decide(site, RecordWriteback(p, row), flags.(patchArmed := armed), mapped) ==
            if mapped && armed && AppliedHash(p, row) != p.desired then Some(Patch) else None
    ensures RecordWriteback(p, row).gid == p.gid && RecordWriteback(p, row).etag == p.etag
  {
  }

  // ---------------------------------------------------------------------------
  // No silent masking
  // ---------------------------------------------------------------------------

  ghost predicate Quiescent(s: Cell) {
    s.exec == Idle && !OpenOp(s)
  }

  /** Google holds, in the projection's calendar, exactly what the projection wants. */
  ghost predicate Exact(s: Cell) {
    match s.proj.desired
    case Nothing => forall j :: j in s.slots ==> s.slots[j].Tombstone?
    case Copy(body) =>
      && s.proj.gid.Some? && s.proj.gid.value in s.slots
      && s.slots[s.proj.gid.value].Live? && s.slots[s.proj.gid.value].body == body
      && forall j :: j in s.slots && s.slots[j].Live? ==> s.proj.gid == Some(j)
  }

  /** Ingest of the target calendar would notice (app/ledger/ingest/client.py:505-556). */
  ghost predicate DriftVisible(s: Cell) {
    Enabled(s, ASeeEdit) || Enabled(s, ASeeGone)
  }

  /** Nothing is queued, nothing is running, the diff has nothing to do, and no copy is lost. */
  ghost predicate LooksConverged(s: Cell) {
    && Managed(s.site) && Quiescent(s) && Tracked(s) && !Diverged(s.proj) && !s.proj.failed
  }

  /** In such a state Google holds exactly the desired content, or ingest will see that it does
      not, if and only if the state is not suspicious: the etag is Google's and the content is not
      what counts as applied. */
  lemma MaskedExactlyIfSuspicious(s: Cell)
    requires PipelineOk(s) && LooksConverged(s) && !s.log.unmapped
    ensures Exact(s) || DriftVisible(s) <==> !Suspicious(s)
  {
    assert !OpenCreate(s);
    if s.proj.gid.Some? { assert s.proj.gid.value in s.slots; }
  }

  /** When nothing is queued and the diff sees no divergence, Google holds exactly the desired
      content, or the copy was touched since in a way ingest detects. */
  lemma NoSilentMasking(s: Cell)
    requires Reachable(s) && Managed(s.site)
    requires Quiescent(s) && Tracked(s) && !Diverged(s.proj)
    requires !s.log.everFailed && !s.log.lostReplan && !s.log.unmapped && !s.log.relinked
    ensures Exact(s) || DriftVisible(s)
  {
    ReachableIsOk(s);
    MaskedExactlyIfSuspicious(s);
  }

  // ---------------------------------------------------------------------------
  // The two steps that mask
  // ---------------------------------------------------------------------------

  /** A crash in place of the replan request matters exactly if the version was not cleared already. */
  lemma CrashLosesTheReplanExactly(s: Cell, now: int)
    requires s.exec.Replanning?
    ensures Next(s, ACrash).(log := s.log) == Next(s, ASettle(now)).(log := s.log) <==> !ReplanMatters(s)
  {
  }

  /** A crash in place of the replan request masks exactly if the projection does not look diverged
      without it and Google holds, under the stored etag, something else than what counts as applied. */
  lemma CrashMasksExactly(s: Cell)
    requires PipelineOk(s) && s.exec.Replanning? && !OpenOp(s) && Tracked(s) && Managed(s.site)
    requires !s.proj.failed && !s.log.unmapped
    ensures var t := Next(s, ACrash);
            (LooksConverged(t) && !Exact(t) && !DriftVisible(t)) <==> !Diverged(s.proj) && Suspicious(s)
  {
    var t := Next(s, ACrash);
    StepKeepsPipeline(s, ACrash);
    QuietStepKeepsTracking(s, ACrash);
    assert OpenOp(t) == OpenOp(s);
    if !Diverged(s.proj) {
      MaskedExactlyIfSuspicious(t);
      assert Suspicious(t) == Suspicious(s);
    }
  }

  /** A client calendar without a Google id is never written to: whatever the diff finds, it queues nothing. */
  lemma UnmappedIsNeverQueued(s: Cell, now: int, free: nat)
    requires s.site.target.Client? && Enabled(s, ADiff(false, now, free))
    ensures DiffStep(s, false, now, free).rows == s.rows && !Diverged(DiffStep(s, false, now, free).proj)
  {
  }

  /** A diff of an unmapped calendar masks exactly if Google does not hold what is wanted in a way ingest
      would see. */
  lemma UnmappedDiffMasksExactly(s: Cell, now: int, free: nat)
    requires PipelineOk(s) && Managed(s.site) && s.site.target.Client? && Enabled(s, ADiff(false, now, free))
    requires Quiescent(s) && Tracked(s) && Diverged(s.proj)
    ensures var t := DiffStep(s, false, now, free);
            (LooksConverged(t) && !Exact(t) && !DriftVisible(t)) <==> !Exact(s) && !DriftVisible(s)
  {
    var t := DiffStep(s, false, now, free);
    assert t.rows == s.rows && t.slots == s.slots;
    assert OpenOp(t) == OpenOp(s) && OpenCreate(t) == OpenCreate(s);
  }

  /** A relink masks exactly if the projection is not diverged and the listing was up to date: then
      nothing is wanted, nothing counts as applied, and the copy found is neither deleted nor seen again. */
  lemma RelinkMasksExactly(s: Cell, gen: nat, etag: nat)
    requires PipelineOk(s) && Enabled(s, ARelink(gen, etag)) && !OpenOp(s) && Managed(s.site)
    requires !s.proj.failed && !s.log.unmapped
    ensures var t := Next(s, ARelink(gen, etag));
            (LooksConverged(t) && !Exact(t) && !DriftVisible(t)) <==> !Diverged(s.proj) && etag == s.slots[gen].etag
  {
    var t := Next(s, ARelink(gen, etag));
    StepKeepsPipeline(s, ARelink(gen, etag));
    assert OpenOp(t) == OpenOp(s);
    if !Diverged(s.proj) {
      assert s.proj.desired.Nothing?;
      if s.slots[gen].Live? { RelinkRestoresTracking(s, gen, etag); }
      if Tracked(t) { MaskedExactlyIfSuspicious(t); }
      assert Suspicious(t) <==> etag == s.slots[gen].etag;
    }
  }
}
