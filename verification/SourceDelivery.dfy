/** What writing back achieves at the source: a flag falls only once its work is done there, and a
    fault-free pass does it (app/ledger/outbox.py:837-1037, app/ledger/diff.py:298-449). */
module SourceDelivery {
  import opened Base
  import opened OutboxTable
  import opened GoogleModel
  import opened Protocol
  import opened Worker
  import opened Pipeline
  import opened Guarantees
  import opened Convergence
  import opened Writeback

  function LastWrite(ev: SourceEvent): Option<SourceWrite> {
    if ev.writes == [] then None else Some(ev.writes[|ev.writes| - 1])
  }

  /** There is an event to write to. */
  predicate Writable(s: Cell) {
    s.flags.hasId && s.event.alive
  }

  // ---------------------------------------------------------------------------
  // Safety: what is recorded has happened
  // ---------------------------------------------------------------------------

  /** A worker about to record a removal or a patch has done it, so far as there is an event. */
  ghost predicate SentIsDone(s: Cell) {
    && (s.exec.RemoveSent? ==> !Writable(s))
    && (s.exec.PatchSent? && Writable(s) ==> LastWrite(s.event) == Some(Patched(Body(s.exec.row))))
  }

  lemma SourceOpsAreClient(s: Cell)
    requires RowsOk(s) && ExecLinked(s) && !s.exec.Idle? && !s.exec.Replanning?
    ensures s.exec.row.kind == Patch || s.exec.row.kind == DeleteSource ==> s.site.sourceType == FromClient
  {
    assert RowOk(s.site, s.rows[s.exec.id]);
  }

  lemma SourceCallKeepsSent(s: Cell, net: Net)
    requires (s.exec.Patching? || s.exec.Removing?) && AtHome(s)
    ensures s.exec.Patching? ==> SentIsDone(SendPatch(s, net))
    ensures s.exec.Removing? ==> SentIsDone(SendRemove(s, net))
  {
  }

  /** Calls on a managed copy end at neither record. */
  predicate RecordsSource(e: Exec) {
    e.RemoveSent? || e.PatchSent?
  }

  lemma WritesRecordNoSource(s: Cell, net: Net, gone: GoneReply)
    requires s.exec.Restoring? || s.exec.Updating?
    ensures s.exec.Restoring? ==> !RecordsSource(SendRestore(s, net, gone).exec)
    ensures s.exec.Updating? ==> !RecordsSource(SendUpdate(s, net, gone).exec)
  {
  }

  lemma CreateCallsRecordNoSource(s: Cell, net: Net)
    requires s.exec.Creating? || s.exec.Conflicted?
    ensures s.exec.Creating? ==> !RecordsSource(SendInsert(s, net).exec)
    ensures s.exec.Conflicted? ==> !RecordsSource(SendConfirm(s, net).exec)
  {
  }

  lemma SendKeepsSent(s: Cell, net: Net, gone: GoneReply)
    requires PipelineOk(s) && AtCall(s.exec)
    ensures SentIsDone(Send(s, net, gone))
  {
    OpIsAddressed(s);
    if s.exec.Patching? || s.exec.Removing? { SourceCallKeepsSent(s, net); }
    else if s.exec.Restoring? || s.exec.Updating? { WritesRecordNoSource(s, net, gone); }
    else if s.exec.Creating? || s.exec.Conflicted? { CreateCallsRecordNoSource(s, net); }
  }

  lemma SettleKeepsSent(s: Cell, now: int)
    requires Enabled(s, ASettle(now))
    ensures SentIsDone(Settle(s, now))
  {
  }

  lemma BeginKeepsSent(s: Cell)
    requires PipelineOk(s) && s.exec.Ready?
    ensures SentIsDone(Next(s, ABegin))
  {
    SourceOpsAreClient(s);
  }

  lemma OtherStepKeepsSent(s: Cell, a: Action)
    requires SentIsDone(s) && Enabled(s, a) && !a.ASend? && !a.ASettle? && !a.ABegin?
    ensures SentIsDone(Next(s, a))
  {
  }

  lemma StepKeepsSent(s: Cell, a: Action)
    requires PipelineOk(s) && SentIsDone(s) && Enabled(s, a)
    ensures SentIsDone(Next(s, a))
  {
    if a.ASend? { SendKeepsSent(s, a.net, a.gone); }
    else if a.ASettle? { SettleKeepsSent(s, a.now); }
    else if a.ABegin? { BeginKeepsSent(s); }
    else { OtherStepKeepsSent(s, a); }
  }

  lemma {:induction false} RunKeepsSent(s: Cell, run: seq<Action>)
    requires PipelineOk(s) && SentIsDone(s) && Valid(s, run)
    ensures PipelineOk(Run(s, run)) && SentIsDone(Run(s, run))
    decreases |run|
  {
    if run != [] {
      StepKeepsPipeline(s, run[0]);
      StepKeepsSent(s, run[0]);
      RunKeepsSent(Next(s, run[0]), run[1..]);
    }
  }

  lemma ReachableSent(s: Cell)
    requires Reachable(s)
    ensures PipelineOk(s) && SentIsDone(s)
  {
    var s0, run :| Init(s0) && Valid(s0, run) && Run(s0, run) == s;
    InitIsOk(s0);
    RunKeepsSent(s0, run);
  }

  lemma SettleDisarms(s: Cell, now: int)
    requires Enabled(s, ASettle(now))
    ensures s.flags.deleteArmed && !Settle(s, now).flags.deleteArmed <==> s.flags.deleteArmed && s.exec.RemoveSent?
    ensures Settle(s, now).event == s.event && Settle(s, now).flags.hasId == s.flags.hasId
  {
  }

  lemma SendKeepsFlags(s: Cell, net: Net, gone: GoneReply)
    requires AtCall(s.exec)
    ensures Send(s, net, gone).flags == s.flags && (Send(s, net, gone).event.alive ==> s.event.alive)
  {
    SendFrame(s, net, gone);
  }

  lemma OtherStepKeepsDeleteFlag(s: Cell, a: Action)
    requires Enabled(s, a) && !a.ASettle? && !a.ASend?
    ensures s.flags.deleteArmed ==> Next(s, a).flags.deleteArmed
    ensures Writable(Next(s, a)) ==> Writable(s)
  {
  }

  /** Of all steps, only recording a removal disarms a delete, and then the source event is gone or there
      never was one. */
  lemma DeleteFlagFallsOnlyOnceGone(s: Cell, a: Action)
    requires PipelineOk(s) && SentIsDone(s) && Enabled(s, a)
    ensures s.flags.deleteArmed && !Next(s, a).flags.deleteArmed ==> s.exec.RemoveSent? && !Writable(Next(s, a))
    ensures Writable(Next(s, a)) ==> Writable(s)
  {
    if a.ASettle? { SettleDisarms(s, a.now); }
    else if a.ASend? { SendKeepsFlags(s, a.net, a.gone); }
    else { OtherStepKeepsDeleteFlag(s, a); }
  }

  lemma {:induction false} DisarmedMeansGoneFrom(s: Cell, run: seq<Action>)
    requires PipelineOk(s) && SentIsDone(s) && Valid(s, run)
    ensures s.flags.deleteArmed && !Run(s, run).flags.deleteArmed ==> !Writable(Run(s, run))
    ensures Writable(Run(s, run)) ==> Writable(s)
    decreases |run|
  {
    if run != [] {
      StepKeepsPipeline(s, run[0]);
      StepKeepsSent(s, run[0]);
      DeleteFlagFallsOnlyOnceGone(s, run[0]);
      DisarmedMeansGoneFrom(Next(s, run[0]), run[1..]);
    }
  }

  /** Over whole runs: a delete that was armed once and is armed no more has reached the source, whatever
      happened in between. */
  lemma DisarmedMeansGone(s: Cell, run: seq<Action>)
    requires Reachable(s) && s.flags.deleteArmed && Valid(s, run) && !Run(s, run).flags.deleteArmed
    ensures !Run(s, run).event.alive || !Run(s, run).flags.hasId
  {
    ReachableSent(s);
    DisarmedMeansGoneFrom(s, run);
  }

  /** A writeback is recorded for what the source was last sent: if there still is an event to write to,
      its last write is the patch with the content that now counts as applied. */
  lemma WritebackIsRecordedTruthfully(s: Cell, now: int)
    requires Reachable(s) && s.exec.PatchSent? && Enabled(s, ASettle(now))
    ensures var t := Settle(s, now);
            && t.proj.applied.Some? && t.proj.applied.value.Copy? && !t.flags.patchArmed && t.event == s.event
            && (Writable(t) ==> LastWrite(t.event) == Some(Patched(t.proj.applied.value.body)))
  {
    ReachableSent(s);
    assert RowOk(s.site, s.rows[s.exec.id]) && SameJob(s.rows[s.exec.id], s.exec.row);
  }

  // ---------------------------------------------------------------------------
  // Liveness: a fault-free pass writes back
  // ---------------------------------------------------------------------------

  /** The diff wants the source event deleted. */
  predicate WantsRemoval(s: Cell) {
    s.proj.desired.Nothing? && s.flags.deleteArmed && !SeriesMaster(s.site)
  }

  /** The diff wants the source event patched. */
  predicate WantsPatch(s: Cell) {
    s.proj.desired.Copy? && s.flags.patchArmed && s.proj.applied != Some(s.proj.desired)
  }

  lemma FinishRemoval(s: Cell, gone: GoneReply, now: int)
    requires s.exec.Removing? && AtHome(s) && s.exec.id in s.rows
    ensures Finish(s, gone, now) ==
      s.(event := if s.event.alive then SourceEvent(false, s.event.writes + [Removed]) else s.event,
         proj := RecordAbsent(s.proj, s.exec.row), flags := s.flags.(deleteArmed := false),
         rows := s.rows[s.exec.id := DoneRow(s.rows[s.exec.id], now)], exec := Idle)
  {
    var s1 := Tick(s, gone, now);
    assert s1.exec.RemoveSent?;
    var s2 := Tick(s1, gone, now);
    assert Finish(s, gone, now) == Finish(s1, gone, now) == s2;
  }

  lemma FinishPatch(s: Cell, gone: GoneReply, now: int)
    requires s.exec.Patching? && AtHome(s) && s.exec.id in s.rows
    ensures Finish(s, gone, now) ==
      s.(event := if s.event.alive then s.event.(writes := s.event.writes + [Patched(Body(s.exec.row))]) else s.event,
         proj := RecordWriteback(s.proj, s.exec.row), flags := s.flags.(patchArmed := false),
         rows := s.rows[s.exec.id := DoneRow(s.rows[s.exec.id], now)], exec := Idle)
  {
    var s1 := Tick(s, gone, now);
    assert s1.exec.PatchSent?;
    var s2 := Tick(s1, gone, now);
    assert Finish(s, gone, now) == Finish(s1, gone, now) == s2;
  }

  /** Without an event id the op only records. */
  lemma FinishRecorded(s: Cell, gone: GoneReply, now: int)
    requires (s.exec.RemoveSent? || s.exec.PatchSent?) && s.exec.id in s.rows
    ensures Finish(s, gone, now) == Settle(s, now)
  {
    var s1 := Tick(s, gone, now);
    assert Finish(s, gone, now) == Finish(s1, gone, now) == s1;
  }

  lemma NothingLeftOpen(r: Cell, u: Cell, id: nat, now: int)
    requires id in r.rows && u.rows == r.rows[id := DoneRow(r.rows[id], now)]
    requires forall i :: i in r.rows && i != id ==> !Open(r.rows[i])
    ensures !OpenOp(u)
  {
  }

  lemma PassRemoves(s: Cell, u: Cell, f: Forecast, gone: GoneReply, now: int)
    requires AtEase(s) && IsOriginWriteback(s.site) && Diverged(s.proj) && WantsRemoval(s)
    requires Pass(s, u, f, now) && FineWeather(f, gone)
    ensures !u.flags.deleteArmed && !Diverged(u.proj) && !OpenOp(u)
    ensures u.event == if Writable(s) then SourceEvent(false, s.event.writes + [Removed]) else s.event
  {
    var r, id, row := PassRunsOneOp(s, u, DeleteSource, f, gone, now);
    if s.flags.hasId { FinishRemoval(r, gone, now); } else { FinishRecorded(r, gone, now); }
    NothingLeftOpen(r, u, id, now);
  }

  lemma PassPatches(s: Cell, u: Cell, f: Forecast, gone: GoneReply, now: int)
    requires AtEase(s) && IsOriginWriteback(s.site) && Diverged(s.proj) && WantsPatch(s)
    requires Pass(s, u, f, now) && FineWeather(f, gone)
    ensures !u.flags.patchArmed && !Diverged(u.proj) && !OpenOp(u)
    ensures u.event == if Writable(s) then SourceEvent(true, s.event.writes + [Patched(s.proj.desired.body)]) else s.event
  {
    var r, id, row := PassRunsOneOp(s, u, Patch, f, gone, now);
    if s.flags.hasId { FinishPatch(r, gone, now); } else { FinishRecorded(r, gone, now); }
    NothingLeftOpen(r, u, id, now);
  }

  lemma PassWritesNothing(s: Cell, u: Cell, f: Forecast, now: int)
    requires AtEase(s) && IsOriginWriteback(s.site) && Diverged(s.proj) && !WantsRemoval(s) && !WantsPatch(s)
    requires Pass(s, u, f, now)
    ensures u.event == s.event && !Diverged(u.proj) && !OpenOp(u)
  {
    var free :| free !in s.rows && Carried(DiffStep(s, true, now, free), u, f, now);
    var t := DiffStep(s, true, now, free);
    assert t.rows == s.rows;
    var xs :| Strides(t, xs, u, f, now);
    forall i | i in t.rows ensures !IsDue(t.rows[i], t.site.user, now) {}
    NothingDueNothingDone(t, xs, u, f, now);
  }

  /** From any reachable state at rest with a divergence to resolve, one fault-free pass writes to the
      source exactly what is armed and wanted: it removes the event of a deleted copy, or sends the content
      wanted, or nothing; and nothing is left to do. */
  lemma PassWritesBackExactly(s: Cell, u: Cell, f: Forecast, gone: GoneReply, now: int)
    requires Reachable(s) && Quiescent(s) && IsOriginWriteback(s.site) && Diverged(s.proj)
    requires Pass(s, u, f, now) && FineWeather(f, gone)
    ensures !Diverged(u.proj) && Quiescent(u)
    ensures u.event ==
      if WantsRemoval(s) && Writable(s) then SourceEvent(false, s.event.writes + [Removed])
      else if WantsPatch(s) && Writable(s) then SourceEvent(true, s.event.writes + [Patched(s.proj.desired.body)])
      else s.event
    ensures WantsRemoval(s) ==> !u.flags.deleteArmed
    ensures WantsPatch(s) ==> !u.flags.patchArmed
  {
    ReachableIsOk(s);
    assert forall i :: i in s.rows ==> RowOk(s.site, s.rows[i]);
    PassEndsIdle(s, u, f, now);
    if WantsRemoval(s) { PassRemoves(s, u, f, gone, now); }
    else if WantsPatch(s) { PassPatches(s, u, f, gone, now); }
    else { PassWritesNothing(s, u, f, now); }
  }

  lemma PassEndsIdle(s: Cell, u: Cell, f: Forecast, now: int)
    requires Pass(s, u, f, now)
    ensures u.exec == Idle
  {
    var free :| free !in s.rows && Carried(DiffStep(s, true, now, free), u, f, now);
    var xs :| Strides(DiffStep(s, true, now, free), xs, u, f, now);
    StridesEndIdle(DiffStep(s, true, now, free), xs, u, f, now);
  }

  lemma {:induction false} StridesEndIdle(s: Cell, xs: seq<Stride>, u: Cell, f: Forecast, now: int)
    requires s.exec == Idle && Strides(s, xs, u, f, now)
    ensures u.exec == Idle
    decreases |xs|
  {
    if xs != [] {
      if xs[0].Carry? {
        var c := Next(s, AClaim(xs[0].id, now));
        LeadsToItself(c);
        PerformLeads(c, c, f, xs[0].asked, now);
      }
      StridesEndIdle(Advance(s, xs[0], f, now), xs[1..], u, f, now);
    }
  }
}
