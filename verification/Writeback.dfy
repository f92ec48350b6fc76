/** Safety of the user's own source event (app/ledger/diff.py:298-449 and 500-538,
    app/ledger/outbox.py:837-1037). */
module Writeback {
  import opened Base
  import opened OutboxTable
  import opened GoogleModel
  import opened Protocol
  import opened Pipeline
  import opened Witnesses

  /** The master of a recurring series. */
  predicate SeriesMaster(site: Site) {
    !site.isInstance && site.hasRule
  }

  /** In every reachable state a writeback projection has no Google id and no managed event, and
      its outbox holds nothing but patches and source deletes. */
  lemma WritebackNeverOwnsAnEvent(s: Cell)
    requires Reachable(s) && IsOriginWriteback(s.site)
    ensures s.proj.gid.None? && s.slots == map[]
    ensures forall i :: i in s.rows ==> s.rows[i].kind == Patch || s.rows[i].kind == DeleteSource
  {
    ReachableIsOk(s);
    assert forall i :: i in s.rows ==> RowOk(s.site, s.rows[i]);
  }

  /** What a diff pass can make pending on a writeback projection, and when. */
  lemma SourceOpsNeedTheirFlag(s: Cell, mapped: bool, now: int, free: nat, i: nat)
    requires Reachable(s) && IsOriginWriteback(s.site) && Enabled(s, ADiff(mapped, now, free))
    requires var t := DiffStep(s, mapped, now, free);
             i in t.rows && t.rows[i].status == Pending && (i !in s.rows || s.rows[i].status != Pending)
    ensures var r := DiffStep(s, mapped, now, free).rows[i];
            && (r.kind == Patch ==> s.flags.patchArmed && s.proj.desired.Copy? && s.proj.applied != Some(s.proj.desired))
            && (r.kind == DeleteSource ==> s.flags.deleteArmed && s.proj.desired.Nothing? && !SeriesMaster(s.site))
            && (r.kind == Patch || r.kind == DeleteSource)
  {
    ReachableIsOk(s);
    var d := Decide(s.site, s.proj, s.flags, mapped);
    assert Diverged(s.proj) && d.Some?;
    var q := RequestFor(s.site, s.proj, d.value);
    EnqueueKeepsKeysUnique(s.rows, q, now, free);
  }

  /** A diff visit to an armed projection whose source already matches disarms it and queues
      nothing. */
  lemma ConvergedFlagIsDisarmed(s: Cell, now: int, free: nat)
    requires IsOriginWriteback(s.site) && Enabled(s, ADiff(true, now, free)) && Diverged(s.proj)
    requires s.proj.desired.Copy? && s.flags.patchArmed && s.proj.applied == Some(s.proj.desired)
    ensures var t := DiffStep(s, true, now, free);
            !t.flags.patchArmed && t.rows == s.rows && !Diverged(t.proj)
  {
  }

  // ---------------------------------------------------------------------------
  // Whole runs
  // ---------------------------------------------------------------------------

  ghost predicate NoPatchYet(s: Cell) {
    && !s.flags.patchArmed
    && Unused(s.rows, Patch)
    && (forall w :: w in s.event.writes ==> w == Removed)
  }

  ghost predicate NoRemovalYet(s: Cell) {
    && (!s.flags.deleteArmed || SeriesMaster(s.site))
    && Unused(s.rows, DeleteSource)
    && Removed !in s.event.writes
  }

  lemma EnqueueAddsOneKind(t: Table, q: Request, now: int, free: nat, kind: OpKind)
    requires q.kind != kind && forall i :: i in t ==> t[i].kind != kind
    ensures forall i :: i in EnqueueAt(t, q, now, free).0 ==> EnqueueAt(t, q, now, free).0[i].kind != kind
  {
  }

  ghost predicate Unused(t: Table, kind: OpKind) {
    forall i :: i in t ==> t[i].kind != kind
  }

  lemma SettleAddsNoKind(s: Cell, now: int, kind: OpKind)
    requires Enabled(s, ASettle(now)) && Unused(s.rows, kind)
    ensures Unused(Settle(s, now).rows, kind)
  {
  }

  lemma StepAddsNoKind(s: Cell, a: Action, kind: OpKind)
    requires Enabled(s, a) && Unused(s.rows, kind)
    requires a.ADiff? && Diverged(s.proj) ==> Decide(s.site, s.proj, s.flags, a.mapped) != Some(kind)
    ensures Unused(Next(s, a).rows, kind)
  {
    match a
    case ADiff(mapped, now, free) =>
      var d := Decide(s.site, s.proj, s.flags, mapped);
      if Diverged(s.proj) && d.Some? {
        EnqueueAddsOneKind(s.rows, RequestFor(s.site, s.proj, d.value), now, free, kind);
      }
    case ASend(net, gone) => assert Next(s, a).rows == s.rows;
    case ASettle(now) => SettleAddsNoKind(s, now, kind);
    case _ =>
  }

  lemma StepWrites(s: Cell, a: Action)
    requires Enabled(s, a)
    ensures var t := Next(s, a);
            && (s.exec.Patching? || s.exec.Removing? || t.event.writes == s.event.writes)
            && (s.exec.Patching? ==>
                  (t.event.writes == s.event.writes || exists b :: t.event.writes == s.event.writes + [Patched(b)]))
            && (s.exec.Removing? ==> t.event.writes == s.event.writes || t.event.writes == s.event.writes + [Removed])
            && t.site == s.site
            && (t.flags.patchArmed ==> s.flags.patchArmed || a == AArmPatch)
            && (t.flags.deleteArmed ==> s.flags.deleteArmed || a == AArmDelete)
  {
    if a.ASend? { SendFrame(s, a.net, a.gone); SendWrites(s, a.net, a.gone); }
    else { OtherStepsWriteNothing(s, a); }
  }

  lemma SendWrites(s: Cell, net: Net, gone: GoneReply)
    requires AtCall(s.exec)
    ensures var w, u := s.event.writes, Send(s, net, gone).event.writes;
            && (s.exec.Patching? || s.exec.Removing? || u == w)
            && (s.exec.Patching? ==> (u == w || exists b :: u == w + [Patched(b)]))
            && (s.exec.Removing? ==> u == w || u == w + [Removed])
  {
  }

  lemma OtherStepsWriteNothing(s: Cell, a: Action)
    requires Enabled(s, a) && !a.ASend?
    ensures var t := Next(s, a);
            && t.event.writes == s.event.writes && t.site == s.site
            && (t.flags.patchArmed ==> s.flags.patchArmed || a == AArmPatch)
            && (t.flags.deleteArmed ==> s.flags.deleteArmed || a == AArmDelete)
  {
    if a.ASettle? { SettleWritesNothing(s, a.now); }
    else if a.ADiff? { DiffWritesNothing(s, a.mapped, a.now, a.free); }
  }

  lemma SettleWritesNothing(s: Cell, now: int)
    requires Enabled(s, ASettle(now))
    ensures var t := Settle(s, now);
            && t.event == s.event && t.site == s.site
            && (t.flags.patchArmed ==> s.flags.patchArmed) && (t.flags.deleteArmed ==> s.flags.deleteArmed)
  {
  }

  lemma DiffWritesNothing(s: Cell, mapped: bool, now: int, free: nat)
    ensures var t := DiffStep(s, mapped, now, free);
            && t.event == s.event && t.site == s.site
            && (t.flags.patchArmed ==> s.flags.patchArmed) && (t.flags.deleteArmed == s.flags.deleteArmed)
  {
  }

  /** Nothing is being sent to the source that no row asks for. */
  lemma NothingToSend(s: Cell)
    requires PipelineOk(s)
    ensures Unused(s.rows, Patch) ==> !s.exec.Patching?
    ensures Unused(s.rows, DeleteSource) ==> !s.exec.Removing?
  {
  }

  lemma StepBeforeArmingPatch(s: Cell, a: Action)
    requires (Unused(s.rows, Patch) ==> !s.exec.Patching?) && Enabled(s, a) && NoPatchYet(s) && a != AArmPatch
    ensures NoPatchYet(Next(s, a))
  {
    StepAddsNoKind(s, a, Patch);
    StepWrites(s, a);
    StillNoPatch(s, Next(s, a));
  }

  lemma StillNoPatch(s: Cell, t: Cell)
    requires NoPatchYet(s) && Unused(t.rows, Patch) && !t.flags.patchArmed
    requires t.event.writes == s.event.writes || t.event.writes == s.event.writes + [Removed]
    ensures NoPatchYet(t)
  {
  }

  lemma StepBeforeArmingRemoval(s: Cell, a: Action)
    requires (Unused(s.rows, DeleteSource) ==> !s.exec.Removing?) && Enabled(s, a) && NoRemovalYet(s)
    requires a != AArmDelete || SeriesMaster(s.site)
    ensures NoRemovalYet(Next(s, a))
  {
    StepAddsNoKind(s, a, DeleteSource);
    StepWrites(s, a);
    assert Removed !in Next(s, a).event.writes;
  }

  lemma {:induction false} NoPatchWithoutArming(s: Cell, run: seq<Action>)
    requires PipelineOk(s) && NoPatchYet(s) && Valid(s, run) && AArmPatch !in run
    ensures NoPatchYet(Run(s, run))
    decreases |run|
  {
    if run != [] {
      StepKeepsPipeline(s, run[0]);
      NothingToSend(s);
      StepBeforeArmingPatch(s, run[0]);
      NoPatchWithoutArming(Next(s, run[0]), run[1..]);
    }
  }

  lemma {:induction false} NoRemovalWithoutArming(s: Cell, run: seq<Action>)
    requires PipelineOk(s) && NoRemovalYet(s) && Valid(s, run)
    requires AArmDelete !in run || SeriesMaster(s.site)
    ensures NoRemovalYet(Run(s, run))
    decreases |run|
  {
    if run != [] {
      StepKeepsPipeline(s, run[0]);
      NothingToSend(s);
      StepBeforeArmingRemoval(s, run[0]);
      NoRemovalWithoutArming(Next(s, run[0]), run[1..]);
    }
  }

  /** Over whole runs: the source event is patched only if an edit on main armed it, removed only
      if a delete on main armed it, and a series master is never removed at all. */
  lemma SourceIsTouchedOnlyIfArmed(s0: Cell, run: seq<Action>)
    requires Init(s0) && Valid(s0, run)
    ensures AArmPatch !in run ==> forall w :: w in Run(s0, run).event.writes ==> w == Removed
    ensures AArmDelete !in run || SeriesMaster(s0.site) ==> Removed !in Run(s0, run).event.writes
  {
    InitIsOk(s0);
    if AArmPatch !in run { NoPatchWithoutArming(s0, run); }
    if AArmDelete !in run || SeriesMaster(s0.site) { NoRemovalWithoutArming(s0, run); }
  }

  // ---------------------------------------------------------------------------
  // Exactly when a queued patch loses its flag
  // ---------------------------------------------------------------------------

  ghost predicate OpenPatch(t: Table) {
    exists i :: i in t && Open(t[i]) && t[i].kind == Patch
  }

  /** Every patch still owed or under way is backed by the flag. */
  ghost predicate PatchesArmed(s: Cell) {
    OpenPatch(s.rows) ==> s.flags.patchArmed
  }

  /** The two steps that withdraw the flag from an open patch: a diff visit that finds the source
      already matching, and the end of another patch. */
  ghost predicate Disarms(s: Cell, a: Action) {
    || (a.ADiff? && IsOriginWriteback(s.site) && s.flags.patchArmed && OpenPatch(s.rows)
        && Diverged(s.proj) && s.proj.desired.Copy? && s.proj.applied == Some(s.proj.desired))
    || (a.ASettle? && s.exec.PatchSent? && exists i :: i in s.rows && i != s.exec.id && Open(s.rows[i]) && s.rows[i].kind == Patch)
  }

  /** A diff pass leaves a queued patch without its flag exactly when the desired content is already
      what counts as applied. */
  lemma DiffWithdrawsExactly(s: Cell, mapped: bool, now: int, free: nat)
    requires PipelineOk(s) && IsOriginWriteback(s.site) && s.flags.patchArmed && Enabled(s, ADiff(mapped, now, free))
    ensures var t := DiffStep(s, mapped, now, free);
            (OpenPatch(t.rows) && !t.flags.patchArmed) <==>
            OpenPatch(s.rows) && Diverged(s.proj) && s.proj.desired.Copy? && s.proj.applied == Some(s.proj.desired)
  {
    var t := DiffStep(s, mapped, now, free);
    if s.proj.applied == Some(s.proj.desired) && s.proj.desired.Copy? {
      assert t.rows == s.rows;
    }
  }

  /** What a diff pass does to the patches of any projection. */
  lemma DiffOfPatches(s: Cell, mapped: bool, now: int, free: nat)
    requires PipelineOk(s) && Enabled(s, ADiff(mapped, now, free))
    ensures var a, t := ADiff(mapped, now, free), DiffStep(s, mapped, now, free);
            && (PatchesArmed(s) ==> (PatchesArmed(t) <==> !Disarms(s, a)))
            && (!s.flags.patchArmed ==> !t.flags.patchArmed)
  {
    var t := DiffStep(s, mapped, now, free);
    var d := Decide(s.site, s.proj, s.flags, mapped);
    if PatchesArmed(s) {
      if s.flags.patchArmed && IsOriginWriteback(s.site) {
        DiffWithdrawsExactly(s, mapped, now, free);
      } else if !s.flags.patchArmed && Diverged(s.proj) && d.Some? {
        NoPatchIsQueued(s.rows, RequestFor(s.site, s.proj, d.value), now, free);
      }
    }
  }

  lemma NoPatchIsQueued(t: Table, q: Request, now: int, free: nat)
    requires q.kind != Patch && !OpenPatch(t)
    ensures !OpenPatch(EnqueueAt(t, q, now, free).0)
  {
    var u := EnqueueAt(t, q, now, free).0;
    if i :| i in u && Open(u[i]) && u[i].kind == Patch {
      assert i in t && t[i].kind == Patch && Open(t[i]);
    }
  }

  lemma SettleOfPatches(s: Cell, now: int)
    requires PipelineOk(s) && Enabled(s, ASettle(now))
    ensures var t := Settle(s, now);
            && (PatchesArmed(s) ==> (PatchesArmed(t) <==> !Disarms(s, ASettle(now))))
            && (!s.flags.patchArmed ==> !t.flags.patchArmed)
  {
    var t := Settle(s, now);
    if s.exec.PatchSent? {
      OtherPatchesStay(s, now);
    } else if i :| i in t.rows && Open(t.rows[i]) && t.rows[i].kind == Patch {
      PatchWasOpen(s, now, i);
    }
  }

  lemma OtherPatchesStay(s: Cell, now: int)
    requires PipelineOk(s) && Enabled(s, ASettle(now)) && s.exec.PatchSent?
    ensures OpenPatch(Settle(s, now).rows) <==>
            exists i :: i in s.rows && i != s.exec.id && Open(s.rows[i]) && s.rows[i].kind == Patch
    ensures !Settle(s, now).flags.patchArmed
  {
    var t := Settle(s, now);
    assert t.rows == s.rows[s.exec.id := DoneRow(s.rows[s.exec.id], now)];
    if i :| i in s.rows && i != s.exec.id && Open(s.rows[i]) && s.rows[i].kind == Patch {
      assert t.rows[i] == s.rows[i];
    }
    if i :| i in t.rows && Open(t.rows[i]) && t.rows[i].kind == Patch {
      assert i != s.exec.id && t.rows[i] == s.rows[i];
    }
  }

  lemma PatchWasOpen(s: Cell, now: int, i: nat)
    requires ExecLinked(s) && Enabled(s, ASettle(now))
    requires i in Settle(s, now).rows && Open(Settle(s, now).rows[i]) && Settle(s, now).rows[i].kind == Patch
    ensures i in s.rows && Open(s.rows[i]) && s.rows[i].kind == Patch
  {
  }

  lemma QuietStepOfPatches(s: Cell, a: Action)
    requires Enabled(s, a) && !a.ADiff? && !a.ASettle? && !a.ASend?
    ensures OpenPatch(Next(s, a).rows) <==> OpenPatch(s.rows)
    ensures Next(s, a).flags.patchArmed <==> s.flags.patchArmed || a == AArmPatch
  {
    var rows := Next(s, a).rows;
    if i :| i in s.rows && Open(s.rows[i]) && s.rows[i].kind == Patch {
      assert i in rows && Open(rows[i]) && rows[i].kind == Patch;
    }
    if i :| i in rows && Open(rows[i]) && rows[i].kind == Patch {
      assert i in s.rows && Open(s.rows[i]) && s.rows[i].kind == Patch;
    }
  }

  lemma SendOfPatches(s: Cell, net: Net, gone: GoneReply)
    requires AtCall(s.exec)
    ensures Send(s, net, gone).rows == s.rows && Send(s, net, gone).flags == s.flags
  {
  }

  /** Step by step: while every open patch is backed by the flag, exactly the two disarming steps
      change that; once one is not, exactly a new edit on main or the end of the last patch does. */
  lemma StepOfPatches(s: Cell, a: Action)
    requires PipelineOk(s) && Enabled(s, a)
    ensures PatchesArmed(s) ==> (PatchesArmed(Next(s, a)) <==> !Disarms(s, a))
    ensures !PatchesArmed(s) ==> (PatchesArmed(Next(s, a)) <==> a == AArmPatch || !OpenPatch(Next(s, a).rows))
  {
    match a
    case ADiff(mapped, now, free) => DiffOfPatches(s, mapped, now, free);
    case ASettle(now) => SettleOfPatches(s, now);
    case ASend(net, gone) => SendOfPatches(s, net, gone);
    case _ => QuietStepOfPatches(s, a);
  }

  /** Whether some open patch has lost its flag, read off the run alone: `w` says whether one had
      before. */
  ghost predicate Withdrawn(s: Cell, run: seq<Action>, w: bool)
    requires Valid(s, run)
    decreases |run|
  {
    if run == [] then w
    else
      var t := Next(s, run[0]);
      Withdrawn(t, run[1..], if w then run[0] != AArmPatch && OpenPatch(t.rows) else Disarms(s, run[0]))
  }

  /** Over whole runs, exactly: an open patch is without its flag if and only if a disarming step hit
      it and neither a new edit nor the end of the last open patch followed. */
  lemma {:induction false} PatchesAreWithdrawnExactly(s: Cell, run: seq<Action>)
    requires PipelineOk(s) && Valid(s, run)
    ensures PatchesArmed(Run(s, run)) <==> !Withdrawn(s, run, !PatchesArmed(s))
    decreases |run|
  {
    if run != [] {
      StepKeepsPipeline(s, run[0]);
      StepOfPatches(s, run[0]);
      PatchesAreWithdrawnExactly(Next(s, run[0]), run[1..]);
    }
  }

  /** No step of the run withdraws the flag from an open patch. */
  ghost predicate NeverDisarms(s: Cell, run: seq<Action>)
    requires Valid(s, run)
    decreases |run|
  {
    run == [] || (!Disarms(s, run[0]) && NeverDisarms(Next(s, run[0]), run[1..]))
  }

  /** Every patch call of the run is made while the flag is armed. */
  ghost predicate SendsArmed(s: Cell, run: seq<Action>)
    requires Valid(s, run)
    decreases |run|
  {
    run == [] || ((run[0].ASend? && s.exec.Patching? ==> s.flags.patchArmed) && SendsArmed(Next(s, run[0]), run[1..]))
  }

  /** A run without the two disarming steps sends every patch while its flag is armed. */
  lemma {:induction false} PatchesAreSentArmed(s: Cell, run: seq<Action>)
    requires PipelineOk(s) && PatchesArmed(s) && Valid(s, run) && NeverDisarms(s, run)
    ensures SendsArmed(s, run) && PatchesArmed(Run(s, run))
    decreases |run|
  {
    if run != [] {
      if s.exec.Patching? { PatchingIsOpen(s); }
      StepKeepsPipeline(s, run[0]);
      StepOfPatches(s, run[0]);
      PatchesAreSentArmed(Next(s, run[0]), run[1..]);
    }
  }

  lemma PatchingIsOpen(s: Cell)
    requires ExecLinked(s) && s.exec.Patching?
    ensures OpenPatch(s.rows)
  {
    assert Open(s.rows[s.exec.id]) && s.rows[s.exec.id].kind == Patch;
  }

  // ---------------------------------------------------------------------------
  // Disarming does not recall a patch that is already queued
  // ---------------------------------------------------------------------------

  const ORIGIN := Site(1, 1, 5, Client(4), FromClient, Some(4), false, false)

  function OriginFlags(armed: bool): Flags {
    Flags(true, armed, false)
  }

  lemma Arm(s: Cell) returns (t: Cell)
    requires Got(s)
    ensures Got(t) && t == s.(flags := s.flags.(patchArmed := true))
  {
    Advance(s, AArmPatch);
    t := Next(s, AArmPatch);
  }

  lemma QueueFirstEdit() returns (t: Cell)
    ensures Got(t) && t.site == ORIGIN && t.exec == Idle && t.log == CLEAN && t.proj == Fresh(Copy(1), 1)
    ensures t.flags == OriginFlags(true) && t.event == SourceEvent(true, [])
    ensures t.rows == map[1 := NewRow(RequestFor(ORIGIN, Fresh(Copy(1), 1), Patch), 0)]
  {
    var s := Cell(ORIGIN, Fresh(Copy(1), 1), map[], map[], 0, Idle, OriginFlags(false), SourceEvent(true, []), CLEAN);
    Start(s);
    s := Arm(s);
    t := Diff(s, Patch, 1);
  }

  /** An edit on main is written back. */
  lemma WriteBackOnce() returns (t: Cell)
    ensures Got(t) && t.site == ORIGIN && t.exec == Idle && t.log == CLEAN
    ensures t.proj == Projection(Copy(1), 1, Some(Copy(1)), Some(1), Present, None, None, 0, 0, false)
    ensures t.flags == OriginFlags(false) && t.event == SourceEvent(true, [Patched(1)])
    ensures t.rows.Keys == {1} && t.rows[1].status == Done && KeyOf(t.rows[1]) == Key(1, 1, Patch)
  {
    var s := QueueFirstEdit();
    s := Take(s, 1, 0);
    s := Call(s, Fine);
    t := Record(s, 0);
  }

  /** A second edit is queued, and its first attempt fails. */
  lemma QueueSecondEdit() returns (t: Cell)
    ensures Got(t) && t.site == ORIGIN && t.exec == Idle && t.log == CLEAN
    ensures t.proj == Projection(Copy(2), 2, Some(Copy(1)), Some(1), Present, None, None, 0, 0, false)
    ensures t.flags == OriginFlags(true) && t.event == SourceEvent(true, [Patched(1)])
    ensures t.rows.Keys == {1, 2} && t.rows[2].status == Pending && t.rows[2].due == Some(1) && t.rows[2].user == 1
    ensures t.rows[2].calendar == ORIGIN.calendar
    ensures t.rows[2].payload == Some(2) && KeyOf(t.rows[2]) == Key(1, 2, Patch) && t.rows[2].stamp == Some(Copy(2))
  {
    var s := WriteBackOnce();
    s := Arm(s);
    s := Wish(s, Copy(2), 2);
    s := Diff(s, Patch, 2);
    s := Take(s, 2, 0);
    s := Call(s, Down(Transient));
    t := Record(s, 0);
  }

  /** The user takes the edit back.  The diff finds the source already matching and disarms the
      flag, but the queued patch is not superseded: it is sent afterwards, unarmed, and the
      source ends up with the edit the user had withdrawn. */
  lemma WithdrawnEditIsStillSent() returns (t: Cell)
    ensures Reachable(t) && !t.flags.patchArmed
    ensures t.event.writes == [Patched(1), Patched(2)] && t.proj.desired == Copy(1)
  {
    var s := QueueSecondEdit();
    s := Wish(s, Copy(1), 3);
    s := Skip(s);
    s := Take(s, 2, 1);
    t := Call(s, Fine);
    GotIsReachable(t);
  }
}
