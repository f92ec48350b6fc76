/** What every step of the write pipeline keeps. */
module Pipeline {
  import opened Base
  import opened OutboxTable
  import opened GoogleModel
  import opened Protocol
  import opened ReservedIds

  /** A copy we own: neither the user's source event nor a legacy personal row. */
  predicate Managed(site: Site) {
    !IsOriginWriteback(site) && !IsLegacyPersonal(site)
  }

  ghost predicate OpenOp(s: Cell) {
    exists i :: i in s.rows && Open(s.rows[i])
  }

  // ---------------------------------------------------------------------------
  // Outbox rows
  // ---------------------------------------------------------------------------

  predicate KindAllowed(site: Site, kind: OpKind) {
    if IsOriginWriteback(site) then kind == Patch || kind == DeleteSource
    else !IsLegacyPersonal(site) && (kind == Create || kind == Update || kind == Delete)
  }

  /** The stamped hash of an op is the hash of what it sends. */
  predicate Stamped(r: Row) {
    if r.kind == Delete || r.kind == DeleteSource then r.stamp == Some(Nothing)
    else r.payload.Some? && r.stamp == Some(Copy(r.payload.value))
  }

  predicate RowOk(site: Site, r: Row) {
    && r.user == site.user && r.proj == site.proj && r.calendar == site.calendar
    && KindAllowed(site, r.kind) && Stamped(r)
  }

  ghost predicate RowsOk(s: Cell) {
    UniqueKeys(s.rows) && forall i :: i in s.rows ==> RowOk(s.site, s.rows[i])
  }

  // ---------------------------------------------------------------------------
  // The worker
  // ---------------------------------------------------------------------------

  predicate SameJob(a: Row, b: Row) {
    a.kind == b.kind && a.payload == b.payload && a.stamp == b.stamp && a.version == b.version && a.calendar == b.calendar
  }

  predicate AtKind(e: Exec, kind: OpKind) {
    match e
    case Creating(_, _, _, _, _) => kind == Create
    case Conflicted(_, _, _, _, _) => kind == Create
    case Burned(_, _, _, _, _) => kind == Create
    case GivingUp(_, _, _) => kind == Create
    case Restoring(_, _, _, _) => kind == Create
    case Created(_, _, _, _) => kind == Create
    case Updating(_, _, _, _) => kind == Update
    case Refreshing(_, _, _) => kind == Update
    case Updated(_, _, _, _) => kind == Update
    case Vanished(_, _, _, _) => kind == Update
    case Deleting(_, _, _) => kind == Delete
    case Deleted(_, _) => kind == Delete
    case Patching(_, _) => kind == Patch
    case PatchSent(_, _) => kind == Patch
    case Removing(_, _) => kind == DeleteSource
    case RemoveSent(_, _) => kind == DeleteSource
    case _ => true
  }

  /** The op being executed is in flight in the table. */
  ghost predicate ExecLinked(s: Cell) {
    s.exec.Idle? || s.exec.Replanning? ||
    (s.exec.id in s.rows && s.rows[s.exec.id].status == InFlight &&
     SameJob(s.rows[s.exec.id], s.exec.row) && AtKind(s.exec, s.exec.row.kind))
  }

  ghost predicate GoneAt(s: Cell, gid: Option<nat>) {
    gid.None? || IsTombstone(s.slots, gid.value)
  }

  ghost predicate ExecTargetOk(s: Cell) {
    match s.exec
    case Updating(_, _, gen, _) => s.proj.gid == Some(gen)
    case Refreshing(_, _, gen) => s.proj.gid == Some(gen)
    case Updated(_, row, gen, etag) => s.proj.gid == Some(gen) && Wrote(s, row, gen, etag)
    case Created(_, row, gen, etag) => Wrote(s, row, gen, etag)
    case Vanished(_, _, gen, _) => s.proj.gid == Some(gen) && IsTombstone(s.slots, gen)
    case Deleting(_, _, gen) => s.proj.gid == Some(gen)
    case Deleted(_, _) => GoneAt(s, s.proj.gid)
    case _ => true
  }

  /** Unless somebody touched it since, the slot holds what the op sent. */
  ghost predicate Wrote(s: Cell, row: Row, gen: nat, etag: nat) {
    && gen in s.slots && etag < s.tick
    && (s.slots[gen].etag == etag ==> row.payload.Some? && s.slots[gen] == Live(row.payload.value, etag))
  }

  // ---------------------------------------------------------------------------
  // The projection row against Google
  // ---------------------------------------------------------------------------

  ghost predicate EtagsOk(s: Cell) {
    && (forall k :: k in s.slots ==> s.slots[k].etag < s.tick)
    && (s.proj.etag.Some? ==> s.proj.etag.value < s.tick)
    && (s.proj.gid.Some? ==> s.proj.etag.Some? && s.proj.gid.value in s.slots)
  }

  ghost predicate BeliefOk(s: Cell) {
    && (!Managed(s.site) ==> s.proj.gid.None? && s.slots == map[])
    && (s.proj.current == Unknown ==> s.proj.gid.None?)
    && (!s.log.unmapped ==>
          && (s.proj.current == Absent ==> GoneAt(s, s.proj.gid))
          && (s.proj.applied.Some? && s.proj.applied.value.Copy? && Managed(s.site) ==> s.proj.gid.Some?))
    && (!s.log.unmapped && !s.log.relinked ==>
          s.proj.applied == Some(Nothing) && s.proj.appliedVersion.Some? ==> GoneAt(s, s.proj.gid))
  }

  /** The projection looks applied, its etag is Google's, yet Google holds something else. */
  ghost predicate Suspicious(s: Cell) {
    && Managed(s.site)
    && s.proj.gid.Some? && s.proj.gid.value in s.slots && s.slots[s.proj.gid.value].Live?
    && s.proj.etag == Some(s.slots[s.proj.gid.value].etag)
    && s.proj.appliedVersion.Some?
    && s.proj.applied != Some(Copy(s.slots[s.proj.gid.value].body))
  }

  ghost predicate SuspicionOk(s: Cell) {
    Suspicious(s) ==>
      OpenOp(s) || s.exec.Replanning? || s.log.everFailed || s.log.lostReplan || s.log.unmapped || s.log.relinked
  }

  /** What is believed about Google, and by whom it is owed when it is wrong. */
  ghost predicate BeliefsOk(s: Cell) {
    && ExecTargetOk(s) && EtagsOk(s) && BeliefOk(s) && SuspicionOk(s)
    && (s.site.isInstance ==> IsOriginWriteback(s.site))
    && (s.proj.failed ==> s.log.everFailed)
  }

  ghost predicate PipelineOk(s: Cell) {
    IdsOk(s) && RowsOk(s) && ExecLinked(s) && BeliefsOk(s)
  }

  // ---------------------------------------------------------------------------
  // Every step keeps it
  // ---------------------------------------------------------------------------

  lemma RequestIsOk(s: Cell, kind: OpKind, now: int)
    requires Decide(s.site, s.proj, s.flags, true) == Some(kind)
    ensures var q := RequestFor(s.site, s.proj, kind);
            && RowOk(s.site, NewRow(q, now))
            && forall r: Row :: RowOk(s.site, r) && KeyOf(r) == RequestKey(q) ==> RowOk(s.site, Revive(r, q, now))
  {
  }

  lemma EnqueueKeepsRowOk(site: Site, t: Table, q: Request, now: int, free: nat)
    requires forall i :: i in t ==> RowOk(site, t[i])
    requires RowOk(site, NewRow(q, now))
    requires forall r: Row :: RowOk(site, r) && KeyOf(r) == RequestKey(q) ==> RowOk(site, Revive(r, q, now))
    ensures var t' := EnqueueAt(t, q, now, free).0; forall i :: i in t' ==> RowOk(site, t'[i])
  {
  }

  lemma EnqueueKeepsRows(s: Cell, kind: OpKind, now: int, free: nat)
    requires RowsOk(s) && free !in s.rows && s.exec == Idle
    requires Decide(s.site, s.proj, s.flags, true) == Some(kind)
    ensures var t := EnqueueAt(s.rows, RequestFor(s.site, s.proj, kind), now, free).0;
            && RowsOk(s.(rows := t))
            && OpenOp(s.(rows := t))
  {
    var q := RequestFor(s.site, s.proj, kind);
    RequestIsOk(s, kind, now);
    EnqueueKeepsKeysUnique(s.rows, q, now, free);
    EnqueueKeepsRowOk(s.site, s.rows, q, now, free);
  }

  lemma DiffKeepsPipeline(s: Cell, mapped: bool, now: int, free: nat)
    requires PipelineOk(s) && Enabled(s, ADiff(mapped, now, free))
    ensures PipelineOk(DiffStep(s, mapped, now, free))
  {
    if Diverged(s.proj) {
      var d := Decide(s.site, s.proj, s.flags, mapped);
      if d.Some? {
        EnqueueKeepsRows(s, d.value, now, free);
      }
    }
  }

  /** The op in hand addresses the projection's own calendar. */
  lemma OpIsAddressed(s: Cell)
    requires RowsOk(s) && ExecLinked(s) && !s.exec.Idle? && !s.exec.Replanning?
    ensures AtHome(s)
  {
    assert RowOk(s.site, s.rows[s.exec.id]);
  }

  lemma InsertKeepsPipeline(s: Cell, net: Net)
    requires PipelineOk(s) && s.exec.Creating? && AtHome(s)
    ensures PipelineOk(SendInsert(s, net))
  {
    SendKeepsIds(s, net, NotFound);
    InsertKeepsBeliefs(s, net);
    InsertKeepsLink(s, net);
  }

  lemma InsertKeepsLink(s: Cell, net: Net)
    requires PipelineOk(s) && s.exec.Creating? && AtHome(s)
    ensures var t := SendInsert(s, net); RowsOk(t) && ExecLinked(t) && OpenOp(t)
  {
    InsertFrame(s, net);
    assert Open(s.rows[s.exec.id]);
  }

  lemma InsertKeepsBeliefs(s: Cell, net: Net)
    requires PipelineOk(s) && s.exec.Creating? && AtHome(s)
    ensures var t := SendInsert(s, net); EtagsOk(t) && BeliefOk(t) && ExecTargetOk(t)
  {
  }

  lemma ConfirmKeepsPipeline(s: Cell, net: Net)
    requires PipelineOk(s) && s.exec.Conflicted? && AtHome(s)
    ensures PipelineOk(SendConfirm(s, net))
  {
    SendKeepsIds(s, net, NotFound);
    var t := SendConfirm(s, net);
    assert t.rows == s.rows && t.proj == s.proj && t.slots == s.slots;
    assert Open(t.rows[s.exec.id]);
  }

  lemma RestoreKeepsPipeline(s: Cell, net: Net, gone: GoneReply)
    requires PipelineOk(s) && s.exec.Restoring? && AtHome(s)
    ensures PipelineOk(SendRestore(s, net, gone))
  {
    SendKeepsIds(s, net, gone);
    WriteFrame(s, net, gone);
    assert Open(s.rows[s.exec.id]);
  }

  lemma SendUpdateKeepsPipeline(s: Cell, net: Net, gone: GoneReply)
    requires PipelineOk(s) && s.exec.Updating? && AtHome(s)
    ensures PipelineOk(SendUpdate(s, net, gone))
  {
    SendKeepsIds(s, net, gone);
    WriteFrame(s, net, gone);
    assert Open(s.rows[s.exec.id]);
  }

  lemma SendRefreshKeepsPipeline(s: Cell, net: Net)
    requires PipelineOk(s) && s.exec.Refreshing? && AtHome(s)
    ensures PipelineOk(SendRefresh(s, net))
  {
    SendKeepsIds(s, net, NotFound);
    ReadFrame(s, net);
    assert Open(s.rows[s.exec.id]);
  }

  lemma SendDeleteKeepsPipeline(s: Cell, net: Net)
    requires PipelineOk(s) && s.exec.Deleting? && AtHome(s)
    ensures PipelineOk(SendDelete(s, net))
  {
    SendKeepsIds(s, net, NotFound);
    var t := SendDelete(s, net);
    assert t.rows == s.rows && t.proj == s.proj;
    assert Open(t.rows[s.exec.id]);
  }

  /** A call that touches the source event, and where the worker goes from there. */
  lemma SourceCallKeepsPipeline(s: Cell, event: SourceEvent, exec: Exec)
    requires PipelineOk(s) && (s.exec.Patching? || s.exec.Removing?)
    requires exec.PatchSent? || exec.RemoveSent? || exec.Raised?
    requires exec.id == s.exec.id && exec.row == s.exec.row && AtKind(exec, exec.row.kind)
    ensures PipelineOk(s.(event := event, exec := exec))
  {
    var t := s.(event := event, exec := exec);
    assert Open(t.rows[s.exec.id]);
  }

  lemma SendSourceKeepsPipeline(s: Cell, net: Net, gone: GoneReply)
    requires PipelineOk(s) && (s.exec.Patching? || s.exec.Removing?) && AtHome(s)
    ensures PipelineOk(Send(s, net, gone))
  {
    var t := Send(s, net, gone);
    SourceCallKeepsPipeline(s, t.event, t.exec);
  }

  /** A row that leaves the in-flight state keeps its identity. */
  lemma RewriteKeepsRows(s: Cell, id: nat, r: Row)
    requires RowsOk(s) && id in s.rows && KeyOf(r) == KeyOf(s.rows[id]) && RowOk(s.site, r)
    ensures RowsOk(s.(rows := s.rows[id := r]))
  {
  }

  lemma SettleSuccessKeepsPipeline(s: Cell, now: int)
    requires PipelineOk(s) && Enabled(s, ASettle(now)) && (s.exec.Created? || s.exec.Updated?)
    ensures PipelineOk(Settle(s, now))
  {
    SettleKeepsIds(s, now);
    RewriteKeepsRows(s, s.exec.id, DoneRow(s.rows[s.exec.id], now));
    var t := Settle(s, now);
    assert !Suspicious(t);
  }

  lemma SettleRemovalKeepsPipeline(s: Cell, now: int)
    requires PipelineOk(s) && Enabled(s, ASettle(now))
    requires s.exec.Deleted? || s.exec.PatchSent? || s.exec.RemoveSent?
    ensures PipelineOk(Settle(s, now))
  {
    SettleKeepsIds(s, now);
    RewriteKeepsRows(s, s.exec.id, DoneRow(s.rows[s.exec.id], now));
    var t := Settle(s, now);
    assert !Suspicious(t);
  }

  lemma SettleFailureKeepsPipeline(s: Cell, now: int)
    requires PipelineOk(s) && Enabled(s, ASettle(now)) && (s.exec.Raised? || s.exec.GivingUp?)
    ensures PipelineOk(Settle(s, now))
  {
    SettleKeepsIds(s, now);
    var id := s.exec.id;
    var t := Settle(s, now);
    RewriteKeepsRows(s, id, t.rows[id]);
    if !t.log.everFailed { assert Open(t.rows[id]); }
  }

  lemma SettleSupersedeKeepsPipeline(s: Cell, now: int)
    requires PipelineOk(s) && Enabled(s, ASettle(now))
    requires s.exec.Burned? || s.exec.Vanished? || s.exec.Superseding? || s.exec.Replanning?
    ensures PipelineOk(Settle(s, now))
  {
    SettleKeepsIds(s, now);
    var t := Settle(s, now);
    if s.exec.Superseding? {
      RewriteKeepsRows(s, s.exec.id, t.rows[s.exec.id]);
    } else {
      assert t.rows == s.rows;
      if !s.exec.Replanning? { assert Open(t.rows[s.exec.id]); }
    }
  }

  /** Rewriting rows alone, without losing an open op. */
  lemma NewRowsKeepPipeline(s: Cell, rows: Table)
    requires PipelineOk(s) && RowsOk(s.(rows := rows)) && ExecLinked(s.(rows := rows))
    requires OpenOp(s) ==> OpenOp(s.(rows := rows))
    ensures PipelineOk(s.(rows := rows))
  {
    assert IdsOk(s.(rows := rows));
  }

  lemma ReclaimKeepsRows(s: Cell, cutoff: Option<int>)
    requires RowsOk(s) && Enabled(s, AReclaim(cutoff))
    ensures RowsOk(Next(s, AReclaim(cutoff))) && (OpenOp(s) ==> OpenOp(Next(s, AReclaim(cutoff))))
  {
    var t := Next(s, AReclaim(cutoff));
    assert t.rows.Keys == s.rows.Keys;
    forall i | i in s.rows ensures KeyOf(t.rows[i]) == KeyOf(s.rows[i]) && RowOk(s.site, t.rows[i]) {}
    if i :| i in s.rows && Open(s.rows[i]) {
      assert i in t.rows && Open(t.rows[i]);
    }
  }

  lemma ReclaimKeepsPipeline(s: Cell, cutoff: Option<int>)
    requires PipelineOk(s) && Enabled(s, AReclaim(cutoff))
    ensures PipelineOk(Next(s, AReclaim(cutoff)))
  {
    var rows := map i | i in s.rows :: ReclaimRow(s.rows[i], cutoff);
    ReclaimKeepsRows(s, cutoff);
    NewRowsKeepPipeline(s, rows);
  }

  lemma ExpiryKeepsRows(s: Cell, before: int)
    requires RowsOk(s) && ExecLinked(s)
    ensures var t := Next(s, AExpire(before)); RowsOk(t) && ExecLinked(t) && (OpenOp(s) ==> OpenOp(t))
  {
    var t := Next(s, AExpire(before));
    if i :| i in s.rows && Open(s.rows[i]) {
      assert i in t.rows && Open(t.rows[i]);
    }
  }

  lemma ExpiryKeepsPipeline(s: Cell, before: int)
    requires PipelineOk(s)
    ensures PipelineOk(Next(s, AExpire(before)))
  {
    var rows := map i | i in s.rows && !Expired(s.rows[i], before) :: s.rows[i];
    ExpiryKeepsRows(s, before);
    NewRowsKeepPipeline(s, rows);
  }

  lemma ClaimKeepsRows(s: Cell, id: nat, now: int)
    requires RowsOk(s) && Enabled(s, AClaim(id, now))
    ensures var t := Next(s, AClaim(id, now)); RowsOk(t) && ExecLinked(t) && OpenOp(t)
  {
    var t := Next(s, AClaim(id, now));
    assert Open(t.rows[id]);
  }

  lemma ClaimKeepsPipeline(s: Cell, id: nat, now: int)
    requires PipelineOk(s) && Enabled(s, AClaim(id, now))
    ensures PipelineOk(Next(s, AClaim(id, now)))
  {
    ClaimKeepsRows(s, id, now);
  }

  /** A step that touches neither the rows nor the worker has to keep the beliefs only. */
  lemma SameRowsKeepPipeline(s: Cell, a: Action)
    requires PipelineOk(s) && Enabled(s, a)
    requires Next(s, a).rows == s.rows && Next(s, a).site == s.site && Next(s, a).exec == s.exec
    requires BeliefsOk(Next(s, a))
    ensures PipelineOk(Next(s, a))
  {
    StepKeepsIds(s, a);
  }

  lemma PlannerKeepsBeliefs(s: Cell, a: Action)
    requires PipelineOk(s) && Enabled(s, a) && (a.APlan? || a.AImplicitAbsent? || a.ACleanup?)
    ensures Next(s, a).rows == s.rows && BeliefsOk(Next(s, a))
  {
    var t := Next(s, a);
    assert t.rows == s.rows && t.slots == s.slots && t.exec == s.exec && t.flags == s.flags && t.log == s.log;
    assert OpenOp(t) == OpenOp(s);
  }

  lemma AdminKeepsBeliefs(s: Cell, a: Action)
    requires PipelineOk(s) && Enabled(s, a) && (a.ARetryFailures? || a.AArmPatch? || a.AArmDelete?)
    ensures Next(s, a).rows == s.rows && BeliefsOk(Next(s, a))
  {
    var t := Next(s, a);
    assert t.rows == s.rows && t.slots == s.slots && t.exec == s.exec && t.log == s.log;
    assert OpenOp(t) == OpenOp(s);
  }

  lemma IngestKeepsBeliefs(s: Cell, a: Action)
    requires PipelineOk(s) && Enabled(s, a)
    requires a.AForceReplan? || a.ASeeEdit? || a.ASeeGone? || a.ARelink?
    ensures Next(s, a).rows == s.rows && BeliefsOk(Next(s, a))
  {
    var t := Next(s, a);
    assert t.rows == s.rows && t.slots == s.slots && t.exec == s.exec;
    assert OpenOp(t) == OpenOp(s);
  }

  lemma UserKeepsBeliefs(s: Cell, gen: nat, slot: Slot)
    requires PipelineOk(s) && gen in s.slots && s.slots[gen].Live? && slot.etag == s.tick
    ensures BeliefsOk(s.(slots := s.slots[gen := slot], tick := s.tick + 1))
  {
    var t := s.(slots := s.slots[gen := slot], tick := s.tick + 1);
    assert OpenOp(t) == OpenOp(s);
  }

  lemma TimeKeepsBeliefs(s: Cell, a: Action)
    requires PipelineOk(s) && Enabled(s, a) && (a.ASourceDeleted? || a.ATick?)
    ensures Next(s, a).rows == s.rows && BeliefsOk(Next(s, a))
  {
    var t := Next(s, a);
    assert t.rows == s.rows && t.proj == s.proj && t.exec == s.exec && t.slots == s.slots;
    assert OpenOp(t) == OpenOp(s);
  }

  lemma CrashKeepsPipeline(s: Cell)
    requires PipelineOk(s)
    ensures PipelineOk(Next(s, ACrash))
  {
    StepKeepsIds(s, ACrash);
    var t := Next(s, ACrash);
    assert OpenOp(t) == OpenOp(s);
  }

  lemma BeginKeepsRows(s: Cell)
    requires RowsOk(s) && ExecLinked(s) && Enabled(s, ABegin)
    ensures var t := Next(s, ABegin); t.rows == s.rows && RowsOk(t) && ExecLinked(t)
  {
  }

  lemma BeginKeepsBeliefs(s: Cell)
    requires PipelineOk(s) && Enabled(s, ABegin)
    ensures BeliefsOk(Next(s, ABegin))
  {
    var t := Next(s, ABegin);
    assert t.rows == s.rows && t.slots == s.slots && t.proj == s.proj;
    assert OpenOp(t) == OpenOp(s);
  }

  lemma BeginKeepsPipeline(s: Cell)
    requires PipelineOk(s) && Enabled(s, ABegin)
    ensures PipelineOk(Next(s, ABegin))
  {
    StepKeepsIds(s, ABegin);
    BeginKeepsRows(s);
    BeginKeepsBeliefs(s);
  }

  lemma SendKeepsPipeline(s: Cell, net: Net, gone: GoneReply)
    requires PipelineOk(s) && AtCall(s.exec)
    ensures PipelineOk(Send(s, net, gone))
  {
    OpIsAddressed(s);
    if s.exec.Creating? {
      InsertKeepsPipeline(s, net);
    } else if s.exec.Conflicted? {
      ConfirmKeepsPipeline(s, net);
    } else if s.exec.Restoring? {
      RestoreKeepsPipeline(s, net, gone);
    } else if s.exec.Updating? {
      SendUpdateKeepsPipeline(s, net, gone);
    } else if s.exec.Refreshing? {
      SendRefreshKeepsPipeline(s, net);
    } else if s.exec.Deleting? {
      SendDeleteKeepsPipeline(s, net);
    } else {
      SendSourceKeepsPipeline(s, net, gone);
    }
  }

  lemma SettleKeepsPipeline(s: Cell, now: int)
    requires PipelineOk(s) && Enabled(s, ASettle(now))
    ensures PipelineOk(Settle(s, now))
  {
    if s.exec.Created? || s.exec.Updated? { SettleSuccessKeepsPipeline(s, now); }
    else if s.exec.Deleted? || s.exec.PatchSent? || s.exec.RemoveSent? { SettleRemovalKeepsPipeline(s, now); }
    else if s.exec.Raised? || s.exec.GivingUp? { SettleFailureKeepsPipeline(s, now); }
    else { SettleSupersedeKeepsPipeline(s, now); }
  }

  lemma OutsiderKeepsPipeline(s: Cell, a: Action)
    requires PipelineOk(s) && Enabled(s, a)
    requires !a.ADiff? && !a.AClaim? && !a.ABegin? && !a.ASend? && !a.ASettle? && !a.ACrash? && !a.AReclaim? && !a.AExpire?
    ensures PipelineOk(Next(s, a))
  {
    if a.APlan? || a.AImplicitAbsent? || a.ACleanup? {
      PlannerKeepsBeliefs(s, a);
    } else if a.ARetryFailures? || a.AArmPatch? || a.AArmDelete? {
      AdminKeepsBeliefs(s, a);
    } else if a.AForceReplan? || a.ASeeEdit? || a.ASeeGone? || a.ARelink? {
      IngestKeepsBeliefs(s, a);
    } else if a.AUserEdit? || a.AUserDelete? {
      UserKeepsBeliefs(s, a.gen, if a.AUserEdit? then Live(a.body, s.tick) else Tombstone(s.tick));
    } else {
      TimeKeepsBeliefs(s, a);
    }
    SameRowsKeepPipeline(s, a);
  }

  /** Every step of the transition system, by whoever it is taken, keeps the pipeline invariant. */
  lemma StepKeepsPipeline(s: Cell, a: Action)
    requires PipelineOk(s) && Enabled(s, a)
    ensures PipelineOk(Next(s, a))
  {
    if a.AClaim? { ClaimKeepsPipeline(s, a.id, a.now); }
    else if a.ABegin? { BeginKeepsPipeline(s); }
    else if a.ASend? { SendKeepsPipeline(s, a.net, a.gone); }
    else if a.ASettle? { SettleKeepsPipeline(s, a.now); }
    else { ServiceKeepsPipeline(s, a); }
  }

  lemma ServiceKeepsPipeline(s: Cell, a: Action)
    requires PipelineOk(s) && Enabled(s, a) && !a.AClaim? && !a.ABegin? && !a.ASend? && !a.ASettle?
    ensures PipelineOk(Next(s, a))
  {
    if a.ADiff? { DiffKeepsPipeline(s, a.mapped, a.now, a.free); }
    else if a.ACrash? { CrashKeepsPipeline(s); }
    else if a.AReclaim? { ReclaimKeepsPipeline(s, a.cutoff); }
    else if a.AExpire? { ExpiryKeepsPipeline(s, a.before); }
    else { OutsiderKeepsPipeline(s, a); }
  }

  lemma InitIsOk(s: Cell)
    requires Init(s)
    ensures PipelineOk(s)
  {
  }

  lemma {:induction false} RunKeepsPipeline(s: Cell, run: seq<Action>)
    requires PipelineOk(s) && Valid(s, run)
    ensures PipelineOk(Run(s, run))
    decreases |run|
  {
    if run != [] {
      StepKeepsPipeline(s, run[0]);
      RunKeepsPipeline(Next(s, run[0]), run[1..]);
    }
  }

  lemma ReachableIsOk(s: Cell)
    requires Reachable(s)
    ensures PipelineOk(s)
  {
    var s0, run :| Init(s0) && Valid(s0, run) && Run(s0, run) == s;
    InitIsOk(s0);
    RunKeepsPipeline(s0, run);
  }
}
