/** The write pipeline of one projection as a transition system: the projection row, its outbox
    rows, the Google slots its deterministic ids name, the worker executing one of its ops, and
    everything that may interfere (planner, admin, ingest, users, lost replies, crashes).

    Sources: app/ledger/outbox.py, app/ledger/diff.py:281-555, app/ledger/planner.py:478-624,
    app/ledger/admin_ops.py:109-226 and 430-487, app/ledger/ingest/client.py:505-556,
    app/ledger/ingest/discovery.py:166-188, app/jobs/cleanup.py:190-197. */
module Protocol {
  import opened Base
  import opened OutboxTable
  import opened GoogleModel

  // ---------------------------------------------------------------------------
  // State
  // ---------------------------------------------------------------------------

  datatype Current = Unknown | Present | Absent | Errored

  /** A `ledger_projections` row.  A managed Google id is named by the generation it was
      derived from; ids of different generations are different (module GoogleIds). */
  datatype Projection = Projection(
    desired: Want,
    desiredVersion: nat,
    applied: Option<Want>,
    appliedVersion: Option<nat>,
    current: Current,
    gid: Option<nat>,
    etag: Option<nat>,
    gen: nat,
    floor: nat,
    failed: bool)

  datatype Target = Main | Client(id: nat)
  datatype SourceType = FromClient | FromPersonal | FromWebcal | FromMain

  /** What never changes about a projection. */
  datatype Site = Site(
    user: nat,
    proj: nat,
    calendar: nat,
    target: Target,
    sourceType: SourceType,
    sourceCalendar: Option<nat>,
    isInstance: bool,
    hasRule: bool)

  /** The flags of the ledger event behind the projection. */
  datatype Flags = Flags(hasId: bool, patchArmed: bool, deleteArmed: bool)

  /** Where the worker is inside one op.  `row` is the outbox row as read by the claim, before
      the claim bumped `attempts`. */
  datatype Exec =
    | Idle
    | Ready(id: nat, row: Row)
    | Creating(id: nat, row: Row, gen: nat, floor: nat, left: nat)
    | Conflicted(id: nat, row: Row, gen: nat, floor: nat, left: nat)
    | Burned(id: nat, row: Row, gen: nat, floor: nat, left: nat)
    | GivingUp(id: nat, row: Row, gen: nat)
    | Restoring(id: nat, row: Row, gen: nat, etag: nat)
    | Created(id: nat, row: Row, gen: nat, etag: nat)
    | Updating(id: nat, row: Row, gen: nat, ifMatch: Option<nat>)
    | Refreshing(id: nat, row: Row, gen: nat)
    | Updated(id: nat, row: Row, gen: nat, etag: nat)
    | Vanished(id: nat, row: Row, gen: nat, http: nat)
    | Deleting(id: nat, row: Row, gen: nat)
    | Deleted(id: nat, row: Row)
    | Patching(id: nat, row: Row)
    | PatchSent(id: nat, row: Row)
    | Removing(id: nat, row: Row)
    | RemoveSent(id: nat, row: Row)
    | Raised(id: nat, row: Row, err: Err)
    | Superseding(id: nat, row: Row, error: string, http: nat)
    | Replanning

  /** What happened earlier in the run: a permanent failure, a crash that lost a replan request which
      would have changed something, a no-op diff of an unmapped calendar, and a relink of a projection
      that counted as applied. */
  datatype Log = Log(everFailed: bool, lostReplan: bool, unmapped: bool, relinked: bool)

  datatype Cell = Cell(
    site: Site,
    proj: Projection,
    rows: Table,
    slots: Slots,
    tick: nat,
    exec: Exec,
    flags: Flags,
    event: SourceEvent,
    log: Log)

  ghost predicate Init(s: Cell) {
    && s.proj.applied.None? && s.proj.appliedVersion.None?
    && s.proj.current == Unknown && s.proj.gid.None? && s.proj.etag.None?
    && s.proj.gen == 0 && s.proj.floor == 0 && !s.proj.failed
    && s.rows == map[] && s.slots == map[] && s.exec == Idle
    && !s.flags.patchArmed && !s.flags.deleteArmed && s.event.writes == []
    && s.log == Log(false, false, false, false)
    && (s.site.isInstance ==> IsOriginWriteback(s.site))
  }

  // ---------------------------------------------------------------------------
  // Diff
  // ---------------------------------------------------------------------------

  predicate IsOriginWriteback(site: Site) {
    site.target.Client? && site.sourceType == FromClient && site.sourceCalendar == Some(site.target.id)
  }

  predicate IsLegacyPersonal(site: Site) {
    site.target.Client? && site.sourceType == FromPersonal && site.sourceCalendar == Some(site.target.id)
  }

  /** `_diverged_projections`. */
  predicate Diverged(p: Projection) {
    && (p.appliedVersion != Some(p.desiredVersion) || p.applied != Some(p.desired))
    && !p.failed
  }

  /** `_decide`; None is the no-op.  `mapped` says whether the target calendar has a Google id. */
  function Decide(site: Site, p: Projection, flags: Flags, mapped: bool): Option<OpKind> {
    if IsLegacyPersonal(site) then None
    else if site.target.Client? && !mapped then None
    else if IsOriginWriteback(site) then
      if p.desired.Nothing? && flags.deleteArmed && (site.isInstance || !site.hasRule) then Some(DeleteSource)
      else if p.desired.Nothing? then None
      else if !flags.patchArmed then None
      else if p.applied == Some(p.desired) then None
      else Some(Patch)
    else if p.desired.Nothing? then
      if p.gid.None? then None
      else if p.current == Absent && !site.isInstance then None
      else Some(Delete)
    else if p.current == Absent || p.current == Unknown || p.gid.None? then Some(Create)
    else Some(Update)
  }

  function Snap(p: Projection): Projection {
    p.(appliedVersion := Some(p.desiredVersion), applied := Some(p.desired), current := Absent)
  }

  /** `_clear_converged_writeback_flag`. */
  function Disarm(site: Site, p: Projection, flags: Flags): Flags {
    if IsOriginWriteback(site) && p.desired.Copy? && flags.patchArmed && p.applied == Some(p.desired)
    then flags.(patchArmed := false)
    else flags
  }

  function RequestFor(site: Site, p: Projection, kind: OpKind): Request {
    Request(site.user, site.proj, kind, p.desiredVersion, site.calendar,
            if p.desired.Copy? && kind != Delete && kind != DeleteSource then Some(p.desired.body) else None,
            Some(p.desired))
  }

  /** One projection's share of `diff_and_enqueue_for_user`. */
  ghost function DiffStep(s: Cell, mapped: bool, now: int, free: nat): Cell {
    if !Diverged(s.proj) then s
    else
      match Decide(s.site, s.proj, s.flags, mapped)
      case None =>
        s.(proj := Snap(s.proj), flags := Disarm(s.site, s.proj, s.flags),
           log := if mapped then s.log else s.log.(unmapped := true))
      case Some(kind) =>
        s.(rows := EnqueueAt(s.rows, RequestFor(s.site, s.proj, kind), now, free).0)
  }

  // ---------------------------------------------------------------------------
  // Projection writers
  // ---------------------------------------------------------------------------

  /** `_upsert_projection` on an existing row. */
  function Replan(p: Projection, w: Want, version: nat, armedOrigin: bool): Projection {
    if p.desired == w && !armedOrigin then p
    else p.(desired := w, desiredVersion := version, failed := if p.desired != w then false else p.failed)
  }

  /** `_mark_implicit_absent`. */
  function ImplicitAbsent(p: Projection, version: nat): Projection {
    if p.desired.Nothing? && !p.failed then p
    else p.(desired := Nothing, desiredVersion := version, failed := false)
  }

  /** The projection update of `cleanup_one_calendar` and `cleanup_and_pause`. */
  function Cleanup(p: Projection, version: nat): Projection {
    p.(desired := Nothing, desiredVersion := version)
  }

  /** `retry_permanent_failures`. */
  function RetryFailures(p: Projection): Projection {
    if p.failed then p.(failed := false, floor := p.gen) else p
  }

  function AppliedHash(p: Projection, row: Row): Want {
    if row.stamp.Some? then row.stamp.value else p.desired
  }

  function RecordSuccess(p: Projection, row: Row, gid: nat, etag: nat): Projection {
    p.(current := Present, gid := Some(gid), etag := Some(etag),
       applied := Some(AppliedHash(p, row)), appliedVersion := Some(row.version), failed := false)
  }

  function RecordAbsent(p: Projection, row: Row): Projection {
    p.(current := Absent, applied := Some(Nothing), appliedVersion := Some(row.version), failed := false)
  }

  function RecordWriteback(p: Projection, row: Row): Projection {
    p.(current := Present, applied := Some(AppliedHash(p, row)), appliedVersion := Some(row.version),
       failed := false)
  }

  /** Discovery found an event that claims a projection without a Google id. */
  function Relink(p: Projection, gen: nat, etag: nat): Projection {
    p.(gid := Some(gen), etag := Some(etag), current := Present)
  }

  /** The reset after a copy turned out to be gone (404/410 on update, a cancelled event at ingest). */
  function ResetGone(p: Projection): Projection {
    p.(current := Absent, gid := None, etag := None, applied := None, appliedVersion := None)
  }

  // ---------------------------------------------------------------------------
  // Executing one op
  // ---------------------------------------------------------------------------

  const POISON_PILL_THRESHOLD := 5
  const MAX_ID_GENERATIONS := 8
  const MAX_TOTAL_ID_GENERATIONS := 50

  /** Local checks before the first call of an op (first lines of each `_do_*`). */
  function Begin(s: Cell, id: nat, row: Row): Exec {
    var p := s.proj;
    match row.kind
    case Create =>
      if row.payload.None? then Raised(id, row, Local)
      else if p.gen - p.floor >= MAX_TOTAL_ID_GENERATIONS then GivingUp(id, row, p.gen)
      else Creating(id, row, p.gen, p.floor, MAX_ID_GENERATIONS)
    case Update =>
      if row.payload.None? || p.gid.None? then Raised(id, row, Local)
      else Updating(id, row, p.gid.value, p.etag)
    case Delete =>
      if p.gid.None? then Deleted(id, row) else Deleting(id, row, p.gid.value)
    case Patch =>
      if row.payload.None? then Raised(id, row, Local)
      else if s.site.sourceType == FromPersonal || !s.flags.hasId then PatchSent(id, row)
      else Patching(id, row)
    case DeleteSource =>
      if s.site.sourceType == FromPersonal || !s.flags.hasId then RemoveSent(id, row)
      else Removing(id, row)
  }

  function Body(row: Row): Content {
    if row.payload.Some? then row.payload.value else 0
  }

  /** The op in hand addresses the calendar the slots and the source event are in. */
  predicate AtHome(s: Cell)
    requires !s.exec.Idle? && !s.exec.Replanning?
  {
    s.exec.row.calendar == s.site.calendar
  }

  function AfterInsert(e: Exec, reply: Reply): Exec
    requires e.Creating?
  {
    match reply
    case Ok(etag) => Created(e.id, e.row, e.gen, etag)
    case Error(err) => Raised(e.id, e.row, err)
    case _ => Conflicted(e.id, e.row, e.gen, e.floor, e.left)
  }

  /** `events.insert` with our own id. */
  function SendInsert(s: Cell, net: Net): Cell
    requires s.exec.Creating?
  {
    var e := s.exec;
    if e.left == 0 then s.(exec := Raised(e.id, e.row, Transient))
    else
      var a := InsertAt(AtHome(s), s.slots, s.tick, e.gen, Body(e.row), net);
      s.(slots := a.slots, tick := a.tick, exec := AfterInsert(e, a.reply))
  }

  function AfterConfirm(e: Exec, found: Found): Exec
    requires e.Conflicted?
  {
    match found
    case Failed(err) => Raised(e.id, e.row, err)
    case Event(true, etag) => Restoring(e.id, e.row, e.gen, etag)
    case _ =>
      if e.gen + 1 - e.floor >= MAX_TOTAL_ID_GENERATIONS then GivingUp(e.id, e.row, e.gen + 1)
      else Burned(e.id, e.row, e.gen + 1, e.floor, if e.left > 0 then e.left - 1 else 0)
  }

  /** The GET that tells a live event from a burned id after a 409. */
  function SendConfirm(s: Cell, net: Net): Cell
    requires s.exec.Conflicted?
  {
    s.(exec := AfterConfirm(s.exec, GetAt(AtHome(s), s.slots, s.exec.gen, net)))
  }

  function AfterRestore(e: Exec, reply: Reply): Exec
    requires e.Restoring?
  {
    match reply
    case Ok(etag) => Created(e.id, e.row, e.gen, etag)
    case Mismatch => Superseding(e.id, e.row, "etag_mismatch_on_409", 412)
    case Error(err) => Raised(e.id, e.row, err)
    case Missing(http) => Raised(e.id, e.row, if http == 410 then Transient else Denied)
    case Exists => Raised(e.id, e.row, Transient)
  }

  /** The UPDATE that restores our payload on a live event found at our id. */
  function SendRestore(s: Cell, net: Net, gone: GoneReply): Cell
    requires s.exec.Restoring?
  {
    var e := s.exec;
    var a := UpdateAt(AtHome(s), s.slots, s.tick, e.gen, Body(e.row), Some(e.etag), net, gone);
    s.(slots := a.slots, tick := a.tick, exec := AfterRestore(e, a.reply))
  }

  function AfterUpdate(e: Exec, reply: Reply): Exec
    requires e.Updating?
  {
    match reply
    case Ok(etag) => Updated(e.id, e.row, e.gen, etag)
    case Mismatch => Refreshing(e.id, e.row, e.gen)
    case Error(err) => Raised(e.id, e.row, err)
    case Missing(http) => Vanished(e.id, e.row, e.gen, http)
    case Exists => Raised(e.id, e.row, Transient)
  }

  /** `events.update`, conditional on the stored etag. */
  function SendUpdate(s: Cell, net: Net, gone: GoneReply): Cell
    requires s.exec.Updating?
  {
    var e := s.exec;
    var a := UpdateAt(AtHome(s), s.slots, s.tick, e.gen, Body(e.row), e.ifMatch, net, gone);
    s.(slots := a.slots, tick := a.tick, exec := AfterUpdate(e, a.reply))
  }

  function Refreshed(p: Projection, found: Found): Projection {
    if found.Event? then p.(etag := Some(found.etag)) else p
  }

  /** The GET that refreshes the stored etag after a 412; any failure is ignored. */
  function SendRefresh(s: Cell, net: Net): Cell
    requires s.exec.Refreshing?
  {
    var e := s.exec;
    s.(proj := Refreshed(s.proj, GetAt(AtHome(s), s.slots, e.gen, net)), exec := Superseding(e.id, e.row, "etag_mismatch", 412))
  }

  /** Unconditional `events.delete`. */
  function SendDelete(s: Cell, net: Net): Cell
    requires s.exec.Deleting?
  {
    var e := s.exec;
    var a := DeleteAt(AtHome(s), s.slots, s.tick, e.gen, net);
    s.(slots := a.slots, tick := a.tick,
       exec := if a.reply.Error? then Raised(e.id, e.row, a.reply.e) else Deleted(e.id, e.row))
  }

  /** `events.patch` on the user's source event. */
  function SendPatch(s: Cell, net: Net): Cell
    requires s.exec.Patching?
  {
    s.(event := PatchSourceAt(AtHome(s), s.event, Body(s.exec.row), net),
       exec := if net.Fine? then PatchSent(s.exec.id, s.exec.row) else Raised(s.exec.id, s.exec.row, net.e))
  }

  /** `events.delete` on the user's source event. */
  function SendRemove(s: Cell, net: Net): Cell
    requires s.exec.Removing?
  {
    s.(event := RemoveSourceAt(AtHome(s), s.event, net),
       exec := if net.Fine? then RemoveSent(s.exec.id, s.exec.row) else Raised(s.exec.id, s.exec.row, net.e))
  }

  predicate AtCall(e: Exec) {
    e.Creating? || e.Conflicted? || e.Restoring? || e.Updating? || e.Refreshing? || e.Deleting? || e.Patching? || e.Removing?
  }

  function Send(s: Cell, net: Net, gone: GoneReply): Cell
    requires AtCall(s.exec)
  {
    match s.exec
    case Creating(_, _, _, _, _) => SendInsert(s, net)
    case Conflicted(_, _, _, _, _) => SendConfirm(s, net)
    case Restoring(_, _, _, _) => SendRestore(s, net, gone)
    case Updating(_, _, _, _) => SendUpdate(s, net, gone)
    case Refreshing(_, _, _) => SendRefresh(s, net)
    case Deleting(_, _, _) => SendDelete(s, net)
    case Patching(_, _) => SendPatch(s, net)
    case Removing(_, _) => SendRemove(s, net)
  }

  /** A call leaves the queue, the flags and the history alone, and the worker at the same op. */
  ghost predicate CallFrame(s: Cell, t: Cell)
    requires AtCall(s.exec)
  {
    && t.site == s.site && t.rows == s.rows && t.flags == s.flags && t.log == s.log
    && !t.exec.Idle? && !t.exec.Replanning? && t.exec.id == s.exec.id && t.exec.row == s.exec.row
  }

  lemma InsertFrame(s: Cell, net: Net)
    requires s.exec.Creating?
    ensures CallFrame(s, SendInsert(s, net))
  {
  }

  lemma WriteFrame(s: Cell, net: Net, gone: GoneReply)
    requires s.exec.Restoring? || s.exec.Updating?
    ensures s.exec.Restoring? ==> CallFrame(s, SendRestore(s, net, gone))
    ensures s.exec.Updating? ==> CallFrame(s, SendUpdate(s, net, gone))
  {
  }

  lemma ReadFrame(s: Cell, net: Net)
    requires s.exec.Conflicted? || s.exec.Refreshing?
    ensures s.exec.Conflicted? ==> CallFrame(s, SendConfirm(s, net))
    ensures s.exec.Refreshing? ==> CallFrame(s, SendRefresh(s, net))
  {
  }

  lemma SendFrame(s: Cell, net: Net, gone: GoneReply)
    requires AtCall(s.exec)
    ensures CallFrame(s, Send(s, net, gone))
  {
    if s.exec.Creating? { InsertFrame(s, net); }
    else if s.exec.Restoring? || s.exec.Updating? { WriteFrame(s, net, gone); }
    else if s.exec.Conflicted? || s.exec.Refreshing? { ReadFrame(s, net); }
  }

  /** `_classify_and_retry`: only denied and local errors can ever become permanent. */
  predicate Poisoned(row: Row, err: Err) {
    (err == Denied || err == Local) && row.attempts >= POISON_PILL_THRESHOLD
  }

  function MarkFailed(s: Cell, id: nat, gen: nat, now: int): Cell
    requires id in s.rows
  {
    s.(proj := s.proj.(gen := gen, current := Errored, failed := true),
       rows := s.rows[id := FailedRow(s.rows[id], "failed", None, now)],
       log := s.log.(everFailed := true),
       exec := Idle)
  }

  /** Database writes at the end of an op, one committed transaction at a time. */
  function Settle(s: Cell, now: int): Cell
    requires AtRecord(s.exec) && (s.exec != Replanning ==> s.exec.id in s.rows)
  {
    match s.exec
    case Burned(id, row, gen, floor, left) =>
      s.(proj := s.proj.(gen := gen), exec := Creating(id, row, gen, floor, left))
    case GivingUp(id, row, gen) => MarkFailed(s, id, gen, now)
    case Created(id, row, gen, etag) =>
      s.(proj := RecordSuccess(s.proj.(gen := gen, floor := gen), row, gen, etag),
         rows := s.rows[id := DoneRow(s.rows[id], now)], exec := Idle)
    case Updated(id, row, gen, etag) =>
      s.(proj := RecordSuccess(s.proj, row, gen, etag),
         rows := s.rows[id := DoneRow(s.rows[id], now)], exec := Idle)
    case Vanished(id, row, gen, http) =>
      s.(proj := ResetGone(s.proj), exec := Superseding(id, row, "target_event_gone", http))
    case Deleted(id, row) =>
      s.(proj := RecordAbsent(s.proj, row), rows := s.rows[id := DoneRow(s.rows[id], now)], exec := Idle)
    case PatchSent(id, row) =>
      s.(proj := RecordWriteback(s.proj, row), flags := s.flags.(patchArmed := false),
         rows := s.rows[id := DoneRow(s.rows[id], now)], exec := Idle)
    case RemoveSent(id, row) =>
      s.(proj := RecordAbsent(s.proj, row), flags := s.flags.(deleteArmed := false),
         rows := s.rows[id := DoneRow(s.rows[id], now)], exec := Idle)
    case Raised(id, row, err) =>
      if Poisoned(row, err) then MarkFailed(s, id, s.proj.gen, now)
      else s.(rows := s.rows[id := RetryRow(s.rows[id], row.attempts, "retry", None, now)], exec := Idle)
    case Superseding(id, row, error, http) =>
      s.(rows := s.rows[id := SupersededRow(s.rows[id], error, Some(http), now)], exec := Replanning)
    case Replanning =>
      s.(proj := s.proj.(appliedVersion := None), exec := Idle)
  }

  predicate AtRecord(e: Exec) {
    e.Burned? || e.GivingUp? || e.Created? || e.Updated? || e.Vanished? || e.Deleted? ||
    e.PatchSent? || e.RemoveSent? || e.Raised? || e.Superseding? || e.Replanning?
  }

  // ---------------------------------------------------------------------------
  // The transition system
  // ---------------------------------------------------------------------------

  datatype Action =
    // the pipeline
    | ADiff(mapped: bool, now: int, free: nat)
    | AClaim(id: nat, now: int)
    | ABegin
    | ASend(net: Net, gone: GoneReply)
    | ASettle(now: int)
    // faults
    | ACrash
    | AReclaim(cutoff: Option<int>)
    // other writers
    | APlan(want: Want, version: nat, armedOrigin: bool)
    | AImplicitAbsent(version: nat)
    | ACleanup(version: nat)
    | ARetryFailures
    | AForceReplan
    | ASeeEdit
    | ASeeGone
    | ARelink(gen: nat, etag: nat)
    | AExpire(before: int)
    | AArmPatch
    | AArmDelete
    // the world
    | AUserEdit(gen: nat, body: Content)
    | AUserDelete(gen: nat)
    | ASourceDeleted
    | ATick(tick: nat)

  /** When an action can happen.  Diff, claims, reclaims, ingest and discovery run under the per-user
      reconcile lock, so never while an op is being executed; admin operations, the clean-up job,
      users and crashes are not so restricted.  A user's delete also stands for the orphan scan, which
      deletes a stray copy through a projection of its own. */
  predicate Enabled(s: Cell, a: Action) {
    match a
    case ADiff(_, _, free) => s.exec == Idle && free !in s.rows
    case AClaim(id, now) => s.exec == Idle && id in s.rows && IsDue(s.rows[id], s.site.user, now)
    case ABegin => s.exec.Ready?
    case ASend(_, _) => AtCall(s.exec)
    case ASettle(_) => AtRecord(s.exec) && (s.exec != Replanning ==> s.exec.id in s.rows)
    case AReclaim(_) => s.exec == Idle
    case AForceReplan => s.exec == Idle
    case ASeeEdit =>
      && s.exec == Idle && s.proj.gid.Some? && s.proj.gid.value in s.slots
      && s.slots[s.proj.gid.value].Live? && s.proj.etag.Some?
      && s.proj.etag.value != s.slots[s.proj.gid.value].etag
    case ASeeGone =>
      && s.exec == Idle && s.proj.gid.Some? && s.proj.gid.value in s.slots
      && s.slots[s.proj.gid.value].Tombstone? && s.proj.desired.Copy?
    // discovery lists live events; by the time it writes, the event may have changed
    case ARelink(gen, etag) =>
      && s.exec == Idle && s.proj.gid.None? && gen in s.slots
      && etag <= s.slots[gen].etag && (etag == s.slots[gen].etag ==> s.slots[gen].Live?)
    case AUserEdit(gen, _) => gen in s.slots && s.slots[gen].Live?
    case AUserDelete(gen) => gen in s.slots && s.slots[gen].Live?
    case ATick(tick) => s.tick <= tick
    case _ => true
  }

  function ReclaimRow(r: Row, cutoff: Option<int>): Row {
    if r.status == InFlight && (cutoff.None? || r.startedAt.None? || r.startedAt.value < cutoff.value)
    then r.(status := Pending) else r
  }

  /** A settled row past its retention (app/jobs/cleanup.py:190-197). */
  predicate Expired(r: Row, before: int) {
    !Open(r) && r.completedAt.Some? && r.completedAt.value < before
  }

  /** The replan request a crash loses would have cleared a version. */
  predicate ReplanMatters(s: Cell) {
    s.exec.Replanning? && s.proj.appliedVersion.Some?
  }

  /** One step. */
  ghost function Next(s: Cell, a: Action): Cell
    requires Enabled(s, a)
  {
    match a
    case ADiff(mapped, now, free) => DiffStep(s, mapped, now, free)
    case AClaim(id, now) => s.(rows := s.rows[id := ClaimRow(s.rows[id], now)], exec := Ready(id, s.rows[id]))
    case ABegin => s.(exec := Begin(s, s.exec.id, s.exec.row))
    case ASend(net, gone) => Send(s, net, gone)
    case ASettle(now) => Settle(s, now)
    case ACrash => s.(exec := Idle, log := s.log.(lostReplan := s.log.lostReplan || ReplanMatters(s)))
    case AReclaim(cutoff) => s.(rows := map i | i in s.rows :: ReclaimRow(s.rows[i], cutoff))
    case APlan(want, version, armed) => s.(proj := Replan(s.proj, want, version, armed))
    case AImplicitAbsent(version) => s.(proj := ImplicitAbsent(s.proj, version))
    case ACleanup(version) => s.(proj := Cleanup(s.proj, version))
    case ARetryFailures => s.(proj := RetryFailures(s.proj))
    case AForceReplan => s.(proj := s.proj.(appliedVersion := None))
    case ASeeEdit => s.(proj := s.proj.(appliedVersion := None, etag := Some(s.slots[s.proj.gid.value].etag)))
    case ASeeGone => s.(proj := ResetGone(s.proj))
    case ARelink(gen, etag) =>
      s.(proj := Relink(s.proj, gen, etag), log := s.log.(relinked := s.log.relinked || s.proj.appliedVersion.Some?))
    case AExpire(before) => s.(rows := map i | i in s.rows && !Expired(s.rows[i], before) :: s.rows[i])
    case AArmPatch => s.(flags := s.flags.(patchArmed := true))
    case AArmDelete => s.(flags := s.flags.(deleteArmed := true))
    case AUserEdit(gen, body) => s.(slots := s.slots[gen := Live(body, s.tick)], tick := s.tick + 1)
    case AUserDelete(gen) => s.(slots := s.slots[gen := Tombstone(s.tick)], tick := s.tick + 1)
    case ASourceDeleted => s.(event := s.event.(alive := false))
    case ATick(tick) => s.(tick := tick)
  }

  /** A non-terminal create op exists. */
  ghost predicate OpenCreate(s: Cell) {
    exists i :: i in s.rows && Open(s.rows[i]) && s.rows[i].kind == Create
  }

  /** Every live managed event is named by the projection or owed to an open create op. */
  ghost predicate Tracked(s: Cell) {
    OpenCreate(s) || forall j :: j in s.slots && s.slots[j].Live? ==> s.proj.gid == Some(j)
  }

  ghost predicate Valid(s: Cell, run: seq<Action>)
    decreases |run|
  {
    run == [] || (Enabled(s, run[0]) && Valid(Next(s, run[0]), run[1..]))
  }

  ghost function Run(s: Cell, run: seq<Action>): Cell
    requires Valid(s, run)
    decreases |run|
  {
    if run == [] then s else Run(Next(s, run[0]), run[1..])
  }

  /** States the pipeline can be in. */
  ghost predicate Reachable(s: Cell) {
    exists s0, run :: Init(s0) && Valid(s0, run) && Run(s0, run) == s
  }

  lemma {:induction false} RunConcat(s: Cell, a: seq<Action>, b: seq<Action>)
    requires Valid(s, a) && Valid(Run(s, a), b)
    ensures Valid(s, a + b) && Run(s, a + b) == Run(Run(s, a), b)
    decreases |a|
  {
    if a == [] {
      assert a + b == b;
    } else {
      assert (a + b)[1..] == a[1..] + b;
      RunConcat(Next(s, a[0]), a[1..], b);
    }
  }

  lemma RunOne(s: Cell, a: Action)
    requires Enabled(s, a)
    ensures Valid(s, [a]) && Run(s, [a]) == Next(s, a)
  {
    assert [a][1..] == [];
    assert Run(Next(s, a), []) == Next(s, a);
  }

  /** The pipeline can get from one state to the other. */
  ghost predicate Leads(s: Cell, t: Cell) {
    exists run :: Valid(s, run) && Run(s, run) == t
  }

  lemma LeadsToItself(s: Cell)
    ensures Leads(s, s)
  {
    assert Valid(s, []) && Run(s, []) == s;
  }

  lemma LeadsOn(s: Cell, t: Cell, u: Cell)
    requires Leads(s, t) && Leads(t, u)
    ensures Leads(s, u)
  {
    var a :| Valid(s, a) && Run(s, a) == t;
    var b :| Valid(t, b) && Run(t, b) == u;
    RunConcat(s, a, b);
  }

  lemma LeadsStep(s: Cell, t: Cell, a: Action)
    requires Leads(s, t) && Enabled(t, a)
    ensures Leads(s, Next(t, a))
  {
    RunOne(t, a);
    LeadsOn(s, t, Next(t, a));
  }

  lemma ReachableLeads(s: Cell, t: Cell)
    requires Reachable(s) && Leads(s, t)
    ensures Reachable(t)
  {
    var s0, a :| Init(s0) && Valid(s0, a) && Run(s0, a) == s;
    var b :| Valid(s, b) && Run(s, b) == t;
    RunConcat(s0, a, b);
  }
}
