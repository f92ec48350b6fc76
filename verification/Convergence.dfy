/** Convergence of the diff and drain loop against a Google that answers every call
    (app/ledger/reconciler.py:498-549). */
module Convergence {
  import opened Base
  import opened OutboxTable
  import opened GoogleModel
  import opened Protocol
  import opened Worker
  import opened ReservedIds
  import opened Pipeline
  import opened Guarantees

  // ---------------------------------------------------------------------------
  // One fault-free round
  // ---------------------------------------------------------------------------

  /** One step of the worker when every call goes through. */
  ghost function Tick(s: Cell, gone: GoneReply, now: int): Cell
    requires !s.exec.Idle? && Anchored(s)
  {
    Step(s, Weather(Fine, gone, Quiet), now)
  }

  /** Execute the current op to its end. */
  ghost function Finish(s: Cell, gone: GoneReply, now: int): Cell
    requires Anchored(s)
    decreases Work(s.exec)
  {
    if s.exec.Idle? then s
    else
      Progress(s, Weather(Fine, gone, Quiet), now);
      Finish(Tick(s, gone, now), gone, now)
  }

  /** Every call goes through and users keep their hands off. */
  ghost predicate FineWeather(f: Forecast, gone: GoneReply) {
    forall k: nat :: f(k) == Weather(Fine, gone, Quiet)
  }

  /** It is what the worker does in fine weather. */
  lemma {:induction false} FineWork(s: Cell, f: Forecast, gone: GoneReply, asked: nat, now: int)
    requires FineWeather(f, gone) && Anchored(s)
    ensures Perform(s, f, asked, now).0 == Finish(s, gone, now)
    decreases Work(s.exec)
  {
    if !s.exec.Idle? {
      Progress(s, Weather(Fine, gone, Quiet), now);
      FineWork(Tick(s, gone, now), f, gone, Asked(s.exec, asked), now);
    }
  }

  ghost function Claimed(s: Cell, id: nat, now: int): Cell
    requires Enabled(s, AClaim(id, now))
  {
    Next(s, AClaim(id, now))
  }

  // ---------------------------------------------------------------------------
  // From where, to where
  // ---------------------------------------------------------------------------

  ghost predicate RowsBelong(s: Cell) {
    && UniqueKeys(s.rows)
    && forall i :: i in s.rows ==>
         s.rows[i].user == s.site.user && s.rows[i].proj == s.site.proj && s.rows[i].calendar == s.site.calendar
  }

  /** Nothing queued, nothing running, and rows that belong to the projection. */
  ghost predicate AtEase(s: Cell) {
    s.exec == Idle && !OpenOp(s) && RowsBelong(s)
  }

  /** ... which owns its copies. */
  ghost predicate AtRest(s: Cell) {
    && AtEase(s)
    && Managed(s.site) && !s.site.isInstance
    && (s.proj.gid.Some? ==> s.proj.gid.value in s.slots && s.proj.etag.Some?)
  }

  /** `n` tombstones from the persisted generation on, then an id that is free or holds our copy,
      within the ceiling of the episode. */
  ghost predicate Headroom(s: Cell, n: nat) {
    && n < MAX_ID_GENERATIONS
    && s.proj.gen + n - s.proj.floor < MAX_TOTAL_ID_GENERATIONS
    && (forall k: nat :: s.proj.gen <= k < s.proj.gen + n ==> k in s.slots && s.slots[k].Tombstone?)
    && (s.proj.gen + n in s.slots ==> s.slots[s.proj.gen + n].Live?)
  }

  predicate WillCreate(p: Projection) {
    p.current == Absent || p.current == Unknown || p.gid.None?
  }

  /** No untracked live copy: what is live is what the next op will address. */
  ghost predicate NoStray(s: Cell, n: nat) {
    forall j :: j in s.slots && s.slots[j].Live? ==>
      if s.proj.desired.Nothing? then s.proj.gid == Some(j) && s.proj.current != Absent
      else if WillCreate(s.proj) then j == s.proj.gen + n
      else s.proj.gid == Some(j)
  }

  ghost predicate Drifted(s: Cell, n: nat) {
    AtRest(s) && Diverged(s.proj) && NoStray(s, n) && (s.proj.desired.Copy? ==> Headroom(s, n))
  }

  ghost predicate Converged(s: Cell) {
    && s.exec == Idle && !OpenOp(s) && !Diverged(s.proj) && !s.proj.failed
    && s.proj.applied == Some(s.proj.desired)
    && Exact(s)
    && (s.proj.gid.Some? && s.proj.desired.Copy? ==> s.proj.etag == Some(s.slots[s.proj.gid.value].etag))
  }

  // ---------------------------------------------------------------------------
  // One pass of the loop
  // ---------------------------------------------------------------------------

  /** Diff, then a drain that leaves nothing due; other projections take their time in between. */
  ghost predicate Pass(s: Cell, u: Cell, f: Forecast, now: int) {
    && s.exec == Idle
    && (exists free :: free !in s.rows && Carried(DiffStep(s, true, now, free), u, f, now))
    && DueSet(u.rows, u.site.user, now) == {}
  }

  lemma {:induction false} NothingDueNothingDone(s: Cell, xs: seq<Stride>, u: Cell, f: Forecast, now: int)
    requires DueSet(s.rows, s.site.user, now) == {} && Strides(s, xs, u, f, now)
    ensures u == s.(tick := u.tick)
    decreases |xs|
  {
    if xs != [] {
      forall i | i in s.rows ensures !IsDue(s.rows[i], s.site.user, now) {
        assert i in DueSet(s.rows, s.site.user, now) <==> IsDue(s.rows[i], s.site.user, now);
      }
      NothingDueNothingDone(Advance(s, xs[0], f, now), xs[1..], u, f, now);
    }
  }

  /** A further pass enqueues nothing and changes nothing. */
  lemma ConvergedIsFixed(s: Cell, u: Cell, f: Forecast, now: int)
    requires Converged(s) && Pass(s, u, f, now)
    ensures u == s.(tick := u.tick) && Converged(u)
  {
    var free :| free !in s.rows && Carried(DiffStep(s, true, now, free), u, f, now);
    var xs :| Strides(s, xs, u, f, now);
    forall i | i in s.rows ensures !IsDue(s.rows[i], s.site.user, now) {}
    NothingDueNothingDone(s, xs, u, f, now);
    assert !OpenOp(u);
  }

  // ---------------------------------------------------------------------------
  // What one diff pass leaves in the outbox
  // ---------------------------------------------------------------------------

  /** `id` is the only open op. */
  ghost predicate Sole(s: Cell, id: nat, now: int) {
    && s.exec == Idle && id in s.rows && IsDue(s.rows[id], s.site.user, now)
    && forall i :: i in s.rows && i != id ==> !Open(s.rows[i])
  }

  predicate Carries(r: Row, q: Request) {
    && r.kind == q.kind && r.version == q.version && r.payload == q.payload && r.stamp == q.stamp
    && r.user == q.user && r.proj == q.proj && r.calendar == q.calendar
  }

  /** Enqueue on an outbox with nothing open. */
  lemma EnqueueOnQuiet(t: Table, q: Request, now: int, free: nat) returns (id: nat)
    requires UniqueKeys(t) && free !in t
    requires forall i :: i in t ==> !Open(t[i]) && t[i].user == q.user && t[i].proj == q.proj && t[i].calendar == q.calendar
    ensures var t' := EnqueueAt(t, q, now, free).0;
            && UniqueKeys(t')
            && id in t' && Carries(t'[id], q) && IsDue(t'[id], q.user, now)
            && (forall i :: i in t' && i != id ==> i in t && t'[i] == t[i])
  {
    EnqueueKeepsKeysUnique(t, q, now, free);
    var (t', i) := EnqueueAt(t, q, now, free);
    id := i;
    forall i | i in t ensures SupersedeRow(t[i], RequestKey(q), now) == t[i] {}
  }

  lemma DiffEnqueues(s: Cell, now: int, free: nat, kind: OpKind)
    requires Diverged(s.proj) && Decide(s.site, s.proj, s.flags, true) == Some(kind)
    ensures DiffStep(s, true, now, free) == s.(rows := EnqueueAt(s.rows, RequestFor(s.site, s.proj, kind), now, free).0)
  {
  }

  /** The outbox after an enqueue on rest, named so that later steps need not unfold it. */
  lemma QuietTable(s: Cell, now: int, free: nat, kind: OpKind) returns (rows: Table, id: nat)
    requires AtEase(s) && free !in s.rows
    ensures rows == EnqueueAt(s.rows, RequestFor(s.site, s.proj, kind), now, free).0
    ensures Sole(s.(rows := rows), id, now) && RowsBelong(s.(rows := rows))
    ensures Carries(rows[id], RequestFor(s.site, s.proj, kind))
  {
    var q := RequestFor(s.site, s.proj, kind);
    forall i | i in s.rows ensures !Open(s.rows[i]) {}
    id := EnqueueOnQuiet(s.rows, q, now, free);
    rows := EnqueueAt(s.rows, q, now, free).0;
    forall i | i in rows ensures rows[i].user == s.site.user && rows[i].proj == s.site.proj && rows[i].calendar == s.site.calendar {}
  }

  lemma DiffLeavesOneOp(s: Cell, now: int, free: nat, kind: OpKind) returns (t: Cell, id: nat)
    requires AtEase(s) && Diverged(s.proj) && Decide(s.site, s.proj, s.flags, true) == Some(kind) && free !in s.rows
    ensures t == DiffStep(s, true, now, free)
    ensures t == s.(rows := t.rows)
    ensures Sole(t, id, now) && Carries(t.rows[id], RequestFor(s.site, s.proj, kind)) && RowsBelong(t)
  {
    DiffEnqueues(s, now, free, kind);
    var rows;
    rows, id := QuietTable(s, now, free, kind);
    t := s.(rows := rows);
  }

  /** The only thing a drain can do with a single op is execute it, at some moment. */
  lemma {:induction false} SoleOpIsCarried(s: Cell, id: nat, xs: seq<Stride>, u: Cell, f: Forecast, gone: GoneReply, now: int)
    returns (tick: nat)
    requires Sole(s, id, now) && Strides(s, xs, u, f, now) && FineWeather(f, gone)
    requires DueSet(u.rows, u.site.user, now) == {}
    ensures Sole(s.(tick := tick), id, now)
    ensures u == Finish(Claimed(s.(tick := tick), id, now), gone, now).(tick := u.tick)
    decreases |xs|
  {
    assert id in DueSet(s.rows, s.site.user, now);
    assert xs != [];
    match xs[0] {
      case Wait(t) =>
        tick := SoleOpIsCarried(s.(tick := t), id, xs[1..], u, f, gone, now);
      case Carry(j, asked) =>
        assert j == id;
        var c := Claimed(s, id, now);
        tick := s.tick;
        assert s.(tick := tick) == s;
        FineWork(c, f, gone, asked, now);
        PerformSettles(c.site, c.rows, c, id, f, asked, now);
        var r := Advance(s, xs[0], f, now);
        NothingDueAfter(s, id, r, now);
        NothingDueNothingDone(r, xs[1..], u, f, now);
    }
  }

  lemma NothingDueAfter(s: Cell, id: nat, r: Cell, now: int)
    requires Sole(s, id, now) && Underway(s.site, s.rows[id := ClaimRow(s.rows[id], now)], r, id, now) && Settled(r.rows[id], now)
    ensures DueSet(r.rows, r.site.user, now) == {}
  {
    forall i | i in r.rows ensures !IsDue(r.rows[i], r.site.user, now) {}
  }

  // ---------------------------------------------------------------------------
  // Executing one op to its end
  // ---------------------------------------------------------------------------

  ghost function AfterCreate(s: Cell, id: nat, row: Row, gen: nat, body: Content, now: int): Cell
    requires id in s.rows
  {
    s.(slots := s.slots[gen := Live(body, s.tick)], tick := s.tick + 1,
       proj := RecordSuccess(s.proj.(gen := gen, floor := gen), row, gen, s.tick),
       rows := s.rows[id := DoneRow(s.rows[id], now)], exec := Idle)
  }

  /** The insert loop walks over the tombstones and lands, or restores the copy already there. */
  lemma {:induction false} FinishCreate(s: Cell, n: nat, gone: GoneReply, now: int)
    requires s.exec.Creating? && AtHome(s) && s.exec.id in s.rows && s.exec.row.payload.Some?
    requires s.exec.gen == s.proj.gen && n < s.exec.left
    requires s.exec.gen + n - s.exec.floor < MAX_TOTAL_ID_GENERATIONS
    requires forall k: nat :: s.exec.gen <= k < s.exec.gen + n ==> k in s.slots && s.slots[k].Tombstone?
    requires s.exec.gen + n in s.slots ==> s.slots[s.exec.gen + n].Live?
    ensures Finish(s, gone, now) ==
      AfterCreate(s, s.exec.id, s.exec.row, s.exec.gen + n, s.exec.row.payload.value, now)
    decreases n
  {
    if n == 0 && s.exec.gen in s.slots {
      FinishRestore(s, gone, now);
    } else if n == 0 {
      FinishInsert(s, gone, now);
    } else {
      var s3 := FinishBurn(s, gone, now);
      FinishCreate(s3, n - 1, gone, now);
      assert s3.proj.(gen := s.exec.gen + n, floor := s.exec.gen + n) == s.proj.(gen := s.exec.gen + n, floor := s.exec.gen + n);
    }
  }

  /** The id is free: the insert lands. */
  lemma FinishInsert(s: Cell, gone: GoneReply, now: int)
    requires s.exec.Creating? && AtHome(s) && s.exec.id in s.rows && s.exec.row.payload.Some? && s.exec.left > 0 && s.exec.gen !in s.slots
    ensures Finish(s, gone, now) == AfterCreate(s, s.exec.id, s.exec.row, s.exec.gen, s.exec.row.payload.value, now)
  {
    var s1 := Tick(s, gone, now);
    assert s1.exec.Created?;
    var s2 := Tick(s1, gone, now);
    assert Finish(s, gone, now) == Finish(s1, gone, now) == s2;
  }

  /** Our copy is already live: it is restored. */
  lemma FinishRestore(s: Cell, gone: GoneReply, now: int)
    requires s.exec.Creating? && AtHome(s) && s.exec.id in s.rows && s.exec.row.payload.Some? && s.exec.left > 0
    requires s.exec.gen in s.slots && s.slots[s.exec.gen].Live?
    ensures Finish(s, gone, now) == AfterCreate(s, s.exec.id, s.exec.row, s.exec.gen, s.exec.row.payload.value, now)
  {
    var s1 := Tick(s, gone, now);
    assert s1.exec.Conflicted?;
    var s2 := Tick(s1, gone, now);
    assert s2.exec.Restoring?;
    var s3 := Tick(s2, gone, now);
    assert s3.exec.Created?;
    var s4 := Tick(s3, gone, now);
    assert Finish(s, gone, now) == Finish(s1, gone, now) == Finish(s2, gone, now) == Finish(s3, gone, now) == s4;
  }

  /** The id is burned: the loop goes on with the next one. */
  lemma FinishBurn(s: Cell, gone: GoneReply, now: int) returns (t: Cell)
    requires s.exec.Creating? && AtHome(s) && s.exec.id in s.rows && s.exec.left > 0 && s.exec.gen in s.slots && s.slots[s.exec.gen].Tombstone?
    requires s.exec.gen + 1 - s.exec.floor < MAX_TOTAL_ID_GENERATIONS
    ensures t == s.(proj := s.proj.(gen := s.exec.gen + 1),
                    exec := Creating(s.exec.id, s.exec.row, s.exec.gen + 1, s.exec.floor, s.exec.left - 1))
    ensures Anchored(t) && Finish(s, gone, now) == Finish(t, gone, now)
  {
    var s1 := Tick(s, gone, now);
    assert s1.exec.Conflicted?;
    var s2 := Tick(s1, gone, now);
    assert s2.exec.Burned?;
    t := Tick(s2, gone, now);
    assert Finish(s, gone, now) == Finish(s1, gone, now) == Finish(s2, gone, now) == Finish(t, gone, now);
  }

  /** Unconditional delete of a tracked copy. */
  lemma FinishDelete(s: Cell, gone: GoneReply, now: int)
    requires s.exec.Deleting? && AtHome(s) && s.exec.id in s.rows && s.exec.gen in s.slots
    ensures var u := Finish(s, gone, now);
            && u.exec == Idle && u.site == s.site && u.flags == s.flags && u.event == s.event
            && u.proj == RecordAbsent(s.proj, s.exec.row)
            && u.rows == s.rows[s.exec.id := DoneRow(s.rows[s.exec.id], now)]
            && u.slots.Keys == s.slots.Keys && u.slots[s.exec.gen].Tombstone?
            && forall k :: k in s.slots && k != s.exec.gen ==> u.slots[k] == s.slots[k]
  {
    var s1 := Tick(s, gone, now);
    assert s1.exec.Deleted?;
    var s2 := Tick(s1, gone, now);
    assert Finish(s, gone, now) == Finish(s1, gone, now) == s2;
  }

  /** A conditional update whose etag is Google's. */
  lemma FinishUpdate(s: Cell, gone: GoneReply, now: int)
    requires s.exec.Updating? && AtHome(s) && s.exec.id in s.rows && s.exec.row.payload.Some?
    requires s.exec.gen in s.slots && s.slots[s.exec.gen].Live? && s.exec.ifMatch == Some(s.slots[s.exec.gen].etag)
    ensures var u := Finish(s, gone, now);
            && u.exec == Idle && u.site == s.site && u.flags == s.flags && u.event == s.event
            && u.proj == RecordSuccess(s.proj, s.exec.row, s.exec.gen, s.tick)
            && u.rows == s.rows[s.exec.id := DoneRow(s.rows[s.exec.id], now)]
            && u.slots == s.slots[s.exec.gen := Live(s.exec.row.payload.value, s.tick)]
  {
    var s1 := Tick(s, gone, now);
    assert s1.exec.Updated?;
    var s2 := Tick(s1, gone, now);
    assert Finish(s, gone, now) == Finish(s1, gone, now) == s2;
  }

  predicate SameOwner(a: Row, b: Row) {
    a.user == b.user && a.calendar == b.calendar
  }

  /** A conditional update answered with 412: refresh the etag, supersede, ask for a replan. */
  lemma FinishStale(s: Cell, gone: GoneReply, now: int)
    requires s.exec.Updating? && AtHome(s) && s.exec.id in s.rows && s.exec.row.payload.Some?
    requires s.exec.gen in s.slots && s.exec.ifMatch.Some? && s.exec.ifMatch != Some(s.slots[s.exec.gen].etag)
    requires s.slots[s.exec.gen].Live? || gone.PreconditionFailed?
    ensures var u := Finish(s, gone, now);
            && u == s.(exec := Idle, rows := u.rows,
                       proj := s.proj.(etag := Some(s.slots[s.exec.gen].etag), appliedVersion := None))
            && u.rows.Keys == s.rows.Keys && KeyOf(u.rows[s.exec.id]) == KeyOf(s.rows[s.exec.id])
            && u.rows[s.exec.id].status == Superseded && SameOwner(u.rows[s.exec.id], s.rows[s.exec.id])
            && forall i :: i in s.rows && i != s.exec.id ==> u.rows[i] == s.rows[i]
  {
    var s1 := Tick(s, gone, now);
    assert s1.exec.Refreshing?;
    var s2 := Tick(s1, gone, now);
    assert s2.exec.Superseding?;
    var s3 := Tick(s2, gone, now);
    assert s3.exec.Replanning?;
    var s4 := Tick(s3, gone, now);
    assert Finish(s, gone, now) == Finish(s1, gone, now) == Finish(s2, gone, now) == Finish(s3, gone, now) == s4;
  }

  /** An update of a copy that is gone: reset, supersede, ask for a replan. */
  lemma FinishVanished(s: Cell, gone: GoneReply, now: int)
    requires s.exec.Updating? && AtHome(s) && s.exec.id in s.rows && s.exec.row.payload.Some?
    requires s.exec.gen in s.slots && s.slots[s.exec.gen].Tombstone?
    requires !gone.PreconditionFailed? || s.exec.ifMatch == Some(s.slots[s.exec.gen].etag)
    ensures var u := Finish(s, gone, now);
            && u == s.(exec := Idle, rows := u.rows, proj := ResetGone(s.proj))
            && u.rows.Keys == s.rows.Keys && KeyOf(u.rows[s.exec.id]) == KeyOf(s.rows[s.exec.id])
            && u.rows[s.exec.id].status == Superseded && SameOwner(u.rows[s.exec.id], s.rows[s.exec.id])
            && forall i :: i in s.rows && i != s.exec.id ==> u.rows[i] == s.rows[i]
  {
    var s1 := Tick(s, gone, now);
    assert s1.exec.Vanished?;
    var s2 := Tick(s1, gone, now);
    assert s2.exec.Superseding?;
    var s3 := Tick(s2, gone, now);
    assert s3.exec.Replanning?;
    var s4 := Tick(s3, gone, now);
    assert Finish(s, gone, now) == Finish(s1, gone, now) == Finish(s2, gone, now) == Finish(s3, gone, now) == s4;
  }

  // ---------------------------------------------------------------------------
  // One pass, case by case
  // ---------------------------------------------------------------------------

  /** The claimed state is about to run its op. */
  lemma ClaimAndBegin(s: Cell, id: nat, gone: GoneReply, now: int) returns (r: Cell)
    requires Sole(s, id, now) && RowsBelong(s)
    ensures r == s.(exec := Begin(s, id, s.rows[id]), rows := s.rows[id := ClaimRow(s.rows[id], now)])
    ensures Anchored(r) && Finish(Claimed(s, id, now), gone, now) == Finish(r, gone, now)
  {
    var c := Claimed(s, id, now);
    r := Tick(c, gone, now);
    assert c.exec.Ready?;
    assert Begin(c, id, s.rows[id]) == Begin(s, id, s.rows[id]);
  }

  lemma BeginIgnoresRows(s: Cell, rows: Table, tick: nat, id: nat, row: Row)
    ensures Begin(s.(rows := rows, tick := tick), id, row) == Begin(s, id, row)
  {
  }

  /** A pass on a diverged projection at rest carries the op the diff decided on, at some moment. */
  lemma PassCarriesOneOp(s: Cell, u: Cell, kind: OpKind, f: Forecast, gone: GoneReply, now: int)
    returns (t: Cell, id: nat)
    requires AtEase(s) && Diverged(s.proj) && Decide(s.site, s.proj, s.flags, true) == Some(kind)
    requires Pass(s, u, f, now) && FineWeather(f, gone)
    ensures t == s.(tick := t.tick, rows := t.rows) && Sole(t, id, now)
    ensures Carries(t.rows[id], RequestFor(s.site, s.proj, kind)) && RowsBelong(t)
    ensures u == Finish(Claimed(t, id, now), gone, now).(tick := u.tick)
  {
    var free :| free !in s.rows && Carried(DiffStep(s, true, now, free), u, f, now);
    var d;
    d, id := DiffLeavesOneOp(s, now, free, kind);
    var xs :| Strides(d, xs, u, f, now);
    var tick := SoleOpIsCarried(d, id, xs, u, f, gone, now);
    t := d.(tick := tick);
  }

  lemma ClaimedTable(s: Cell, id: nat, q: Request, now: int)
    requires Sole(s, id, now) && RowsBelong(s) && Carries(s.rows[id], q)
    ensures var rows := s.rows[id := ClaimRow(s.rows[id], now)];
            && Carries(rows[id], q) && (forall i :: i in rows && i != id ==> !Open(rows[i]))
            && forall r: Cell :: r.rows == rows && r.site == s.site ==> RowsBelong(r)
  {
  }

  /** ... and executes exactly that op. */
  lemma PassRunsOneOp(s: Cell, u: Cell, kind: OpKind, f: Forecast, gone: GoneReply, now: int)
    returns (r: Cell, id: nat, row: Row)
    requires AtEase(s) && Diverged(s.proj) && Decide(s.site, s.proj, s.flags, true) == Some(kind)
    requires Pass(s, u, f, now) && FineWeather(f, gone)
    ensures r == s.(tick := r.tick, rows := r.rows, exec := Begin(s, id, row)) && Carries(row, RequestFor(s.site, s.proj, kind))
    ensures id in r.rows && Carries(r.rows[id], RequestFor(s.site, s.proj, kind)) && Anchored(r) && RowsBelong(r)
    ensures forall i :: i in r.rows && i != id ==> !Open(r.rows[i])
    ensures u == Finish(r, gone, now).(tick := u.tick)
  {
    var t;
    t, id := PassCarriesOneOp(s, u, kind, f, gone, now);
    row := t.rows[id];
    ClaimedTable(t, id, RequestFor(s.site, s.proj, kind), now);
    r := ClaimAndBegin(t, id, gone, now);
    BeginIgnoresRows(s, t.rows, t.tick, id, row);
  }

  lemma PassSnaps(s: Cell, u: Cell, f: Forecast, now: int)
    requires AtRest(s) && Diverged(s.proj) && NoStray(s, 0) && s.proj.desired.Nothing? && Pass(s, u, f, now)
    requires s.proj.gid.None? || s.proj.current == Absent
    ensures Converged(u)
  {
    var free :| free !in s.rows && Carried(DiffStep(s, true, now, free), u, f, now);
    var t := DiffStep(s, true, now, free);
    assert t.rows == s.rows && t.slots == s.slots;
    var xs :| Strides(t, xs, u, f, now);
    forall i | i in t.rows ensures !IsDue(t.rows[i], t.site.user, now) {}
    NothingDueNothingDone(t, xs, u, f, now);
    assert !OpenOp(u);
    forall j | j in u.slots ensures u.slots[j].Tombstone? {}
  }

  lemma PassDeletes(s: Cell, u: Cell, f: Forecast, gone: GoneReply, now: int)
    requires AtRest(s) && Diverged(s.proj) && NoStray(s, 0) && s.proj.desired.Nothing?
    requires Pass(s, u, f, now) && FineWeather(f, gone) && s.proj.gid.Some? && s.proj.current != Absent
    ensures Converged(u)
  {
    var r, id, row := PassRunsOneOp(s, u, Delete, f, gone, now);
    FinishDelete(r, gone, now);
    assert !OpenOp(u);
    forall j | j in u.slots ensures u.slots[j].Tombstone? {}
  }

  lemma PassCreates(s: Cell, n: nat, u: Cell, f: Forecast, gone: GoneReply, now: int)
    requires Drifted(s, n) && s.proj.desired.Copy? && WillCreate(s.proj) && Pass(s, u, f, now) && FineWeather(f, gone)
    ensures Converged(u)
  {
    var r, id, row := PassRunsOneOp(s, u, Create, f, gone, now);
    CreateLands(s, n, r, id, row, gone, now);
    CreatedIsConverged(s, n, r, id, row, u, now);
  }

  lemma CreateLands(s: Cell, n: nat, r: Cell, id: nat, row: Row, gone: GoneReply, now: int)
    requires s.proj.desired.Copy? && Headroom(s, n) && id in r.rows && Carries(row, RequestFor(s.site, s.proj, Create))
    requires r == s.(tick := r.tick, rows := r.rows, exec := Begin(s, id, row))
    ensures Anchored(r) && Finish(r, gone, now) == AfterCreate(r, id, row, s.proj.gen + n, s.proj.desired.body, now)
  {
    assert r.exec == Creating(id, row, s.proj.gen, s.proj.floor, MAX_ID_GENERATIONS);
    FinishCreate(r, n, gone, now);
  }

  lemma CreatedIsConverged(s: Cell, n: nat, r: Cell, id: nat, row: Row, u: Cell, now: int)
    requires Drifted(s, n) && s.proj.desired.Copy? && WillCreate(s.proj)
    requires r.proj == s.proj && r.slots == s.slots && id in r.rows && Carries(row, RequestFor(s.site, s.proj, Create))
    requires forall i :: i in r.rows && i != id ==> !Open(r.rows[i])
    requires u == AfterCreate(r, id, row, s.proj.gen + n, s.proj.desired.body, now).(tick := u.tick)
    ensures Converged(u)
  {
    assert !OpenOp(u);
  }

  lemma PassUpdates(s: Cell, u: Cell, f: Forecast, gone: GoneReply, now: int)
    requires AtRest(s) && Diverged(s.proj) && NoStray(s, 0) && s.proj.desired.Copy? && !WillCreate(s.proj)
    requires Pass(s, u, f, now) && FineWeather(f, gone)
    requires s.slots[s.proj.gid.value].Live? && s.proj.etag == Some(s.slots[s.proj.gid.value].etag)
    ensures Converged(u)
  {
    var r, id, row := PassRunsOneOp(s, u, OpKind.Update, f, gone, now);
    assert r.exec.Updating?;
    FinishUpdate(r, gone, now);
    assert !OpenOp(u);
  }

  /** A stale etag costs one pass: the etag is refreshed and the projection stays diverged. */
  lemma PassRefreshes(s: Cell, n: nat, u: Cell, f: Forecast, gone: GoneReply, now: int)
    requires Drifted(s, n) && s.proj.desired.Copy? && !WillCreate(s.proj) && Pass(s, u, f, now) && FineWeather(f, gone)
    requires s.proj.etag != Some(s.slots[s.proj.gid.value].etag)
    requires s.slots[s.proj.gid.value].Live? || gone.PreconditionFailed?
    ensures Drifted(u, n)
    ensures u == s.(tick := u.tick, rows := u.rows,
                    proj := s.proj.(etag := Some(s.slots[s.proj.gid.value].etag), appliedVersion := None))
  {
    var r, id, row := PassRunsOneOp(s, u, OpKind.Update, f, gone, now);
    assert r.exec == Updating(id, row, s.proj.gid.value, s.proj.etag);
    FinishStale(r, gone, now);
    RestAfterSupersede(s, r, u, id);
    RefreshedStillDrifts(s, n, u);
  }

  lemma RefreshedStillDrifts(s: Cell, n: nat, u: Cell)
    requires Drifted(s, n) && s.proj.desired.Copy? && !WillCreate(s.proj) && RowsBelong(u) && !OpenOp(u)
    requires u == s.(tick := u.tick, rows := u.rows,
                     proj := s.proj.(etag := Some(s.slots[s.proj.gid.value].etag), appliedVersion := None))
    ensures Drifted(u, n)
  {
  }

  /** A copy that is gone costs one pass: the projection is reset and will be created again. */
  lemma PassResets(s: Cell, n: nat, u: Cell, f: Forecast, gone: GoneReply, now: int)
    requires Drifted(s, n) && s.proj.desired.Copy? && !WillCreate(s.proj) && Pass(s, u, f, now) && FineWeather(f, gone)
    requires s.slots[s.proj.gid.value].Tombstone?
    requires !gone.PreconditionFailed? || s.proj.etag == Some(s.slots[s.proj.gid.value].etag)
    ensures Drifted(u, n) && u == s.(tick := u.tick, rows := u.rows, proj := ResetGone(s.proj))
  {
    var r, id, row := PassRunsOneOp(s, u, OpKind.Update, f, gone, now);
    assert r.exec == Updating(id, row, s.proj.gid.value, s.proj.etag);
    FinishVanished(r, gone, now);
    RestAfterSupersede(s, r, u, id);
    ResetStillDrifts(s, n, u);
  }

  lemma ResetStillDrifts(s: Cell, n: nat, u: Cell)
    requires Drifted(s, n) && s.proj.desired.Copy? && !WillCreate(s.proj) && RowsBelong(u) && !OpenOp(u)
    requires s.slots[s.proj.gid.value].Tombstone?
    requires u == s.(tick := u.tick, rows := u.rows, proj := ResetGone(s.proj))
    ensures Drifted(u, n)
  {
    NothingLive(s, n);
  }

  lemma NothingLive(s: Cell, n: nat)
    requires NoStray(s, n) && s.proj.desired.Copy? && !WillCreate(s.proj)
    requires s.proj.gid.value in s.slots && s.slots[s.proj.gid.value].Tombstone?
    ensures forall j :: j in s.slots ==> s.slots[j].Tombstone?
  {
  }

  lemma RestAfterSupersede(s: Cell, r: Cell, u: Cell, id: nat)
    requires RowsBelong(r) && r.site == s.site && u.site == r.site && u.rows.Keys == r.rows.Keys && id in r.rows
    requires KeyOf(u.rows[id]) == KeyOf(r.rows[id]) && SameOwner(u.rows[id], r.rows[id]) && !Open(u.rows[id])
    requires forall i :: i in r.rows && i != id ==> u.rows[i] == r.rows[i] && !Open(r.rows[i])
    ensures RowsBelong(u) && !OpenOp(u)
  {
    forall i | i in u.rows ensures KeyOf(u.rows[i]) == KeyOf(r.rows[i]) {}
  }

  // ---------------------------------------------------------------------------
  // The theorem
  // ---------------------------------------------------------------------------

  /** How many passes a drifted projection still needs. */
  ghost function Stage(s: Cell, gone: GoneReply): nat
    requires s.proj.desired.Copy? && !WillCreate(s.proj) ==> s.proj.gid.value in s.slots
  {
    if s.proj.desired.Nothing? || WillCreate(s.proj) then 1
    else
      var slot := s.slots[s.proj.gid.value];
      var stale := s.proj.etag != Some(slot.etag);
      if slot.Live? then (if stale then 2 else 1)
      else if stale && gone.PreconditionFailed? then 3
      else 2
  }

  /** One pass in fine weather converges the projection or brings it one stage closer. */
  lemma PassAdvances(s: Cell, n: nat, u: Cell, f: Forecast, gone: GoneReply, now: int)
    requires Drifted(s, n) && Pass(s, u, f, now) && FineWeather(f, gone)
    ensures if Stage(s, gone) == 1 then Converged(u)
            else Drifted(u, n) && !Converged(u) && Stage(u, gone) == Stage(s, gone) - 1
  {
    if s.proj.desired.Nothing? {
      assert NoStray(s, 0);
      if s.proj.gid.None? || s.proj.current == Absent { PassSnaps(s, u, f, now); }
      else { PassDeletes(s, u, f, gone, now); }
    } else if WillCreate(s.proj) {
      PassCreates(s, n, u, f, gone, now);
    } else {
      PassAdvancesCopy(s, n, u, f, gone, now);
    }
  }

  lemma PassAdvancesCopy(s: Cell, n: nat, u: Cell, f: Forecast, gone: GoneReply, now: int)
    requires Drifted(s, n) && Pass(s, u, f, now) && FineWeather(f, gone) && s.proj.desired.Copy? && !WillCreate(s.proj)
    ensures if Stage(s, gone) == 1 then Converged(u)
            else Drifted(u, n) && !Converged(u) && Stage(u, gone) == Stage(s, gone) - 1
  {
    assert NoStray(s, 0);
    var slot := s.slots[s.proj.gid.value];
    if slot.Live? && s.proj.etag == Some(slot.etag) { PassUpdates(s, u, f, gone, now); }
    else if slot.Live? || (gone.PreconditionFailed? && s.proj.etag != Some(slot.etag)) { PassRefreshes(s, n, u, f, gone, now); }
    else { PassResets(s, n, u, f, gone, now); }
  }

  ghost predicate Passes(s: Cell, us: seq<Cell>, f: Forecast, now: int)
    decreases |us|
  {
    us == [] || (Pass(s, us[0], f, now) && Passes(us[0], us[1..], f, now))
  }

  lemma {:induction false} PassesKeepConverged(s: Cell, us: seq<Cell>, f: Forecast, now: int)
    requires Converged(s) && Passes(s, us, f, now) && us != []
    ensures Converged(us[|us| - 1])
    decreases |us|
  {
    ConvergedIsFixed(s, us[0], f, now);
    if |us| > 1 { PassesKeepConverged(us[0], us[1..], f, now); }
  }

  /** Fault-free passes converge a drifted projection as soon as there are as many as its stage,
      and no sooner. */
  lemma {:induction false} PassesConvergeExactly(s: Cell, n: nat, us: seq<Cell>, f: Forecast, gone: GoneReply, now: int)
    requires Drifted(s, n) && Passes(s, us, f, now) && FineWeather(f, gone) && us != []
    ensures Converged(us[|us| - 1]) <==> Stage(s, gone) <= |us|
    decreases |us|
  {
    PassAdvances(s, n, us[0], f, gone, now);
    if |us| > 1 {
      if Stage(s, gone) == 1 { PassesKeepConverged(us[0], us[1..], f, now); }
      else { PassesConvergeExactly(us[0], n, us[1..], f, gone, now); }
    }
  }

  /** From any drift two passes suffice, unless Google answers 412 for a dead id whose etag we do
      not hold; then the loop's third pass is needed. */
  lemma TwoPassesConverge(s: Cell, n: nat, us: seq<Cell>, f: Forecast, gone: GoneReply, now: int)
    requires Drifted(s, n) && Passes(s, us, f, now) && |us| == 2 && FineWeather(f, gone)
    ensures Converged(us[1]) <==>
      !(gone.PreconditionFailed? && s.proj.desired.Copy? && !WillCreate(s.proj)
        && s.slots[s.proj.gid.value].Tombstone? && s.proj.etag != Some(s.slots[s.proj.gid.value].etag))
  {
    PassesConvergeExactly(s, n, us, f, gone, now);
  }

  /** Whatever Google answers, the loop's three passes suffice. */
  lemma ThreePassesConverge(s: Cell, n: nat, us: seq<Cell>, f: Forecast, gone: GoneReply, now: int)
    requires Drifted(s, n) && Passes(s, us, f, now) && |us| == 3 && FineWeather(f, gone)
    ensures Converged(us[2])
  {
    PassesConvergeExactly(s, n, us, f, gone, now);
  }

  /** A pass in fine weather from one stage away. */
  lemma LastPassConverges(s: Cell, n: nat, u: Cell, f: Forecast, gone: GoneReply, now: int)
    requires Drifted(s, n) && Stage(s, gone) == 1 && Pass(s, u, f, now) && FineWeather(f, gone)
    ensures Converged(u)
  {
    PassAdvances(s, n, u, f, gone, now);
  }

  lemma NextIsReachable(s: Cell, a: Action)
    requires Reachable(s) && Enabled(s, a)
    ensures Reachable(Next(s, a))
  {
    LeadsToItself(s);
    LeadsStep(s, s, a);
    ReachableLeads(s, Next(s, a));
  }

  /** Drift that ingest sees is repaired by the next fault-free pass: an edited copy gets its content back, a
      deleted one is created anew. */
  lemma SeenDriftIsRepaired(s: Cell, a: Action, u: Cell, f: Forecast, gone: GoneReply, now: int)
    requires Reachable(s) && Managed(s.site) && Quiescent(s) && Tracked(s) && !s.proj.failed && !s.log.unmapped
    requires s.proj.gen + 1 - s.proj.floor < MAX_TOTAL_ID_GENERATIONS
    requires (a.ASeeEdit? || a.ASeeGone?) && Enabled(s, a) && Pass(Next(s, a), u, f, now) && FineWeather(f, gone)
    ensures Converged(u)
  {
    var t := Next(s, a);
    NextIsReachable(s, a);
    ReachableIsOk(s);
    QuietStepKeepsTracking(s, a);
    assert OpenOp(t) == OpenOp(s);
    var n := ReachableStatesQualify(t);
    LastPassConverges(t, n, u, f, gone, now);
  }

  /** A clean-up withdraws the copy: unless it is not visited at all, the next fault-free pass leaves no
      live event. */
  lemma CleanupEmptiesTheCalendar(s: Cell, version: nat, u: Cell, f: Forecast, gone: GoneReply, now: int)
    requires Reachable(s) && Managed(s.site) && Quiescent(s) && Tracked(s) && !s.log.unmapped
    requires s.proj.gen + 1 - s.proj.floor < MAX_TOTAL_ID_GENERATIONS
    requires Diverged(Cleanup(s.proj, version)) && Pass(Next(s, ACleanup(version)), u, f, now) && FineWeather(f, gone)
    ensures Converged(u) && u.proj.desired.Nothing? && forall j :: j in u.slots ==> u.slots[j].Tombstone?
  {
    var t := Next(s, ACleanup(version));
    NextIsReachable(s, ACleanup(version));
    ReachableIsOk(s);
    QuietStepKeepsTracking(s, ACleanup(version));
    assert OpenOp(t) == OpenOp(s);
    var n := ReachableStatesQualify(t);
    LastPassConverges(t, n, u, f, gone, now);
    PassKeepsWish(t, u, f, now);
  }

  lemma PassKeepsWish(s: Cell, u: Cell, f: Forecast, now: int)
    requires Pass(s, u, f, now)
    ensures u.proj.desired == s.proj.desired
  {
    var free :| free !in s.rows && Carried(DiffStep(s, true, now, free), u, f, now);
    var t := DiffStep(s, true, now, free);
    var xs :| Strides(t, xs, u, f, now);
    StridesKeepWish(t, xs, u, f, now);
  }

  lemma {:induction false} StridesKeepWish(s: Cell, xs: seq<Stride>, u: Cell, f: Forecast, now: int)
    requires Strides(s, xs, u, f, now)
    ensures u.proj.desired == s.proj.desired
    decreases |xs|
  {
    if xs != [] {
      if xs[0].Carry? { PerformKeepsWish(Next(s, AClaim(xs[0].id, now)), f, xs[0].asked, now); }
      StridesKeepWish(Advance(s, xs[0], f, now), xs[1..], u, f, now);
    }
  }

  lemma {:induction false} PerformKeepsWish(s: Cell, f: Forecast, asked: nat, now: int)
    requires Anchored(s)
    ensures Perform(s, f, asked, now).0.proj.desired == s.proj.desired
    decreases Work(s.exec)
  {
    if !s.exec.Idle? {
      Progress(s, f(asked), now);
      WorkKeepsWish(s, f(asked), now);
      PerformKeepsWish(Step(s, f(asked), now), f, Asked(s.exec, asked), now);
    }
  }

  /** No handler changes what the planner wants. */
  lemma WorkKeepsWish(s: Cell, w: Weather, now: int)
    requires Anchored(s) && !s.exec.Idle?
    ensures Step(s, w, now).proj.desired == s.proj.desired
  {
    if AtCall(s.exec) { CallKeepsWish(Before(s, w), w.net, w.gone); }
  }

  lemma CallKeepsWish(s: Cell, net: Net, gone: GoneReply)
    requires AtCall(s.exec)
    ensures Send(s, net, gone).proj.desired == s.proj.desired
  {
  }

  /** Every reachable state at rest that is diverged and tracked qualifies, so long as the
      ceiling of its episode is not reached. */
  lemma ReachableStatesQualify(s: Cell) returns (n: nat)
    requires Reachable(s) && Managed(s.site) && Quiescent(s) && Tracked(s) && Diverged(s.proj) && !s.log.unmapped
    requires s.proj.gen + 1 - s.proj.floor < MAX_TOTAL_ID_GENERATIONS
    ensures n <= 1 && Drifted(s, n)
  {
    ReachableIsOk(s);
    n := if s.proj.gen in s.slots && s.slots[s.proj.gen].Tombstone? then 1 else 0;
    assert !OpenCreate(s);
    forall j | j in s.slots && s.slots[j].Live? ensures j == s.proj.gen && s.proj.gid == Some(j) {
      assert !(j < s.proj.gen);
    }
    assert forall i :: i in s.rows ==> RowOk(s.site, s.rows[i]);
  }
}
