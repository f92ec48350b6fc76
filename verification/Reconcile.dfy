/** The diff pass and the fixed-point loop over all projections of a user
    (app/ledger/diff.py:84-238, app/ledger/reconciler.py:498-549). */
module Reconcile {
  import opened Base
  import opened OutboxTable
  import opened GoogleModel
  import opened Protocol
  import opened Worker
  import opened Records
  import opened Handlers
  import opened Drain

  predicate Mapped(site: Site, calendars: set<nat>) {
    site.target.Client? ==> site.target.id in calendars
  }

  /** One projection's share of a diff pass. */
  ghost predicate Diffed(s: Cell, t: Cell, user: nat, calendars: set<nat>, now: int) {
    if s.site.user == user then exists free :: free !in s.rows && t == DiffStep(s, Mapped(s.site, calendars), now, free)
    else t == s
  }

  predicate Queues(s: Cell, calendars: set<nat>) {
    Diverged(s.proj) && Decide(s.site, s.proj, s.flags, Mapped(s.site, calendars)).Some?
  }

  /** Nothing to do: mark the divergence as resolved. */
  method SnapOne(proj: ProjectionRecord, mapped: bool)
    modifies proj
    ensures proj.p == Protocol.Snap(old(proj.p)) && proj.flags == Disarm(proj.site, old(proj.p), old(proj.flags))
    ensures proj.log == if mapped then old(proj.log) else old(proj.log).(unmapped := true)
  {
    proj.flags := Disarm(proj.site, proj.p, proj.flags);
    proj.p := Protocol.Snap(proj.p);
    proj.log := if mapped then proj.log else proj.log.(unmapped := true);
  }

  /** What a diff step makes of a diverged projection. */
  ghost function Decided(s: Cell, d: Option<OpKind>, mapped: bool, now: int, free: nat): Cell {
    if d.None? then s.(proj := Protocol.Snap(s.proj), flags := Disarm(s.site, s.proj, s.flags),
                       log := if mapped then s.log else s.log.(unmapped := true))
    else s.(rows := EnqueueAt(s.rows, RequestFor(s.site, s.proj, d.value), now, free).0)
  }

  /** A visit that decides on nothing is final: no row moves, the projection is not diverged any more, and
      another visit, at whatever time, finds nothing to do. */
  lemma NoOpDiffIsFinal(s: Cell, mapped: bool, now: int, free: nat, later: int, other: nat)
    requires Diverged(s.proj) && Decide(s.site, s.proj, s.flags, mapped).None?
    ensures var t := DiffStep(s, mapped, now, free);
            && t.rows == s.rows && t.proj.gid == s.proj.gid && t.proj.etag == s.proj.etag && !Diverged(t.proj)
            && DiffStep(t, mapped, later, other) == t
            && (t.flags != s.flags <==> IsOriginWriteback(s.site) && s.proj.desired.Copy? && s.flags.patchArmed
                                        && s.proj.applied == Some(s.proj.desired))
  {
  }

  lemma DecidedIsDiffed(s: Cell, mapped: bool, now: int, free: nat)
    requires Diverged(s.proj)
    ensures DiffStep(s, mapped, now, free) == Decided(s, Decide(s.site, s.proj, s.flags, mapped), mapped, now, free)
  {
  }

  method SnapProjection(db: Ledger, pid: nat, mapped: bool, ghost now: int, ghost free: nat)
    requires db.Valid() && pid in db.projections
    modifies db.projections[pid]
    ensures db.Rows() == old(db.Rows())
    ensures Moved(old(db.Views()), db.Views(), pid, Decided(old(db.View(pid, Idle)), None, mapped, now, free))
  {
    ghost var views := db.Views();
    SnapOne(db.projections[pid], mapped);
    assert db.Rows() == old(db.Rows());
    ghost var next := db.Views();
    assert next.Keys == views.Keys;
  }

  /** Enqueue the op the diff decided on. */
  method EnqueueRequest(db: Ledger, q: Request, now: int) returns (ghost free: nat, ghost rows: Table)
    requires db.Valid() && q.proj in db.projections && q.user == db.projections[q.proj].site.user
    modifies db`ops, db.ops.Values
    ensures db.Valid() && db.OldOrNew()
    ensures NewerIds(old(db.ops).Keys, db.ops.Keys) && free !in old(db.Rows())
    ensures rows == EnqueueAt(RowsOf(old(db.Rows()), q.proj), q, now, free).0 && RowsOf(db.Rows(), q.proj) == rows
    ensures forall p :: p != q.proj ==> RowsOf(db.Rows(), p) == RowsOf(old(db.Rows()), p)
  {
    free := NextIdIsFree(db.Rows(), q, now);
    EnqueueIsLocal(db.Rows(), q, now, free, q.proj);
    forall p | p != q.proj ensures RowsOf(OutboxTable.Enqueue(db.Rows(), q, now).0, p) == RowsOf(db.Rows(), p) {
      EnqueueIsLocal(db.Rows(), q, now, free, p);
    }
    var _ := db.Enqueue(q, now);
    rows := RowsOf(db.Rows(), q.proj);
  }

  method QueueOne(db: Ledger, q: Request, now: int) returns (ghost free: nat, ghost rows: Table)
    requires db.Valid() && q.proj in db.projections && q.user == db.projections[q.proj].site.user
    modifies db`ops, db.ops.Values
    ensures db.Valid() && db.OldOrNew()
    ensures NewerIds(old(db.ops).Keys, db.ops.Keys) && free !in old(db.Rows())
    ensures rows == EnqueueAt(RowsOf(old(db.Rows()), q.proj), q, now, free).0
    ensures Moved(old(db.Views()), db.Views(), q.proj, old(db.View(q.proj, Idle)).(rows := rows))
  {
    free, rows := EnqueueRequest(db, q, now);
    db.OnlyRowsMoved(q.proj);
  }

  /** Decide, then snap or enqueue. */
  method DiffOne(db: Ledger, pid: nat, calendars: set<nat>, now: int) returns (queued: bool)
    requires db.Valid() && pid in db.projections && Diverged(db.projections[pid].p)
    modifies db`ops, db.ops.Values, db.projections[pid]
    ensures db.Valid() && db.OldOrNew()
    ensures NewerIds(old(db.ops).Keys, db.ops.Keys)
    ensures Moved(old(db.Views()), db.Views(), pid, db.View(pid, Idle))
    ensures Diffed(old(db.View(pid, Idle)), db.View(pid, Idle), db.projections[pid].site.user, calendars, now)
    ensures queued == Queues(old(db.View(pid, Idle)), calendars)
    ensures db.projections[pid].site.target.Client? && db.projections[pid].site.target.id !in calendars ==>
      !queued && RowsOf(db.Rows(), pid) == RowsOf(old(db.Rows()), pid)
  {
    var proj := db.projections[pid];
    ghost var s, free := db.View(pid, Idle), MaxOf(db.Rows().Keys) + 1;
    var mapped := Mapped(proj.site, calendars);
    var decision := Decide(proj.site, proj.p, proj.flags, mapped);
    queued := decision.Some?;
    if queued {
      ghost var rows;
      free, rows := QueueOne(db, RequestFor(proj.site, proj.p, decision.value), now);
    } else {
      SnapProjection(db, pid, mapped, now, free);
    }
    DecidedIsDiffed(s, mapped, now, free);
    assert free !in s.rows;
  }

  /** The projections in `rest` are still to be visited. */
  ghost predicate MidDiff(starts: map<nat, Cell>, views: map<nat, Cell>, rest: set<nat>, user: nat, calendars: set<nat>, now: int) {
    && starts.Keys == views.Keys && rest <= views.Keys
    && (forall p :: p in rest ==> views[p] == starts[p] && starts[p].site.user == user && Diverged(starts[p].proj))
    && (forall p :: p in starts && p !in rest ==> Diffed(starts[p], views[p], user, calendars, now))
  }

  /** ... and `enqueued` counts the ops queued so far. */
  ghost predicate Underway(starts: map<nat, Cell>, views: map<nat, Cell>, ids0: set<nat>, ids: set<nat>,
                           rest: set<nat>, enqueued: nat, user: nat, calendars: set<nat>, now: int) {
    && NewerIds(ids0, ids)
    && MidDiff(starts, views, rest, user, calendars, now)
    && enqueued == |Queuing(starts, user, calendars) - rest|
  }

  lemma UnderwayAtStart(starts: map<nat, Cell>, ids: set<nat>, rest: set<nat>, user: nat, calendars: set<nat>, now: int)
    requires rest == set p | p in starts && starts[p].site.user == user && Diverged(starts[p].proj)
    ensures Underway(starts, starts, ids, ids, rest, 0, user, calendars, now)
  {
    NothingDiffedYet(starts, rest, user, calendars, now);
  }

  lemma UnderwayAtEnd(starts: map<nat, Cell>, views: map<nat, Cell>, ids0: set<nat>, ids: set<nat>, enqueued: nat,
                      user: nat, calendars: set<nat>, now: int)
    requires Underway(starts, views, ids0, ids, {}, enqueued, user, calendars, now)
    ensures AllDiffed(starts, views, user, calendars, now) && enqueued == |Queuing(starts, user, calendars)|
  {
    assert Queuing(starts, user, calendars) - {} == Queuing(starts, user, calendars);
  }

  lemma OneFewer(starts: map<nat, Cell>, views: map<nat, Cell>, next: map<nat, Cell>, rest: set<nat>, pid: nat,
                 user: nat, calendars: set<nat>, now: int)
    requires MidDiff(starts, views, rest, user, calendars, now) && pid in rest
    requires pid in next && Moved(views, next, pid, next[pid]) && Diffed(views[pid], next[pid], user, calendars, now)
    ensures MidDiff(starts, next, rest - {pid}, user, calendars, now)
  {
  }

  lemma OneVisited(starts: map<nat, Cell>, views: map<nat, Cell>, next: map<nat, Cell>, ids0: set<nat>, ids: set<nat>, ids': set<nat>,
                   rest: set<nat>, enqueued: nat, pid: nat, queued: bool, user: nat, calendars: set<nat>, now: int)
    requires Underway(starts, views, ids0, ids, rest, enqueued, user, calendars, now) && pid in rest
    requires NewerIds(ids, ids') && queued == Queues(views[pid], calendars)
    requires pid in next && Moved(views, next, pid, next[pid]) && Diffed(views[pid], next[pid], user, calendars, now)
    ensures Underway(starts, next, ids0, ids', rest - {pid}, if queued then enqueued + 1 else enqueued, user, calendars, now)
    ensures |rest - {pid}| < |rest|
  {
    OneFewer(starts, views, next, rest, pid, user, calendars, now);
    OneLess(Queuing(starts, user, calendars), rest, pid, queued);
  }

  /** Visit one of the remaining projections. */
  method DiffFurther(db: Ledger, pid: nat, ghost starts: map<nat, Cell>, ghost ids0: set<nat>, ghost rest: set<nat>,
                     enqueued: nat, user: nat, calendars: set<nat>, now: int)
    returns (more: nat)
    requires db.Valid() && pid in rest && pid in db.projections
    requires Underway(starts, db.Views(), ids0, db.ops.Keys, rest, enqueued, user, calendars, now)
    modifies db`ops, db.ops.Values, db.projections[pid]
    ensures db.Valid() && db.OldOrNew()
    ensures Underway(starts, db.Views(), ids0, db.ops.Keys, rest - {pid}, more, user, calendars, now) && |rest - {pid}| < |rest|
  {
    ghost var views, ids := db.Views(), db.ops.Keys;
    assert views[pid] == db.View(pid, Idle);
    var queued := DiffOne(db, pid, calendars, now);
    more := if queued then enqueued + 1 else enqueued;
    OneVisited(starts, views, db.Views(), ids0, ids, db.ops.Keys, rest, enqueued, pid, queued, user, calendars, now);
  }

  /** Scan the user's diverged projections and enqueue ops. */
  method DiffAndEnqueueForUser(db: Ledger, user: nat, calendars: set<nat>, now: int) returns (enqueued: nat)
    requires db.Valid()
    modifies db`ops, db.ops.Values, db.projections.Values
    ensures db.Valid() && db.OldOrNew()
    ensures AllDiffed(old(db.Views()), db.Views(), user, calendars, now) && NewerIds(old(db.ops).Keys, db.ops.Keys)
    ensures enqueued == |Queuing(old(db.Views()), user, calendars)|
  {
    enqueued := 0;
    var rest := set p | p in db.projections && db.projections[p].site.user == user && Diverged(db.projections[p].p);
    ghost var starts, ids0 := db.Views(), db.ops.Keys;
    UnderwayAtStart(starts, ids0, rest, user, calendars, now);
    while rest != {}
      invariant db.Valid() && db.OldOrNew()
      invariant Underway(starts, db.Views(), ids0, db.ops.Keys, rest, enqueued, user, calendars, now)
      decreases |rest|
    {
      var pid :| pid in rest;
      enqueued := DiffFurther(db, pid, starts, ids0, rest, enqueued, user, calendars, now);
      rest := rest - {pid};
    }
    UnderwayAtEnd(starts, db.Views(), ids0, db.ops.Keys, enqueued, user, calendars, now);
  }

  ghost predicate AllDiffed(starts: map<nat, Cell>, views: map<nat, Cell>, user: nat, calendars: set<nat>, now: int) {
    starts.Keys == views.Keys && forall p :: p in starts ==> Diffed(starts[p], views[p], user, calendars, now)
  }

  ghost function Queuing(views: map<nat, Cell>, user: nat, calendars: set<nat>): set<nat> {
    set p | p in views && views[p].site.user == user && Queues(views[p], calendars)
  }

  lemma NothingDiffedYet(starts: map<nat, Cell>, rest: set<nat>, user: nat, calendars: set<nat>, now: int)
    requires rest == set p | p in starts && starts[p].site.user == user && Diverged(starts[p].proj)
    ensures MidDiff(starts, starts, rest, user, calendars, now) && Queuing(starts, user, calendars) - rest == {}
  {
    forall p | p in starts && p !in rest ensures Diffed(starts[p], starts[p], user, calendars, now) {
      if starts[p].site.user == user { QuietIsDiffed(starts[p], calendars, now); }
    }
  }

  lemma OneLess(queuing: set<nat>, rest: set<nat>, pid: nat, queued: bool)
    requires pid in rest && queued == (pid in queuing)
    ensures |rest - {pid}| < |rest|
    ensures |queuing - (rest - {pid})| == |queuing - rest| + if queued then 1 else 0
  {
    assert queuing - (rest - {pid}) == if queued then queuing - rest + {pid} else queuing - rest;
  }

  lemma QuietIsDiffed(s: Cell, calendars: set<nat>, now: int)
    requires !Diverged(s.proj)
    ensures Diffed(s, s, s.site.user, calendars, now)
  {
    var free := MaxOf(s.rows.Keys) + 1;
    assert free !in s.rows && DiffStep(s, Mapped(s.site, calendars), now, free) == s;
  }
}
