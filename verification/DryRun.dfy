/** A dry run undoes exactly what it did to the outbox (app/ledger/reconciler.py:552-672). */
module DryRun {
  import opened Base
  import opened OutboxTable

  /** `_OUTBOX_SNAPSHOT_COLUMNS`. */
  datatype Columns = Columns(
    status: Status,
    attempts: nat,
    due: Option<int>,
    lastError: Option<string>,
    lastHttp: Option<nat>,
    payload: Option<Content>,
    startedAt: Option<int>,
    completedAt: Option<int>,
    version: nat,
    stamp: Option<Want>)

  type Snapshot = map<nat, Columns>

  function ColumnsOf(r: Row): Columns {
    Columns(r.status, r.attempts, r.due, r.lastError, r.lastHttp, r.payload, r.startedAt, r.completedAt,
            r.version, r.stamp)
  }

  function Restore(r: Row, c: Columns): Row {
    r.(status := c.status, attempts := c.attempts, due := c.due, lastError := c.lastError, lastHttp := c.lastHttp,
       payload := c.payload, startedAt := c.startedAt, completedAt := c.completedAt, version := c.version,
       stamp := c.stamp)
  }

  /** `_snapshot_dry_run_outbox`. */
  function Snap(t: Table, user: nat): Snapshot {
    map i | i in t && t[i].user == user :: ColumnsOf(t[i])
  }

  predicate Changed(r: Row, i: nat, snapshot: Snapshot) {
    i in snapshot && r.status != snapshot[i].status
  }

  /** The table after `_discard_dry_run_outbox`: rows above the watermark are deleted, rows whose
      status changed get their columns back. */
  function Discarded(t: Table, user: nat, snapshot: Snapshot, watermark: nat): Table {
    map i | i in t && !(t[i].user == user && i > watermark) ::
      if t[i].user == user && Changed(t[i], i, snapshot) then Restore(t[i], snapshot[i]) else t[i]
  }

  predicate Previewed(r: Row, i: nat, user: nat, snapshot: Snapshot, watermark: nat) {
    r.user == user && (i > watermark || (i in snapshot && r.status == Pending && snapshot[i].status != Pending))
  }

  /** The ops reported to the operator: new rows and resurrected ones. */
  function Preview(t: Table, user: nat, snapshot: Snapshot, watermark: nat): set<nat> {
    set i | i in t && Previewed(t[i], i, user, snapshot, watermark)
  }

  // ---------------------------------------------------------------------------
  // A pass
  // ---------------------------------------------------------------------------

  ghost function EnqueueAll(t: Table, qs: seq<Request>, now: int): Table
    decreases |qs|
  {
    if qs == [] then t else EnqueueAll(Enqueue(t, qs[0], now).0, qs[1..], now)
  }

  /** Rows of one projection belong to one user, and so does the request. */
  ghost predicate Owned(t: Table, owner: map<nat, nat>) {
    forall i :: i in t ==> t[i].proj in owner && owner[t[i].proj] == t[i].user
  }

  predicate RequestOwned(q: Request, owner: map<nat, nat>) {
    q.proj in owner && owner[q.proj] == q.user
  }

  /** No projection of the user is enqueued twice (the diff visits each once); other users may
      enqueue as they like in between. */
  ghost predicate OncePerProjection(qs: seq<Request>, user: nat) {
    forall a, b :: 0 <= a < b < |qs| && qs[a].user == user && qs[b].user == user ==> qs[a].proj != qs[b].proj
  }

  /** A row rewritten in place: its status differs, its immutable columns do not. */
  predicate Touched(r0: Row, r: Row) {
    r.status != r0.status && r == Restore(r0, ColumnsOf(r))
  }

  lemma RestoreUndoesTouch(r0: Row, r: Row)
    requires Touched(r0, r)
    ensures Restore(r, ColumnsOf(r0)) == r0 && r.user == r0.user && r.proj == r0.proj
  {
  }

  /** What one enqueue does to the rows, one by one. */
  ghost predicate EnqueuedRows(t: Table, t': Table, q: Request, free: nat) {
    && (forall i :: i in t ==> i in t' && (t'[i] == t[i] || (t[i].proj == q.proj && Touched(t[i], t'[i]))))
    && (forall i :: i in t' && i !in t ==>
          i == free && t'[i].user == q.user && t'[i].proj == q.proj && t'[i].status == Pending)
  }

  lemma SupersedeTouches(r: Row, k: Key, now: int)
    ensures SupersedeRow(r, k, now) == r || (r.proj == k.proj && Touched(r, SupersedeRow(r, k, now)))
  {
  }

  lemma ReviveTouches(r: Row, q: Request, now: int)
    requires !Open(r) && KeyOf(r) == RequestKey(q)
    ensures Touched(r, Revive(r, q, now))
  {
  }

  lemma SupersedeRowwise(t: Table, q: Request, now: int, free: nat)
    ensures EnqueuedRows(t, SupersedeOthers(t, RequestKey(q), now), q, free)
  {
    forall i | i in t
      ensures var r := SupersedeRow(t[i], RequestKey(q), now); r == t[i] || (t[i].proj == q.proj && Touched(t[i], r))
    {
      SupersedeTouches(t[i], RequestKey(q), now);
    }
  }

  lemma ReviveRowwise(t: Table, q: Request, now: int, i: nat, free: nat)
    requires i in t && !Open(t[i]) && KeyOf(t[i]) == RequestKey(q)
    ensures EnqueuedRows(t, SupersedeOthers(t, RequestKey(q), now)[i := Revive(t[i], q, now)], q, free)
  {
    SupersedeRowwise(t, q, now, free);
    ReviveTouches(t[i], q, now);
  }

  lemma InsertRowwise(t: Table, q: Request, now: int, free: nat)
    requires free !in t
    ensures EnqueuedRows(t, SupersedeOthers(t, RequestKey(q), now)[free := NewRow(q, now)], q, free)
  {
    SupersedeRowwise(t, q, now, free);
  }

  lemma EnqueueRowwise(t: Table, q: Request, now: int, free: nat)
    requires free !in t
    ensures EnqueuedRows(t, EnqueueAt(t, q, now, free).0, q, free)
  {
    match Lookup(t, RequestKey(q))
    case Some(i) => if !Open(t[i]) { ReviveRowwise(t, q, now, i, free); }
    case None => InsertRowwise(t, q, now, free);
  }

  /** How the table relates to the snapshotted one while the projections in `rest` are still to
      be visited. */
  ghost predicate MidPass(t0: Table, t: Table, user: nat, rest: set<nat>) {
    && (forall i :: i in t0 ==> i in t && t[i].user == t0[i].user)
    && (forall i :: i in t && i !in t0 ==> i > MaxOf(t0.Keys))
    && (forall i :: i in t && i !in t0 && t[i].user == user ==> t[i].status == Pending && t[i].proj !in rest)
    && (forall i :: i in t0 && t0[i].user == user ==> t[i] == t0[i] || (Touched(t0[i], t[i]) && t[i].proj !in rest))
  }

  lemma MidPassStep(t0: Table, t: Table, t': Table, user: nat, rest: set<nat>, q: Request, free: nat, owner: map<nat, nat>)
    requires MidPass(t0, t, user, rest) && Owned(t, owner) && RequestOwned(q, owner)
    requires q.user == user ==> q.proj in rest
    requires EnqueuedRows(t, t', q, free) && free > MaxOf(t.Keys)
    ensures MidPass(t0, t', user, if q.user == user then rest - {q.proj} else rest) && Owned(t', owner)
  {
    assert MaxOf(t.Keys) >= MaxOf(t0.Keys) by {
      if t0.Keys != {} { assert MaxOf(t0.Keys) in t.Keys; }
    }
    forall i | i in t ensures t'[i].user == t[i].user && t'[i].proj == t[i].proj {}
  }

  lemma EnqueueKeepsMidPass(t0: Table, t: Table, user: nat, rest: set<nat>, q: Request, now: int, owner: map<nat, nat>)
    requires MidPass(t0, t, user, rest) && UniqueKeys(t) && Owned(t, owner) && RequestOwned(q, owner)
    requires q.user == user ==> q.proj in rest
    ensures var t' := Enqueue(t, q, now).0;
            && MidPass(t0, t', user, if q.user == user then rest - {q.proj} else rest)
            && UniqueKeys(t') && Owned(t', owner)
  {
    var free := MaxOf(t.Keys) + 1;
    assert free !in t;
    EnqueueKeepsKeysUnique(t, q, now, free);
    EnqueueRowwise(t, q, now, free);
    MidPassStep(t0, t, Enqueue(t, q, now).0, user, rest, q, free, owner);
  }

  lemma {:induction false} PassKeepsMidPass(t0: Table, t: Table, user: nat, rest: set<nat>, qs: seq<Request>, now: int,
                                            owner: map<nat, nat>)
    requires MidPass(t0, t, user, rest) && UniqueKeys(t) && Owned(t, owner)
    requires OncePerProjection(qs, user)
    requires forall k :: 0 <= k < |qs| ==> RequestOwned(qs[k], owner) && (qs[k].user == user ==> qs[k].proj in rest)
    ensures MidPass(t0, EnqueueAll(t, qs, now), user, {})
    decreases |qs|
  {
    if qs != [] {
      var q := qs[0];
      EnqueueKeepsMidPass(t0, t, user, rest, q, now, owner);
      var rest' := if q.user == user then rest - {q.proj} else rest;
      forall k | 0 <= k < |qs[1..]|
        ensures RequestOwned(qs[1..][k], owner) && (qs[1..][k].user == user ==> qs[1..][k].proj in rest')
      {
        assert qs[1..][k] == qs[k + 1];
      }
      PassKeepsMidPass(t0, Enqueue(t, q, now).0, user, rest', qs[1..], now, owner);
    }
  }

  function RowsOfUser(t: Table, user: nat): Table {
    map i | i in t && t[i].user == user :: t[i]
  }

  /** Undoing a pass: every row and column of the user is back, other users' rows are as they are
      now, and the preview was exactly the ops the pass had made pending. */
  lemma DiscardUndoes(t0: Table, t: Table, user: nat, watermark: nat)
    requires MidPass(t0, t, user, {}) && IsMax(watermark, Snap(t0, user).Keys)
    ensures var d := Discarded(t, user, Snap(t0, user), watermark);
            && RowsOfUser(d, user) == RowsOfUser(t0, user)
            && (forall v :: v != user ==> RowsOfUser(d, v) == RowsOfUser(t, v))
    ensures Preview(t, user, Snap(t0, user), watermark) ==
            set i | i in t && t[i].user == user && t[i].status == Pending && (i !in t0 || t0[i].status != Pending)
  {
    var snapshot := Snap(t0, user);
    assert watermark <= MaxOf(t0.Keys) by {
      if snapshot.Keys != {} { assert watermark in snapshot.Keys && watermark in t0.Keys; }
    }
    forall i | i in t && t[i].user == user ensures (i in t0 <==> i <= watermark) && (i in t0 <==> i in snapshot) {
      if i in t0 { assert i in snapshot.Keys; }
    }
    DiscardRestoresRows(t0, t, user, watermark);
    PreviewIsWhatWasQueued(t0, t, user, watermark);
  }

  lemma DiscardRestoresRows(t0: Table, t: Table, user: nat, watermark: nat)
    requires MidPass(t0, t, user, {})
    requires forall i :: i in t && t[i].user == user ==> (i in t0 <==> i <= watermark) && (i in t0 <==> i in Snap(t0, user))
    ensures var d := Discarded(t, user, Snap(t0, user), watermark);
            && RowsOfUser(d, user) == RowsOfUser(t0, user)
            && (forall v :: v != user ==> RowsOfUser(d, v) == RowsOfUser(t, v))
  {
    var d := Discarded(t, user, Snap(t0, user), watermark);
    forall i | i in t0 && t0[i].user == user ensures i in d && d[i] == t0[i] {
      assert t[i].user == user;
      if t[i] != t0[i] { RestoreUndoesTouch(t0[i], t[i]); }
    }
    forall i | i in d && d[i].user == user ensures i in t0 && t0[i].user == user {
      assert t[i].user == user;
    }
    forall v | v != user ensures RowsOfUser(d, v) == RowsOfUser(t, v) {
      forall i | i in RowsOfUser(t, v) ensures i in d && d[i] == t[i] {}
      forall i | i in RowsOfUser(d, v) ensures i in t && t[i].user == v {}
    }
  }

  lemma PreviewIsWhatWasQueued(t0: Table, t: Table, user: nat, watermark: nat)
    requires MidPass(t0, t, user, {})
    requires forall i :: i in t && t[i].user == user ==> (i in t0 <==> i <= watermark) && (i in t0 <==> i in Snap(t0, user))
    ensures Preview(t, user, Snap(t0, user), watermark) ==
            set i | i in t && t[i].user == user && t[i].status == Pending && (i !in t0 || t0[i].status != Pending)
  {
    forall i | i in t && t[i].user == user
      ensures Previewed(t[i], i, user, Snap(t0, user), watermark)
              <==> t[i].status == Pending && (i !in t0 || t0[i].status != Pending)
    {
    }
  }

  /** For every outbox and every diff pass, snapshot, enqueues, discard is the identity. */
  lemma DryRunIsAnExactUndo(t0: Table, user: nat, qs: seq<Request>, now: int, owner: map<nat, nat>)
    requires UniqueKeys(t0) && Owned(t0, owner) && OncePerProjection(qs, user)
    requires forall k :: 0 <= k < |qs| ==> RequestOwned(qs[k], owner)
    ensures var t := EnqueueAll(t0, qs, now);
            var watermark := MaxOf(Snap(t0, user).Keys);
            var d := Discarded(t, user, Snap(t0, user), watermark);
            && RowsOfUser(d, user) == RowsOfUser(t0, user)
            && (forall v :: v != user ==> RowsOfUser(d, v) == RowsOfUser(t, v))
            && Preview(t, user, Snap(t0, user), watermark) ==
               set i | i in t && t[i].user == user && t[i].status == Pending && (i !in t0 || t0[i].status != Pending)
  {
    var rest := set k | 0 <= k < |qs| :: qs[k].proj;
    PassKeepsMidPass(t0, t0, user, rest, qs, now, owner);
    DiscardUndoes(t0, EnqueueAll(t0, qs, now), user, MaxOf(Snap(t0, user).Keys));
  }

  const UPDATE_OLD := Request(1, 1, Update, 1, 1, Some(10), Some(Copy(10)))
  const UPDATE_NEW := Request(1, 1, Update, 1, 1, Some(20), Some(Copy(20)))
  const REMOVE := Request(1, 1, Delete, 1, 1, None, Some(Nothing))

  /** Superseded by the first enqueue of the pass, resurrected by the second. */
  lemma SupersedeThenRevive() returns (t0: Table, t2: Table)
    ensures t0 == map[1 := NewRow(UPDATE_OLD, 0)]
    ensures t2 == EnqueueAll(t0, [REMOVE, UPDATE_NEW], 5)
    ensures t2.Keys == {1, 2} && t2[1].status == Pending && t2[1].payload == Some(20) && t2[1].user == 1
  {
    t0 := map[1 := NewRow(UPDATE_OLD, 0)];
    assert t0.Keys == {1} && MaxOf(t0.Keys) == 1;
    var t1 := Enqueue(t0, REMOVE, 5).0;
    assert t1 == map[1 := t0[1].(status := Superseded, completedAt := Some(5)), 2 := NewRow(REMOVE, 5)];
    t2 := Enqueue(t1, UPDATE_NEW, 5).0;
    assert Lookup(t1, RequestKey(UPDATE_NEW)) == Some(1);
    assert [REMOVE, UPDATE_NEW][1..] == [UPDATE_NEW] && [UPDATE_NEW][1..] == [];
    assert EnqueueAll(t1, [UPDATE_NEW], 5) == EnqueueAll(t2, [], 5);
  }

  /** Twice for one projection is too often: a pending op that is superseded and resurrected in
      the same pass has its old status and a new payload, and is not restored. */
  lemma TwiceIsTooOften()
    ensures exists t0: Table, qs: seq<Request> ::
      && UniqueKeys(t0) && |qs| == 2
      && Discarded(EnqueueAll(t0, qs, 5), 1, Snap(t0, 1), MaxOf(Snap(t0, 1).Keys)) != t0
  {
    var t0, t2 := SupersedeThenRevive();
    var qs := [REMOVE, UPDATE_NEW];
    var s := Snap(t0, 1);
    assert s.Keys == {1} && MaxOf(s.Keys) == 1;
    var d := Discarded(t2, 1, s, 1);
    assert 1 in d && d[1].payload == Some(20);
    assert t0[1].payload == Some(10);
    assert UniqueKeys(t0) && |qs| == 2 && Discarded(EnqueueAll(t0, qs, 5), 1, Snap(t0, 1), MaxOf(Snap(t0, 1).Keys)) != t0;
  }
}
