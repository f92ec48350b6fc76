/** The dry run carried out on the tables (app/ledger/reconciler.py:171-208, 563-672). */
module DryRunPass {
  import opened Base
  import opened OutboxTable
  import opened Protocol
  import opened Records
  import opened Drain
  import opened Reconcile
  import opened DryRun

  /** Read the columns the pass may rewrite. */
  function SnapshotOutbox(db: Ledger, user: nat): (snapshot: Snapshot)
    reads db, db.ops.Values
    ensures snapshot == DryRun.Snap(db.Rows(), user)
  {
    map i | i in db.ops && db.ops[i].row.user == user :: ColumnsOf(db.ops[i].row)
  }

  /** `max(snapshot, default=0)`. */
  method Watermark(snapshot: Snapshot) returns (mark: nat)
    ensures IsMax(mark, snapshot.Keys)
  {
    mark := 0;
    var rest := snapshot.Keys;
    while rest != {}
      invariant rest <= snapshot.Keys
      invariant mark in snapshot || (mark == 0 && rest == snapshot.Keys)
      invariant forall i :: i in snapshot && i !in rest ==> i <= mark
      decreases |rest|
    {
      var i :| i in rest;
      rest := rest - {i};
      if mark <= i {
        mark := i;
      }
    }
  }

  /** Report the ops the pass made pending, delete its rows, restore the rows it rewrote. */
  method DiscardOutbox(db: Ledger, user: nat, snapshot: Snapshot) returns (preview: set<nat>, ghost mark: nat)
    requires forall i :: i in db.ops ==> db.ops[i].id == i
    modifies db`ops, db.ops.Values
    ensures IsMax(mark, snapshot.Keys) && db.Rows() == Discarded(old(db.Rows()), user, snapshot, mark)
    ensures preview == Preview(old(db.Rows()), user, snapshot, mark)
  {
    ghost var before := db.Rows();
    var watermark := Watermark(snapshot);
    mark := watermark;
    preview := set i | i in db.ops && Previewed(db.ops[i].row, i, user, snapshot, watermark);
    assert preview == Preview(before, user, snapshot, watermark);
    db.ops := map i | i in db.ops && !(db.ops[i].row.user == user && i > watermark) :: db.ops[i];
    forall o | o in db.ops.Values && o.row.user == user && Changed(o.row, o.id, snapshot) {
      o.row := Restore(o.row, snapshot[o.id]);
    }
  }

  // ---------------------------------------------------------------------------
  // A diff pass touches the outbox only in ways the discard undoes
  // ---------------------------------------------------------------------------

  ghost predicate Rowwise(s: Table, t: Table) {
    && (forall i :: i in s ==> i in t && (t[i] == s[i] || Touched(s[i], t[i])))
    && (forall i :: i in t && i !in s ==> t[i].status == Pending)
  }

  lemma DiffedRowwise(s: Cell, t: Cell, user: nat, calendars: set<nat>, now: int)
    requires Diffed(s, t, user, calendars, now)
    ensures Rowwise(s.rows, t.rows)
  {
    if s.site.user == user {
      var free :| free !in s.rows && t == DiffStep(s, Mapped(s.site, calendars), now, free);
      var d := Decide(s.site, s.proj, s.flags, Mapped(s.site, calendars));
      if Diverged(s.proj) && d.Some? {
        EnqueueRowwise(s.rows, RequestFor(s.site, s.proj, d.value), now, free);
      }
    }
  }

  /** Projection by projection: rewritten reversibly, or not the user's and left alone. */
  ghost predicate RowwiseFor(t0: Table, t: Table, p: nat, owner: nat, user: nat) {
    Rowwise(RowsOf(t0, p), RowsOf(t, p)) && (owner != user ==> RowsOf(t, p) == RowsOf(t0, p))
  }

  ghost predicate Owners(t: Table, owner: map<nat, nat>) {
    forall i :: i in t ==> t[i].proj in owner && t[i].user == owner[t[i].proj]
  }

  lemma RowKept(t0: Table, t: Table, owner: map<nat, nat>, user: nat, i: nat)
    requires Owners(t0, owner) && i in t0 && RowwiseFor(t0, t, t0[i].proj, owner[t0[i].proj], user)
    ensures i in t && t[i].user == t0[i].user && (t[i] == t0[i] || (t0[i].user == user && Touched(t0[i], t[i])))
  {
    assert i in RowsOf(t0, t0[i].proj);
  }

  lemma RowAdded(t0: Table, t: Table, owner: map<nat, nat>, user: nat, i: nat)
    requires Owners(t, owner) && i in t && i !in t0 && RowwiseFor(t0, t, t[i].proj, owner[t[i].proj], user)
    ensures t[i].status == Pending && t[i].user == user
  {
    assert i in RowsOf(t, t[i].proj) && i !in RowsOf(t0, t[i].proj);
  }

  lemma RowwiseIsMidPass(t0: Table, t: Table, owner: map<nat, nat>, user: nat)
    requires Owners(t0, owner) && Owners(t, owner) && NewerIds(t0.Keys, t.Keys)
    requires forall p :: p in owner ==> RowwiseFor(t0, t, p, owner[p], user)
    ensures MidPass(t0, t, user, {})
    ensures forall i :: i in t && t[i].user != user ==> i in t0 && t[i] == t0[i]
  {
    forall i | i in t0 ensures i in t && t[i].user == t0[i].user && (t[i] == t0[i] || (t0[i].user == user && Touched(t0[i], t[i]))) {
      RowKept(t0, t, owner, user, i);
    }
    forall i | i in t && i !in t0 ensures t[i].status == Pending && t[i].user == user && i > MaxOf(t0.Keys) {
      RowAdded(t0, t, owner, user, i);
    }
  }

  /** Then discarding restores the whole table. */
  lemma DiscardRestoresAll(t0: Table, t: Table, user: nat, mark: nat)
    requires MidPass(t0, t, user, {}) && forall i :: i in t && t[i].user != user ==> i in t0 && t[i] == t0[i]
    requires IsMax(mark, DryRun.Snap(t0, user).Keys)
    ensures Discarded(t, user, DryRun.Snap(t0, user), mark) == t0
  {
    DiscardUndoes(t0, t, user, mark);
    var d := Discarded(t, user, DryRun.Snap(t0, user), mark);
    forall i | i in d ensures i in t0 && d[i] == t0[i] {
      assert i in RowsOfUser(d, d[i].user);
    }
    forall i | i in t0 ensures i in d {
      assert i in RowsOfUser(t0, t0[i].user);
      if t0[i].user != user { assert i in RowsOfUser(t, t0[i].user); }
    }
  }

  lemma DiffIsRowwise(starts: map<nat, Cell>, views: map<nat, Cell>, t0: Table, t: Table, user: nat, calendars: set<nat>, now: int, p: nat)
    requires AllDiffed(starts, views, user, calendars, now) && p in starts
    requires starts[p].rows == RowsOf(t0, p) && views[p].rows == RowsOf(t, p)
    ensures RowwiseFor(t0, t, p, starts[p].site.user, user)
  {
    DiffedRowwise(starts[p], views[p], user, calendars, now);
  }

  /** A dry run leaves the outbox as it was, row for row and column for column, and reports exactly
      the ops its pass would have queued. */
  method DryRunOnce(db: Ledger, user: nat, calendars: set<nat>, now: int) returns (preview: set<nat>, ghost staged: Table)
    requires db.Valid()
    modifies db`ops, db.ops.Values, db.projections.Values
    ensures db.Rows() == old(db.Rows())
    ensures preview == Newly(old(db.Rows()), staged, user)
  {
    ghost var before := db.Rows();
    ghost var owner := map p | p in db.projections :: db.projections[p].site.user;
    var snapshot := SnapshotOutbox(db, user);
    staged := StageDiff(db, user, calendars, now, owner);
    ghost var mark;
    preview, mark := DiscardOutbox(db, user, snapshot);
    PassIsUndone(before, staged, owner, user, mark);
  }

  /** Whatever a pass of the diff does to the table, discarding undoes, and reports. */
  lemma PassIsUndone(t0: Table, t: Table, owner: map<nat, nat>, user: nat, mark: nat)
    requires Owners(t0, owner) && Owners(t, owner) && NewerIds(t0.Keys, t.Keys)
    requires forall p :: p in owner ==> RowwiseFor(t0, t, p, owner[p], user)
    requires IsMax(mark, DryRun.Snap(t0, user).Keys)
    ensures Discarded(t, user, DryRun.Snap(t0, user), mark) == t0
    ensures Preview(t, user, DryRun.Snap(t0, user), mark) == Newly(t0, t, user)
  {
    RowwiseIsMidPass(t0, t, owner, user);
    DiscardRestoresAll(t0, t, user, mark);
    DiscardUndoes(t0, t, user, mark);
  }

  /** The ops a pass made pending. */
  ghost function Newly(t0: Table, t: Table, user: nat): set<nat> {
    set i | i in t && t[i].user == user && t[i].status == Pending && (i !in t0 || t0[i].status != Pending)
  }

  method StageDiff(db: Ledger, user: nat, calendars: set<nat>, now: int, ghost owner: map<nat, nat>) returns (ghost staged: Table)
    requires db.Valid() && owner == map p | p in db.projections :: db.projections[p].site.user
    modifies db`ops, db.ops.Values, db.projections.Values
    ensures db.Valid() && staged == db.Rows()
    ensures db.OldOrNew()
    ensures Owners(old(db.Rows()), owner) && Owners(staged, owner) && NewerIds(old(db.Rows()).Keys, staged.Keys)
    ensures forall p :: p in owner ==> RowwiseFor(old(db.Rows()), staged, p, owner[p], user)
  {
    ghost var before, starts := db.Rows(), db.Views();
    var _ := DiffAndEnqueueForUser(db, user, calendars, now);
    staged := db.Rows();
    ghost var views := db.Views();
    forall p | p in owner ensures RowwiseFor(before, staged, p, owner[p], user) {
      DiffIsRowwise(starts, views, before, staged, user, calendars, now, p);
    }
  }
}
