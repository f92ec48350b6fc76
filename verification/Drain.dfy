/** Enqueueing, claiming and draining over the tables (app/ledger/outbox.py:163-439). */
module Drain {
  import opened Base
  import opened OutboxTable
  import opened GoogleModel
  import opened Protocol
  import opened Worker
  import opened Records
  import opened Handlers

  // ---------------------------------------------------------------------------
  // Counters, and what a drain did to the table
  // ---------------------------------------------------------------------------

  datatype Counters = Counters(processed: nat, succeeded: nat, retried: nat, failedPermanent: nat, superseded: nat)

  const ZERO := Counters(0, 0, 0, 0, 0)

  function Tally(c: Counters, o: Outcome): Counters {
    var d := c.(processed := c.processed + 1);
    match o
    case Succeeded => d.(succeeded := c.succeeded + 1)
    case Retried => d.(retried := c.retried + 1)
    case FailedPermanent => d.(failedPermanent := c.failedPermanent + 1)
    case WasSuperseded => d.(superseded := c.superseded + 1)
  }

  ghost function Count(t: Table, order: seq<nat>, status: Status): nat
    requires forall id :: id in order ==> id in t
  {
    if order == [] then 0
    else Count(t, order[..|order| - 1], status) + (if t[order[|order| - 1]].status == status then 1 else 0)
  }

  /** The counters sum to what was processed, and each is the number of executed ops the table now
      shows in that status. */
  ghost predicate Tallied(c: Counters, t: Table, order: seq<nat>) {
    && (forall id :: id in order ==> id in t)
    && c.succeeded == Count(t, order, Done) && c.retried == Count(t, order, Pending)
    && c.failedPermanent == Count(t, order, PermanentFailure) && c.superseded == Count(t, order, Superseded)
    && c.processed == c.succeeded + c.retried + c.failedPermanent + c.superseded
  }

  ghost predicate Increasing(order: seq<nat>) {
    forall j, k :: 0 <= j < k < |order| ==> order[j] < order[k]
  }

  /** The ops executed, in order, are due ops with strictly increasing ids, none of them is due any
      more, everything older is served first, and no other row moved. */
  ghost predicate DrainedTable(start: Table, t: Table, user: nat, now: int, order: seq<nat>) {
    && t.Keys == start.Keys
    && (forall i :: i in start && i !in order ==> t[i] == start[i])
    && Increasing(order) && (forall id :: id in order ==> id in DueSet(start, user, now))
    && DueSet(t, user, now) == (set i | i in DueSet(start, user, now) && i !in order)
    && (forall i, id :: i in DueSet(t, user, now) && id in order ==> id < i)
  }

  lemma OneMoreDrained(start: Table, t: Table, t': Table, user: nat, now: int, order: seq<nat>, id: nat)
    requires DrainedTable(start, t, user, now, order) && IsLeast(id, DueSet(t, user, now)) && id in t'
    requires DueSet(t', user, now) == DueSet(t, user, now) - {id} && t' == t[id := t'[id]]
    ensures DrainedTable(start, t', user, now, order + [id]) && id !in order
  {
    var order' := order + [id];
    assert forall i :: i in order' <==> i in order || i == id;
    assert t'.Keys == start.Keys;
    assert id in DueSet(t, user, now) && id in DueSet(start, user, now);
    assert DueSet(t', user, now) == (set i | i in DueSet(start, user, now) && i !in order');
    assert forall i :: i in start && i !in order' ==> t'[i] == start[i];
    assert forall j :: 0 <= j < |order| ==> order[j] in order;
    assert Increasing(order');
    assert forall x :: x in order' ==> x in DueSet(start, user, now);
    assert forall i, x :: i in DueSet(t', user, now) && x in order' ==> x < i;
  }

  lemma {:induction false} CountElsewhere(t: Table, t': Table, order: seq<nat>, status: Status)
    requires forall id :: id in order ==> id in t && id in t' && t'[id] == t[id]
    ensures Count(t', order, status) == Count(t, order, status)
  {
    if order != [] {
      CountElsewhere(t, t', order[..|order| - 1], status);
    }
  }

  lemma OneMoreTallied(c: Counters, t: Table, t': Table, order: seq<nat>, id: nat, o: Outcome)
    requires Tallied(c, t, order) && id !in order && id in t' && t' == t[id := t'[id]]
    requires t'[id].status == StatusOf(o)
    ensures Tallied(Tally(c, o), t', order + [id])
  {
    assert (order + [id])[..|order|] == order;
    CountElsewhere(t, t', order, Done);
    CountElsewhere(t, t', order, Pending);
    CountElsewhere(t, t', order, PermanentFailure);
    CountElsewhere(t, t', order, Superseded);
  }

  ghost predicate Progressed(start: Table, t: Table, user: nat, now: int, order: seq<nat>, c: Counters) {
    DrainedTable(start, t, user, now, order) && Tallied(c, t, order) && c.processed == |order|
  }

  lemma NothingDoneYet(t: Table, user: nat, now: int)
    ensures Progressed(t, t, user, now, [], ZERO)
  {
  }

  lemma OneMoreOp(start: Table, t: Table, t': Table, user: nat, now: int, order: seq<nat>, c: Counters, id: nat, o: Outcome)
    requires Progressed(start, t, user, now, order, c) && IsLeast(id, DueSet(t, user, now)) && id in t'
    requires DueSet(t', user, now) == DueSet(t, user, now) - {id} && t' == t[id := t'[id]]
    requires t'[id].status == StatusOf(o)
    ensures Progressed(start, t', user, now, order + [id], Tally(c, o)) && |DueSet(t', user, now)| < |DueSet(t, user, now)|
  {
    OneMoreDrained(start, t, t', user, now, order, id);
    OneMoreTallied(c, t, t', order, id, o);
  }

  /** The stale reclaim as a step of the transition system. */
  ghost function Reclaimed(s: Cell, user: nat, now: int): Cell
    requires s.exec == Idle
  {
    if s.site.user == user then Next(s, AReclaim(Some(now - STALE_OP_TIMEOUT))) else s
  }

  lemma ReclaimedRows(t: Table, pid: nat, owner: nat, user: nat, now: int)
    requires forall i :: i in t && t[i].proj == pid ==> t[i].user == owner
    ensures RowsOf(ReclaimStale(t, user, now), pid) ==
            if owner == user then map i | i in RowsOf(t, pid) :: ReclaimRow(RowsOf(t, pid)[i], Some(now - STALE_OP_TIMEOUT))
            else RowsOf(t, pid)
  {
  }

  ghost predicate AllCarried(starts: map<nat, Cell>, ends: map<nat, Cell>, user: nat, paused: bool, f: Forecast, now: int) {
    && ends.Keys == starts.Keys
    && forall p :: p in starts ==>
         starts[p].exec == Idle && Carried(if paused then starts[p] else Reclaimed(starts[p], user, now), ends[p], f, now)
  }

  ghost predicate NothingDue(views: map<nat, Cell>, user: nat, now: int) {
    forall p :: p in views ==> DueSet(views[p].rows, user, now) == {}
  }

  /** Only one projection moved, and to `c`. */
  ghost predicate Moved(views: map<nat, Cell>, next: map<nat, Cell>, pid: nat, c: Cell) {
    && next.Keys == views.Keys && pid in views && next[pid] == c
    && forall q :: q in views && q != pid ==> next[q] == views[q]
  }

  lemma NotYetAllCarried(views: map<nat, Cell>, user: nat, f: Forecast, now: int)
    requires forall p :: p in views ==> views[p].exec == Idle
    ensures AllCarried(views, views, user, true, f, now)
  {
    forall p | p in views ensures Carried(views[p], views[p], f, now) {
      NotYetCarried(views[p], f, now);
    }
  }

  /** The tables, and the service behind them. */
  class Ledger {
    const google: Google
    const accounts: map<nat, Account>
    const projections: map<nat, ProjectionRecord>
    var ops: map<nat, OpRecord>

    constructor (google: Google, accounts: map<nat, Account>, projections: map<nat, ProjectionRecord>, ops: map<nat, OpRecord>)
      ensures this.google == google && this.accounts == accounts && this.projections == projections && this.ops == ops
    {
      this.google := google;
      this.accounts := accounts;
      this.projections := projections;
      this.ops := ops;
    }

    ghost function Rows(): Table
      reads this, ops.Values
    {
      map i | i in ops :: ops[i].row
    }

    /** Primary keys, UNIQUE(idempotency_key), and the foreign key from ops to projections. */
    ghost predicate Valid()
      reads this, ops.Values
    {
      && (forall p :: p in projections ==> projections[p].site.proj == p && AccountOf(p))
      && (forall i :: i in ops ==> ops[i].id == i)
      && UniqueKeys(Rows())
      && Referenced(Rows())
    }

    /** The projection's account is that of its own calendar. */
    predicate AccountOf(p: nat)
      requires p in projections
    {
      p in accounts && accounts[p].pid == p && accounts[p].calendar == projections[p].site.calendar
    }

    ghost predicate Referenced(t: Table) {
      forall i :: i in t ==> t[i].proj in projections && t[i].user == projections[t[i].proj].site.user
    }

    /** Every op record was in the table before, under the same id, or is new. */
    twostate predicate OldOrNew()
      reads this
    {
      forall i :: i in ops ==> (i in old(ops) && ops[i] == old(ops)[i]) || fresh(ops[i])
    }

    /** What the transition system sees of the state. */
    ghost function View(pid: nat, exec: Exec): Cell
      requires pid in projections && pid in accounts
      reads this, google, ops.Values, projections.Values, accounts.Values
    {
      var proj, account := projections[pid], accounts[pid];
      Cell(proj.site, proj.p, RowsOf(Rows(), pid), account.slots, google.tick, exec, proj.flags, account.event, proj.log)
    }

    ghost function Views(): (m: map<nat, Cell>)
      requires Valid()
      reads this, google, ops.Values, projections.Values, accounts.Values
      ensures forall p :: p in m ==> m[p].exec == Idle && UniqueKeys(m[p].rows)
    {
      map p | p in projections :: View(p, Idle)
    }

    /** While only ops of one projection change, only its view changes, in its rows. */
    twostate lemma OnlyRowsMoved(pid: nat)
      requires old(Valid()) && Valid() && unchanged(google) && pid in projections
      requires forall p :: p in projections ==> unchanged(projections[p]) && unchanged(accounts[p])
      requires forall p :: p != pid ==> RowsOf(Rows(), p) == RowsOf(old(Rows()), p)
      ensures Moved(old(Views()), Views(), pid, old(View(pid, Idle)).(rows := RowsOf(Rows(), pid)))
    {
      ghost var views, next, t := old(Views()), Views(), Rows();
      assert next.Keys == views.Keys;
      forall q | q in projections ensures next[q] == views[q].(rows := RowsOf(t, q)) {}
    }

    // -------------------------------------------------------------------------
    // Enqueue
    // -------------------------------------------------------------------------

    lemma EnqueueKeepsReferences(t: Table, q: Request, now: int)
      requires UniqueKeys(t) && Referenced(t) && q.proj in projections && q.user == projections[q.proj].site.user
      ensures UniqueKeys(OutboxTable.Enqueue(t, q, now).0) && Referenced(OutboxTable.Enqueue(t, q, now).0)
    {
      EnqueueKeepsKeysUnique(t, q, now, MaxOf(t.Keys) + 1);
      EnqueueKeepsOwners(t, q, now);
    }

    method SupersedeOlder(k: Key, now: int)
      modifies ops.Values
      ensures Rows() == SupersedeOthers(old(Rows()), k, now)
    {
      forall o | o in ops.Values {
        o.row := SupersedeRow(o.row, k, now);
      }
    }

    /** Insert one op, superseding any older pending op of the same projection. */
    method Enqueue(q: Request, now: int) returns (id: nat)
      requires Valid() && q.proj in projections && q.user == projections[q.proj].site.user
      modifies this`ops, ops.Values
      ensures Valid() && (Rows(), id) == OutboxTable.Enqueue(old(Rows()), q, now)
      ensures NewerIds(old(ops).Keys, ops.Keys)
      ensures KeepsRecords(old(ops), ops) && OldOrNew()
    {
      EnqueueKeepsReferences(Rows(), q, now);
      var same := Find(RequestKey(q));
      assert same.Some? ==> Rows()[same.value] == ops[same.value].row;
      if same.Some? && Open(ops[same.value].row) {
        return same.value;
      }
      id := SupersedeAndPut(q, same, now);
    }

    static ghost predicate KeepsRecords(a: map<nat, OpRecord>, b: map<nat, OpRecord>) {
      && (forall i :: i in a ==> i in b && b[i] == a[i])
      && (forall i :: i in b ==> b[i].id == i)
    }

    /** INSERT ... ON CONFLICT DO NOTHING, else resurrect the conflicting op. */
    method SupersedeAndPut(q: Request, same: Option<nat>, now: int) returns (id: nat)
      requires same == Lookup(Rows(), RequestKey(q)) && (same.Some? ==> !Open(Rows()[same.value]))
      requires forall i :: i in ops ==> ops[i].id == i
      modifies this`ops, ops.Values
      ensures (Rows(), id) == OutboxTable.Enqueue(old(Rows()), q, now)
      ensures NewerIds(old(ops).Keys, ops.Keys)
      ensures KeepsRecords(old(ops), ops) && OldOrNew()
    {
      ghost var before := Rows();
      SupersedeOlder(RequestKey(q), now);
      assert Rows().Keys == before.Keys;
      if same.None? {
        id := InsertRow(NewRow(q, now));
      } else {
        id := same.value;
        assert ops[id].row == Rows()[id] == before[id];
        ReviveRow(ops[id], q, now);
      }
    }

    method InsertRow(r: Row) returns (id: nat)
      modifies this`ops
      ensures NewerIds(old(ops).Keys, ops.Keys)
      ensures id == MaxOf(old(Rows()).Keys) + 1 && Rows() == old(Rows())[id := r]
      ensures id !in old(ops) && id in ops && fresh(ops[id]) && ops[id].id == id && ops == old(ops)[id := ops[id]]
    {
      id := NextId();
      assert Rows().Keys == ops.Keys;
      var op := new OpRecord(id, r);
      ops := ops[id := op];
    }

    method ReviveRow(op: OpRecord, q: Request, now: int)
      requires op.id in ops && ops[op.id] == op
      requires forall i :: i in ops ==> ops[i].id == i
      modifies op
      ensures Rows() == old(Rows())[op.id := Revive(old(op.row), q, now)]
    {
      op.row := Revive(op.row, q, now);
    }

    /** `SELECT id ... WHERE idempotency_key = ?`. */
    method Find(k: Key) returns (found: Option<nat>)
      requires Valid()
      ensures found == Lookup(Rows(), k)
    {
      var rest := ops.Keys;
      while rest != {}
        invariant rest <= ops.Keys
        invariant forall i :: i in ops && KeyOf(ops[i].row) == k ==> i in rest
        decreases |rest|
      {
        var i :| i in rest;
        if KeyOf(ops[i].row) == k {
          assert Rows()[i] == ops[i].row;
          return Some(i);
        }
        rest := rest - {i};
      }
      return None;
    }

    /** SQLite's next rowid. */
    method NextId() returns (id: nat)
      ensures id == MaxOf(Rows().Keys) + 1
    {
      id := 1;
      var rest := ops.Keys;
      while rest != {}
        invariant rest <= ops.Keys
        invariant id == 1 || id - 1 in ops
        invariant forall i :: i in ops && i !in rest ==> i < id
        decreases |rest|
      {
        var i :| i in rest;
        rest := rest - {i};
        if id <= i {
          id := i + 1;
        }
      }
      assert Rows().Keys == ops.Keys;
      if ops.Keys != {} {
        assert MaxOf(Rows().Keys) in ops;
      }
    }

    // -------------------------------------------------------------------------
    // Drain
    // -------------------------------------------------------------------------

    /** Reset ops a crashed drain left in flight. */
    method ReclaimStaleOperations(user: nat, now: int)
      requires Valid()
      modifies ops.Values
      ensures Valid() && Rows() == ReclaimStale(old(Rows()), user, now)
    {
      ghost var before := Rows();
      forall o | o in ops.Values && o.row.user == user && IsStale(o.row, now) {
        o.row := o.row.(status := Pending);
      }
      assert Rows() == ReclaimStale(before, user, now);
      forall i | i in before ensures KeyOf(Rows()[i]) == KeyOf(before[i]) {}
    }

    /** The oldest due op, marked in flight; returned as read before the claim. */
    method ClaimNext(user: nat, now: int) returns (claimed: Option<OpRecord>, read: Option<Row>)
      requires Valid()
      modifies ops.Values
      ensures Valid() && claimed.Some? == read.Some?
      ensures claimed.None? ==> Rows() == old(Rows()) && DueSet(Rows(), user, now) == {}
      ensures claimed.Some? ==>
        && claimed.value.id in ops && ops[claimed.value.id] == claimed.value
        && IsLeast(claimed.value.id, DueSet(old(Rows()), user, now))
        && read.value == old(Rows())[claimed.value.id] && claimed.value.row == ClaimRow(read.value, now)
        && Rows() == old(Rows())[claimed.value.id := ClaimRow(read.value, now)]
    {
      claimed := OldestDue(user, now);
      if claimed.None? {
        return None, None;
      }
      read := Some(claimed.value.row);
      MarkInFlight(claimed.value, now);
    }

    /** `UPDATE ... SET status = 'in_flight', attempts = attempts + 1`. */
    method MarkInFlight(op: OpRecord, now: int)
      requires Valid() && op.id in ops && ops[op.id] == op
      modifies op
      ensures Valid() && op.row == ClaimRow(old(op.row), now) && old(Rows())[op.id] == old(op.row)
      ensures Rows() == old(Rows())[op.id := ClaimRow(old(op.row), now)]
    {
      ghost var before := Rows();
      op.row := ClaimRow(op.row, now);
      assert Rows() == before[op.id := op.row];
      RewriteKeepsReferences(before, op.id, op.row);
    }

    /** `... ORDER BY id LIMIT 1`. */
    method OldestDue(user: nat, now: int) returns (oldest: Option<OpRecord>)
      requires Valid()
      ensures oldest.None? ==> DueSet(Rows(), user, now) == {}
      ensures oldest.Some? ==>
        && oldest.value.id in ops && ops[oldest.value.id] == oldest.value
        && IsLeast(oldest.value.id, DueSet(Rows(), user, now))
    {
      oldest := None;
      var rest := ops.Keys;
      while rest != {}
        invariant rest <= ops.Keys
        invariant oldest.None? ==> forall i :: i in ops && i !in rest ==> !IsDue(ops[i].row, user, now)
        invariant oldest.Some? ==>
          && oldest.value.id in ops && ops[oldest.value.id] == oldest.value && IsDue(oldest.value.row, user, now)
          && forall i :: i in ops && i !in rest && IsDue(ops[i].row, user, now) ==> oldest.value.id <= i
        decreases |rest|
      {
        var i :| i in rest;
        rest := rest - {i};
        if IsDue(ops[i].row, user, now) && (oldest.None? || i < oldest.value.id) {
          oldest := Some(ops[i]);
        }
      }
      assert forall i :: i in DueSet(Rows(), user, now) <==> i in ops && IsDue(ops[i].row, user, now);
    }

    // -------------------------------------------------------------------------
    // Executing the claimed op
    // -------------------------------------------------------------------------

    /** The handlers' view of the op is the transition system's, narrowed to one row. */
    lemma NarrowView(op: OpRecord, pid: nat, exec: Exec)
      requires pid in projections && pid in accounts && op.id in ops && ops[op.id] == op && op.row.proj == pid
      ensures View(pid, exec) ==
              Widen(Desk(google, accounts[pid], projections[pid], op, exec), RowsOf(Rows(), pid), op.id)
    {
      assert RowsOf(Rows(), pid)[op.id := op.row] == RowsOf(Rows(), pid);
    }

    /** Execute a claimed op: its projection ends where the worker of the transition system ends,
        the op is settled or due strictly later, and no other row moves. */
    method Execute(op: OpRecord, read: Row, now: int) returns (outcome: Outcome)
      requires Valid() && op.id in ops && ops[op.id] == op && op.row.proj == read.proj && read.proj in projections
      modifies google, accounts[read.proj], projections[read.proj], op
      ensures Rows() == old(Rows())[op.id := op.row]
      ensures KeyOf(op.row) == old(KeyOf(op.row)) && op.row.user == old(op.row.user)
      ensures Settled(op.row, now) && op.row.status == StatusOf(outcome) && google.tick >= old(google.tick)
      ensures (View(read.proj, Idle), google.asked) ==
              Perform(old(View(read.proj, Ready(op.id, read))), google.forecast, old(google.asked), now)
    {
      var pid := read.proj;
      ghost var t, n := RowsOf(Rows(), pid), google.asked;
      ghost var start := Desk(google, accounts[pid], projections[pid], op, Ready(op.id, read));
      NarrowView(op, pid, Ready(op.id, read));
      outcome := ExecuteOp(google, accounts[pid], projections[pid], op, read, now);
      ghost var end := Desk(google, accounts[pid], projections[pid], op, Idle);
      CarryOut(start, t, op.id, google.forecast, n, now, end, google.asked);
      RowsAfter(op, old(Rows()), pid);
    }

    /** The claim, as the projections see it: only queues move. */
    method Claim(user: nat, now: int) returns (claimed: Option<OpRecord>, read: Option<Row>)
      requires Valid()
      modifies ops.Values
      ensures Valid() && claimed.Some? == read.Some?
      ensures claimed.None? ==> Rows() == old(Rows()) && DueSet(Rows(), user, now) == {}
      ensures claimed.Some? ==>
        && claimed.value.id in ops && ops[claimed.value.id] == claimed.value
        && IsLeast(claimed.value.id, DueSet(old(Rows()), user, now))
        && read.value == old(Rows())[claimed.value.id] && claimed.value.row == ClaimRow(read.value, now)
        && Rows() == old(Rows())[claimed.value.id := ClaimRow(read.value, now)]
      ensures forall q :: q in projections ==> View(q, Idle) == old(View(q, Idle)).(rows := RowsOf(Rows(), q))
    {
      claimed, read := ClaimNext(user, now);
    }

    /** Executing a claimed op, as the other projections and the queue see it. */
    method Serve(op: OpRecord, read: Row, now: int) returns (outcome: Outcome)
      requires Valid() && op.id in ops && ops[op.id] == op && op.row.proj == read.proj && read.proj in projections
      modifies google, accounts[read.proj], projections[read.proj], op
      ensures Valid() && Rows() == old(Rows())[op.id := op.row] && KeyOf(op.row) == old(KeyOf(op.row))
      ensures Settled(op.row, now) && op.row.status == StatusOf(outcome) && google.tick >= old(google.tick)
      ensures View(read.proj, Idle) ==
              Perform(old(View(read.proj, Ready(op.id, read))), google.forecast, old(google.asked), now).0
      ensures forall q :: q in projections && q != read.proj ==> View(q, Idle) == old(View(q, Idle)).(tick := google.tick)
    {
      outcome := Execute(op, read, now);
      RewriteKeepsReferences(old(Rows()), op.id, op.row);
      forall q | q in projections && q != read.proj ensures RowsOf(Rows(), q) == RowsOf(old(Rows()), q) {
        RowsOfUpdate(old(Rows()), op.id, op.row, q);
      }
    }

    lemma RewriteKeepsReferences(t: Table, id: nat, r: Row)
      requires UniqueKeys(t) && Referenced(t) && id in t && KeyOf(r) == KeyOf(t[id]) && r.user == t[id].user
      ensures UniqueKeys(t[id := r]) && Referenced(t[id := r])
    {
    }

    /** Claim the oldest due op and execute it. */
    method DrainOne(user: nat, now: int) returns (done: Option<Outcome>, id: nat)
      requires Valid()
      modifies google, accounts.Values, projections.Values, ops.Values
      ensures Valid()
      ensures done.None? ==> Rows() == old(Rows()) && DueSet(Rows(), user, now) == {}
      ensures done.Some? ==>
        && IsLeast(id, DueSet(old(Rows()), user, now)) && DueSet(Rows(), user, now) == DueSet(old(Rows()), user, now) - {id}
        && Rows() == old(Rows())[id := Rows()[id]] && Rows()[id].status == StatusOf(done.value)
      ensures forall p :: p in projections ==> Carried(old(View(p, Idle)), View(p, Idle), google.forecast, now)
    {
      ghost var n := google.asked;
      var claimed, read := Claim(user, now);
      if claimed.None? {
        forall p | p in projections ensures Carried(old(View(p, Idle)), View(p, Idle), google.forecast, now) {
          NotYetCarried(View(p, Idle), google.forecast, now);
        }
        return None, 0;
      }
      var op := claimed.value;
      id := op.id;
      ClaimedRows(old(Rows()), id, read.value, now);
      ClaimIsAnAction(old(View(read.value.proj, Idle)), id, read.value, now);
      var outcome := Serve(op, read.value, now);
      done := Some(outcome);
      UpdateTwice(old(Rows()), id, ClaimRow(read.value, now), op.row);
      assert Rows() == old(Rows())[id := op.row];
      SettledIsNotDue(old(Rows()), id, op.row, user, now);
      forall p | p in projections ensures Carried(old(View(p, Idle)), View(p, Idle), google.forecast, now) {
        CarriedOnce(old(View(p, Idle)), if p == read.value.proj then Carry(id, n) else Wait(google.tick), google.forecast, now);
      }
    }

    /** Drain the due ops of one user, oldest first. */
    method DrainUser(user: nat, paused: bool, now: int, maxOps: nat) returns (c: Counters, ghost order: seq<nat>)
      requires Valid()
      modifies google, accounts.Values, projections.Values, ops.Values
      ensures Valid()
      ensures paused ==> c == ZERO && Rows() == old(Rows())
      ensures !paused ==> DrainedTable(ReclaimStale(old(Rows()), user, now), Rows(), user, now, order)
      ensures !paused && c.processed < maxOps ==> DueSet(Rows(), user, now) == {}
      ensures c.processed == |order| <= maxOps && Tallied(c, Rows(), order)
      ensures AllCarried(old(Views()), Views(), user, paused, google.forecast, now)
    {
      NotYetAllCarried(Views(), user, google.forecast, now);
      if paused {
        return ZERO, [];
      }
      ghost var before := Views();
      Reclaim(user, now);
      ghost var starts := Views();
      NotYetAllCarried(starts, user, google.forecast, now);
      c, order := DrainDue(user, now, maxOps, starts);
      AllReclaimedAndCarried(before, starts, Views(), user, google.forecast, now);
    }

    /** The stale reclaim, as the projections see it. */
    method Reclaim(user: nat, now: int)
      requires Valid()
      modifies ops.Values
      ensures Valid() && Rows() == ReclaimStale(old(Rows()), user, now)
      ensures forall p :: p in projections ==> View(p, Idle) == Reclaimed(old(View(p, Idle)), user, now)
    {
      ReclaimStaleOperations(user, now);
      forall p | p in projections ensures View(p, Idle) == Reclaimed(old(View(p, Idle)), user, now) {
        ReclaimedRows(old(Rows()), p, projections[p].site.user, user, now);
      }
    }

    /** A queue with nothing due has nothing due for any projection. */
    lemma NothingDueInViews(user: nat, now: int)
      requires Valid()
      ensures DueSet(Rows(), user, now) == {} ==> NothingDue(Views(), user, now)
    {
      forall p, i | p in projections && i in RowsOf(Rows(), p) && IsDue(RowsOf(Rows(), p)[i], user, now)
        ensures i in DueSet(Rows(), user, now)
      {
      }
    }

    /** The loop of the drain. */
    method DrainDue(user: nat, now: int, maxOps: nat, ghost starts: map<nat, Cell>) returns (c: Counters, ghost order: seq<nat>)
      requires Valid() && starts.Keys == projections.Keys
      requires forall p :: p in projections ==> Carried(starts[p], View(p, Idle), google.forecast, now)
      modifies google, accounts.Values, projections.Values, ops.Values
      ensures Valid() && Progressed(old(Rows()), Rows(), user, now, order, c) && c.processed <= maxOps
      ensures c.processed < maxOps ==> DueSet(Rows(), user, now) == {}
      ensures forall p :: p in projections ==> Carried(starts[p], View(p, Idle), google.forecast, now)
    {
      c, order := ZERO, [];
      ghost var start := Rows();
      NothingDoneYet(start, user, now);
      while c.processed < maxOps
        invariant Valid() && Progressed(start, Rows(), user, now, order, c) && c.processed <= maxOps
        invariant forall p :: p in projections ==> Carried(starts[p], View(p, Idle), google.forecast, now)
        decreases |DueSet(Rows(), user, now)|
      {
        ghost var id;
        var outcome;
        outcome, id := DrainFurther(user, now, starts, start, order, c);
        if outcome.None? {
          break;
        }
        order := order + [id];
        c := Tally(c, outcome.value);
      }
    }

    /** One turn of the loop, counted from the start of the drain. */
    method DrainFurther(user: nat, now: int, ghost starts: map<nat, Cell>, ghost start: Table, ghost order: seq<nat>, ghost c: Counters)
      returns (done: Option<Outcome>, ghost id: nat)
      requires Valid() && starts.Keys == projections.Keys && Progressed(start, Rows(), user, now, order, c)
      requires forall p :: p in projections ==> Carried(starts[p], View(p, Idle), google.forecast, now)
      modifies google, accounts.Values, projections.Values, ops.Values
      ensures Valid()
      ensures done.None? ==> Progressed(start, Rows(), user, now, order, c) && DueSet(Rows(), user, now) == {}
      ensures done.Some? ==>
        && Progressed(start, Rows(), user, now, order + [id], Tally(c, done.value))
        && |DueSet(Rows(), user, now)| < |DueSet(old(Rows()), user, now)|
      ensures forall p :: p in projections ==> Carried(starts[p], View(p, Idle), google.forecast, now)
    {
      ghost var before := Rows();
      done, id := DrainOne(user, now);
      if done.Some? {
        OneMoreOp(start, before, Rows(), user, now, order, c, id, done.value);
      }
      forall p | p in projections ensures Carried(starts[p], View(p, Idle), google.forecast, now) {
        CarriedOn(starts[p], old(View(p, Idle)), View(p, Idle), google.forecast, now);
      }
    }

    lemma RowsAfter(op: OpRecord, before: Table, pid: nat)
      requires op.id in ops && ops[op.id] == op && op.id in before && ops.Keys == before.Keys
      requires forall i :: i in ops && i != op.id ==> ops[i].row == before[i]
      requires op.row.proj == before[op.id].proj == pid
      ensures Rows() == before[op.id := op.row] && RowsOf(Rows(), pid) == RowsOf(before, pid)[op.id := op.row]
    {
      assert Rows() == before[op.id := op.row];
      RowsOfUpdate(before, op.id, op.row, pid);
    }
  }

  lemma ClaimedRows(t: Table, id: nat, read: Row, now: int)
    requires id in t && t[id] == read
    ensures forall q :: q != read.proj ==> RowsOf(t[id := ClaimRow(read, now)], q) == RowsOf(t, q)
    ensures RowsOf(t[id := ClaimRow(read, now)], read.proj) == RowsOf(t, read.proj)[id := ClaimRow(read, now)]
    ensures id in RowsOf(t, read.proj) && RowsOf(t, read.proj)[id] == read
  {
    forall q ensures RowsOf(t[id := ClaimRow(read, now)], q) ==
                     if q == read.proj then RowsOf(t, q)[id := ClaimRow(read, now)] else RowsOf(t, q) {
      RowsOfUpdate(t, id, ClaimRow(read, now), q);
    }
  }

  lemma ClaimIsAnAction(s: Cell, id: nat, read: Row, now: int)
    requires s.exec == Idle && id in s.rows && s.rows[id] == read && IsDue(read, s.site.user, now)
    ensures Enabled(s, AClaim(id, now))
    ensures Next(s, AClaim(id, now)) == s.(rows := s.rows[id := ClaimRow(read, now)], exec := Ready(id, read))
  {
  }

  /** Reclaimed, then carried. */
  lemma AllReclaimedAndCarried(before: map<nat, Cell>, starts: map<nat, Cell>, ends: map<nat, Cell>, user: nat, f: Forecast, now: int)
    requires starts.Keys == before.Keys && ends.Keys == before.Keys
    requires forall p :: p in before ==> before[p].exec == Idle && starts[p] == Reclaimed(before[p], user, now)
    requires forall p :: p in before ==> Carried(starts[p], ends[p], f, now)
    ensures AllCarried(before, ends, user, false, f, now)
  {
  }

  lemma UpdateTwice(t: Table, id: nat, a: Row, b: Row)
    ensures t[id := a][id := b] == t[id := b]
  {
  }

  lemma SettledIsNotDue(t: Table, id: nat, r: Row, user: nat, now: int)
    requires id in t && Settled(r, now)
    ensures DueSet(t[id := r], user, now) == DueSet(t, user, now) - {id}
  {
  }

  lemma RowsOfUpdate(t: Table, id: nat, r: Row, pid: nat)
    requires id in t && r.proj == t[id].proj
    ensures RowsOf(t[id := r], pid) == if r.proj == pid then RowsOf(t, pid)[id := r] else RowsOf(t, pid)
  {
  }
}
