/** The append-only queue of ledger events awaiting a replan (app/ledger/triggers.py:106-128,
    app/ledger/reconciler.py:307-318 and 709-749, app/ledger/schema.py:204-218). */
module ReplanQueue {
  import opened Base

  /** An `affected_ledger_events` row. */
  datatype Entry = Entry(user: nat, event: nat)

  type Queue = map<nat, Entry>

  // ---------------------------------------------------------------------------
  // The table
  // ---------------------------------------------------------------------------

  const DELETE_CHUNK := 500

  function IdsOf(ids: seq<nat>): set<nat> {
    set i | 0 <= i < |ids| :: ids[i]
  }

  ghost predicate Increasing(s: seq<nat>) {
    forall j, k :: 0 <= j < k < |s| ==> s[j] < s[k]
  }

  /** The rows of one user, and the events they name. */
  function RowsFor(q: Queue, user: nat): set<nat> {
    set i | i in q && q[i].user == user
  }

  function EventsFor(q: Queue, user: nat): set<nat> {
    set i | i in q && q[i].user == user :: q[i].event
  }

  class AffectedEvents {
    var rows: Queue
    var next: nat

    constructor ()
      ensures rows == map[] && Valid()
    {
      rows := map[];
      next := 1;
    }

    /** AUTOINCREMENT: ids are never reused. */
    ghost predicate Valid()
      reads this
    {
      forall i :: i in rows ==> i < next
    }

    /** A plain INSERT per distinct event. */
    method RecordAffectedEvents(user: nat, events: set<nat>)
      requires Valid()
      modifies this
      ensures Valid() && next >= old(next)
      ensures forall i :: i in old(rows) ==> i in rows && rows[i] == old(rows)[i]
      ensures forall i :: i in rows && i !in old(rows) ==> i >= old(next) && rows[i].user == user && rows[i].event in events
      ensures forall e :: e in events ==> exists i :: i in rows && i !in old(rows) && rows[i] == Entry(user, e)
    {
      var rest := events;
      while rest != {}
        invariant Valid() && next >= old(next) && rest <= events
        invariant forall i :: i in old(rows) ==> i in rows && rows[i] == old(rows)[i]
        invariant forall i :: i in rows && i !in old(rows) ==> i >= old(next) && rows[i].user == user && rows[i].event in events
        invariant forall e :: e in events && e !in rest ==> exists i :: i in rows && i !in old(rows) && rows[i] == Entry(user, e)
        decreases |rest|
      {
        var e :| e in rest;
        rest := rest - {e};
        rows := rows[next := Entry(user, e)];
        assert rows[next] == Entry(user, e);
        next := next + 1;
      }
    }

    /** `SELECT ... WHERE user_id = ? ORDER BY id`. */
    method ReadAffectedLedgerRows(user: nat) returns (ids: seq<nat>)
      ensures Increasing(ids) && IdsOf(ids) == RowsFor(rows, user)
    {
      ids := Sorted(RowsFor(rows, user));
    }

    /** Delete by id, a chunk at a time. */
    method ClearAffectedLedgerRows(ids: seq<nat>)
      requires Valid()
      modifies this`rows
      ensures Valid() && rows == old(rows) - IdsOf(ids)
    {
      var start := 0;
      while start < |ids|
        invariant 0 <= start <= |ids|
        invariant rows == old(rows) - IdsOf(ids[..start])
      {
        var end := if start + DELETE_CHUNK < |ids| then start + DELETE_CHUNK else |ids|;
        var chunk := ids[start..end];
        assert IdsOf(ids[..end]) == IdsOf(ids[..start]) + IdsOf(chunk) by {
          assert ids[..end] == ids[..start] + chunk;
          IdsOfConcat(ids[..start], chunk);
        }
        rows := rows - IdsOf(chunk);
        start := end;
      }
      assert ids[..start] == ids;
    }

    /** The plan step of a pass.  `arrivals(k)` are the entries others append while the k-th event is
        being planned.  Every event queued at the start is planned once, in order, and what was
        appended meanwhile is still queued at the end, even for an event just planned. */
    method PlanAffected(user: nat, arrivals: nat -> Option<Entry>) returns (planned: seq<nat>)
      requires Valid()
      modifies this
      ensures Valid() && Increasing(planned) && IdsOf(planned) == EventsFor(old(rows), user)
      ensures forall i :: i in old(rows) ==> if old(rows)[i].user == user then i !in rows else i in rows && rows[i] == old(rows)[i]
      ensures forall k :: 0 <= k < |planned| && arrivals(k).Some? ==> Queued(rows, old(next), arrivals(k).value)
    {
      var ids := ReadAffectedLedgerRows(user);
      var events := Sorted(EventsFor(rows, user));
      ghost var slot: map<nat, nat> := map[];
      planned := [];
      while |planned| < |events|
        invariant |planned| <= |events| && planned == events[..|planned|]
        invariant Valid() && next >= old(next)
        invariant forall i :: i in old(rows) ==> i in rows && rows[i] == old(rows)[i]
        invariant forall i :: i in rows && i !in old(rows) ==> i >= old(next)
        invariant forall k :: 0 <= k < |planned| && arrivals(k).Some? ==>
          k in slot && slot[k] in rows && slot[k] >= old(next) && rows[slot[k]] == arrivals(k).value
      {
        var k := |planned|;
        planned := planned + [events[k]];
        if arrivals(k).Some? {
          rows := rows[next := arrivals(k).value];
          slot := slot[k := next];
          next := next + 1;
        }
      }
      assert planned == events;
      assert forall i :: i in IdsOf(ids) ==> i < old(next);
      ClearAffectedLedgerRows(ids);
      forall k | 0 <= k < |planned| && arrivals(k).Some? ensures Queued(rows, old(next), arrivals(k).value) {
        assert slot[k] in rows;
      }
    }
  }

  /** An entry appended under an id from `first` on is in the queue. */
  ghost predicate Queued(q: Queue, first: nat, e: Entry) {
    exists i :: i in q && i >= first && q[i] == e
  }

  lemma IdsOfConcat(a: seq<nat>, b: seq<nat>)
    ensures IdsOf(a + b) == IdsOf(a) + IdsOf(b)
  {
    var c := a + b;
    forall x | x in IdsOf(a) + IdsOf(b) ensures x in IdsOf(c) {
      if x in IdsOf(a) { var i :| 0 <= i < |a| && a[i] == x; assert c[i] == x; }
      else { var i :| 0 <= i < |b| && b[i] == x; assert c[|a| + i] == x; }
    }
  }

  method Sorted(s: set<nat>) returns (r: seq<nat>)
    ensures Increasing(r) && IdsOf(r) == s
  {
    r := [];
    var rest := s;
    while rest != {}
      invariant rest <= s && IdsOf(r) == s - rest && Increasing(r)
      invariant forall x, y :: x in IdsOf(r) && y in rest ==> x < y
      decreases |rest|
    {
      var m := Least(rest);
      IdsOfConcat(r, [m]);
      assert IdsOf([m]) == {m} by { assert [m][0] == m; }
      forall k | 0 <= k < |r| ensures r[k] < m { assert r[k] in IdsOf(r); }
      r := r + [m];
      rest := rest - {m};
    }
  }

  method Least(s: set<nat>) returns (m: nat)
    requires s != {}
    ensures IsLeast(m, s)
  {
    m :| m in s;
    var rest := s - {m};
    while rest != {}
      invariant rest <= s && m in s
      invariant forall x :: x in s && x !in rest ==> m <= x
      decreases |rest|
    {
      var x :| x in rest;
      rest := rest - {x};
      if x < m {
        m := x;
      }
    }
  }

  // ---------------------------------------------------------------------------
  // Interleavings
  // ---------------------------------------------------------------------------

  /** A pass between its read and its last delete. */
  datatype Pass =
    | Planning(read: Queue, todo: set<nat>)
    | Clearing(read: Queue, left: set<nat>)

  /** `steps` numbers the steps of the run; `recorded` and `planned` say at which step a row was
      appended and an event was last planned. */
  datatype State = State(
    rows: Queue,
    next: nat,
    passes: map<nat, Pass>,
    steps: nat,
    recorded: map<nat, nat>,
    planned: map<nat, nat>)

  datatype Step =
    | Record(entry: Entry)
    | Read(w: nat, user: nat)
    | Plan(w: nat, event: nat)
    | DonePlanning(w: nat)
    | DeleteChunk(w: nat, chunk: set<nat>)
    | Crash(w: nat)
    | EventDeleted(event: nat)

  ghost predicate Enabled(s: State, x: Step) {
    match x
    case Read(w, _) => w !in s.passes
    case Plan(w, event) => w in s.passes && s.passes[w].Planning? && event in s.passes[w].todo
    case DonePlanning(w) => w in s.passes && s.passes[w].Planning? && s.passes[w].todo == {}
    case DeleteChunk(w, chunk) => w in s.passes && s.passes[w].Clearing? && chunk <= s.passes[w].left && |chunk| <= DELETE_CHUNK
    case _ => true
  }

  function OfUser(q: Queue, user: nat): Queue {
    map i | i in q && q[i].user == user :: q[i]
  }

  ghost function Next(s: State, x: Step): State
    requires Enabled(s, x)
  {
    var t := s.(steps := s.steps + 1);
    match x
    case Record(entry) =>
      t.(rows := s.rows[s.next := entry], next := s.next + 1, recorded := s.recorded[s.next := s.steps])
    case Read(w, user) => t.(passes := s.passes[w := Planning(OfUser(s.rows, user), EventsFor(s.rows, user))])
    case Plan(w, event) =>
      t.(planned := s.planned[event := s.steps],
         passes := s.passes[w := s.passes[w].(todo := s.passes[w].todo - {event})])
    case DonePlanning(w) => t.(passes := s.passes[w := Clearing(s.passes[w].read, s.passes[w].read.Keys)])
    case DeleteChunk(w, chunk) =>
      t.(rows := s.rows - chunk, passes := s.passes[w := s.passes[w].(left := s.passes[w].left - chunk)])
    case Crash(w) => t.(passes := s.passes - {w})
    case EventDeleted(event) => t.(rows := map i | i in s.rows && s.rows[i].event != event :: s.rows[i])
  }

  /** The event of the row was planned in a step later than the row was recorded. */
  ghost predicate PlannedSince(s: State, i: nat, e: nat) {
    i in s.recorded && e in s.planned && s.planned[e] > s.recorded[i]
  }

  ghost predicate PassOk(s: State, p: Pass) {
    && (forall i :: i in p.read ==> i < s.next && (i in s.rows ==> s.rows[i] == p.read[i]))
    && (p.Planning? ==> forall i :: i in p.read ==> p.read[i].event in p.todo || PlannedSince(s, i, p.read[i].event))
    && (p.Clearing? ==> p.left <= p.read.Keys && forall i :: i in p.read ==> PlannedSince(s, i, p.read[i].event))
  }

  ghost predicate Inv(s: State) {
    && (forall i :: i in s.rows ==> i < s.next)
    && (forall i: nat :: i < s.next ==> i in s.recorded && s.recorded[i] < s.steps)
    && (forall e :: e in s.planned ==> s.planned[e] < s.steps)
    && (forall w :: w in s.passes ==> PassOk(s, s.passes[w]))
  }

  lemma StepKeepsPass(s: State, x: Step, p: Pass)
    requires Inv(s) && Enabled(s, x) && PassOk(s, p)
    ensures PassOk(Next(s, x), p)
  {
    var t := Next(s, x);
    forall i | i in p.read && PlannedSince(s, i, p.read[i].event) ensures PlannedSince(t, i, p.read[i].event) {
      if x.Plan? && x.event == p.read[i].event { assert t.planned[x.event] == s.steps > s.recorded[i]; }
    }
  }

  lemma StepKeepsInv(s: State, x: Step)
    requires Inv(s) && Enabled(s, x)
    ensures Inv(Next(s, x))
  {
    var t := Next(s, x);
    forall w | w in t.passes ensures PassOk(t, t.passes[w]) {
      if w in s.passes { StepKeepsPass(s, x, s.passes[w]); }
      if x.Plan? && x.w == w {
        var p := s.passes[w];
        forall i | i in p.read && p.read[i].event == x.event ensures PlannedSince(t, i, x.event) {
          assert i < s.next;
        }
      }
    }
  }

  ghost predicate Valid(s: State, run: seq<Step>)
    decreases |run|
  {
    run == [] || (Enabled(s, run[0]) && Valid(Next(s, run[0]), run[1..]))
  }

  ghost function Run(s: State, run: seq<Step>): State
    requires Valid(s, run)
    decreases |run|
  {
    if run == [] then s else Run(Next(s, run[0]), run[1..])
  }

  ghost predicate Start(s: State) {
    s.rows == map[] && s.next == 0 && s.passes == map[] && s.recorded == map[] && s.planned == map[]
  }

  lemma {:induction false} RunKeepsInv(s: State, run: seq<Step>)
    requires Inv(s) && Valid(s, run)
    ensures Inv(Run(s, run))
    decreases |run|
  {
    if run != [] {
      StepKeepsInv(s, run[0]);
      RunKeepsInv(Next(s, run[0]), run[1..]);
    }
  }

  /** At least once: in every interleaving of appends, passes, chunked deletes and crashes, a queued
      row disappears only after its event was planned in a step later than the row was recorded
      (or with the event itself). */
  lemma RowsLeaveOnlyAfterPlanning(s0: State, run: seq<Step>, x: Step, i: nat)
    requires Start(s0) && Valid(s0, run) && Enabled(Run(s0, run), x)
    requires var s := Run(s0, run);
             i in s.rows && i !in Next(s, x).rows && x != EventDeleted(s.rows[i].event)
    ensures PlannedSince(Run(s0, run), i, Run(s0, run).rows[i].event)
  {
    RunKeepsInv(s0, run);
  }

  /** A crash at any point leaves every unplanned row queued: the next pass reads it again. */
  lemma CrashedPassIsReread(s: State, w: nat, v: nat, i: nat)
    requires Inv(s) && i in s.rows && v !in s.passes
    ensures var t := Next(Next(s, Crash(w)), Read(v, s.rows[i].user));
            i in t.passes[v].read && s.rows[i].event in t.passes[v].todo
  {
  }
}
