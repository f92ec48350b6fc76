/** The outbox table as a value, and the SQL statements that rewrite it
    (app/ledger/outbox.py, app/ledger/schema.py:143-171). */
module OutboxTable {
  import opened Base

  datatype OpKind = Create | Update | Delete | Patch | DeleteSource
  datatype Status = Pending | InFlight | Done | PermanentFailure | Superseded

  /** One row.  The row id is its key in the table; times are integers. */
  datatype Row = Row(
    user: nat,
    proj: nat,
    kind: OpKind,
    version: nat,
    stamp: Option<Want>,
    calendar: nat,
    payload: Option<Content>,
    status: Status,
    attempts: nat,
    due: Option<int>,
    lastError: Option<string>,
    lastHttp: Option<nat>,
    createdAt: int,
    startedAt: Option<int>,
    completedAt: Option<int>)

  type Table = map<nat, Row>

  /** The idempotency key `proj:{projection}:v{version}:{operation}`. */
  datatype Key = Key(proj: nat, version: nat, kind: OpKind)

  function KeyOf(r: Row): Key {
    Key(r.proj, r.version, r.kind)
  }

  /** A row that still owes work: `status in ('pending', 'in_flight')`. */
  predicate Open(r: Row) {
    r.status == Pending || r.status == InFlight
  }

  /** UNIQUE(idempotency_key). */
  ghost predicate UniqueKeys(t: Table) {
    forall i, j :: i in t && j in t && KeyOf(t[i]) == KeyOf(t[j]) ==> i == j
  }

  ghost function Lookup(t: Table, k: Key): (r: Option<nat>)
    ensures r.Some? ==> r.value in t && KeyOf(t[r.value]) == k
    ensures r.None? ==> forall i :: i in t ==> KeyOf(t[i]) != k
  {
    if i :| i in t && KeyOf(t[i]) == k then Some(i) else None
  }

  /** Arguments of one `enqueue` call. */
  datatype Request = Request(
    user: nat,
    proj: nat,
    kind: OpKind,
    version: nat,
    calendar: nat,
    payload: Option<Content>,
    stamp: Option<Want>)

  function RequestKey(q: Request): Key {
    Key(q.proj, q.version, q.kind)
  }

  function NewRow(q: Request, now: int): Row {
    Row(q.user, q.proj, q.kind, q.version, q.stamp, q.calendar, q.payload,
        Pending, 0, Some(now), None, None, now, None, None)
  }

  /** Conflict resurrection: the row keeps its id, user, calendar and creation time. */
  function Revive(r: Row, q: Request, now: int): Row {
    r.(status := Pending, attempts := 0, due := Some(now), lastError := None, lastHttp := None,
       payload := q.payload, startedAt := None, completedAt := None,
       version := q.version, stamp := q.stamp)
  }

  function SupersedeRow(r: Row, k: Key, now: int): Row {
    if r.proj == k.proj && r.status == Pending && KeyOf(r) != k
    then r.(status := Superseded, completedAt := Some(now))
    else r
  }

  /** Supersede every other pending op of the same projection; in-flight ops are left alone. */
  function SupersedeOthers(t: Table, k: Key, now: int): Table {
    map i | i in t :: SupersedeRow(t[i], k, now)
  }

  /** `enqueue` when the next unused row id is `free`; the second component is the id it returns. */
  ghost function EnqueueAt(t: Table, q: Request, now: int, free: nat): (Table, nat)
  {
    match Lookup(t, RequestKey(q))
    case Some(i) =>
      if Open(t[i]) then (t, i)
      else (SupersedeOthers(t, RequestKey(q), now)[i := Revive(t[i], q, now)], i)
    case None =>
      (SupersedeOthers(t, RequestKey(q), now)[free := NewRow(q, now)], free)
  }

  /** SQLite hands out `max(rowid) + 1`. */
  ghost function Enqueue(t: Table, q: Request, now: int): (Table, nat) {
    EnqueueAt(t, q, now, MaxOf(t.Keys) + 1)
  }

  lemma NextIdIsFree(t: Table, q: Request, now: int) returns (free: nat)
    ensures free !in t && Enqueue(t, q, now) == EnqueueAt(t, q, now, free)
  {
    free := MaxOf(t.Keys) + 1;
  }

  /** Between two states of one pass rows are added, not removed, and under ids above all earlier ones.
      Across passes the clean-up job deletes settled rows (app/jobs/cleanup.py:190-197), and since the
      id column has no AUTOINCREMENT, ids and idempotency keys can come back. */
  ghost predicate NewerIds(a: set<nat>, b: set<nat>) {
    a <= b && forall i :: i in b && i !in a ==> i > 0 && forall j :: j in a ==> j < i
  }

  // ---------------------------------------------------------------------------
  // Claiming
  // ---------------------------------------------------------------------------

  predicate IsDue(r: Row, user: nat, now: int) {
    r.user == user && r.status == Pending && (r.due.None? || r.due.value <= now)
  }

  function DueSet(t: Table, user: nat, now: int): set<nat> {
    set i | i in t && IsDue(t[i], user, now)
  }

  function ClaimRow(r: Row, now: int): Row {
    r.(status := InFlight, startedAt := Some(now), attempts := r.attempts + 1)
  }

  const STALE_OP_TIMEOUT: int := 15 * 60

  predicate IsStale(r: Row, now: int) {
    r.status == InFlight && (r.startedAt.None? || r.startedAt.value < now - STALE_OP_TIMEOUT)
  }

  /** `_reclaim_stale_operations` for one user. */
  function ReclaimStale(t: Table, user: nat, now: int): Table {
    map i | i in t :: if t[i].user == user && IsStale(t[i], now) then t[i].(status := Pending) else t[i]
  }

  // ---------------------------------------------------------------------------
  // Outcomes
  // ---------------------------------------------------------------------------

  const BACKOFF_SECONDS: seq<int> := [1, 2, 4, 8, 16, 32, 60]

  /** `attempts` is the count read before the claim bumped it. */
  function Backoff(attempts: nat): (s: int)
    ensures 1 <= s <= 60
  {
    BACKOFF_SECONDS[if attempts < |BACKOFF_SECONDS| - 1 then attempts else |BACKOFF_SECONDS| - 1]
  }

  function DoneRow(r: Row, now: int): Row {
    r.(status := Done, completedAt := Some(now), lastHttp := Some(200))
  }

  function SupersededRow(r: Row, error: string, http: Option<nat>, now: int): Row {
    r.(status := Superseded, completedAt := Some(now), lastError := Some(error), lastHttp := http)
  }

  function RetryRow(r: Row, attempts: nat, error: string, http: Option<nat>, now: int): Row {
    r.(status := Pending, due := Some(now + Backoff(attempts)), lastError := Some(error), lastHttp := http)
  }

  function FailedRow(r: Row, error: string, http: Option<nat>, now: int): Row {
    r.(status := PermanentFailure, completedAt := Some(now), lastError := Some(error), lastHttp := http)
  }

  /** The backoff starts at a second and doubles up to a minute. */
  lemma BackoffDoubles(attempts: nat)
    ensures Backoff(0) == 1
    ensures Backoff(attempts + 1) == if 2 * Backoff(attempts) > 60 then 60 else 2 * Backoff(attempts)
  {
  }

  /** An op stranded in flight comes back exactly when fifteen minutes have passed since its claim. */
  lemma StrandedOpComesBack(t: Table, user: nat, i: nat, now: int)
    requires i in t && t[i].status == InFlight && t[i].user == user && t[i].startedAt.Some?
    requires t[i].due.Some? ==> t[i].due.value <= now
    ensures i in DueSet(ReclaimStale(t, user, now), user, now) <==> now - t[i].startedAt.value > 900
    ensures forall j :: j in t && (t[j].status != InFlight || t[j].user != user) ==> ReclaimStale(t, user, now)[j] == t[j]
  {
  }

  /** Whatever the outbox held, an enqueue that is not already open leaves an op that is due at once, has a
      clean record, and carries what was asked for. */
  lemma EnqueuedOpIsFresh(t: Table, q: Request, now: int, free: nat)
    requires UniqueKeys(t) && free !in t
    requires forall i :: i in t && KeyOf(t[i]) == RequestKey(q) ==> !Open(t[i])
    ensures var (t', id) := EnqueueAt(t, q, now, free);
            && id in t' && t'[id].status == Pending && t'[id].due == Some(now) && t'[id].attempts == 0
            && t'[id].payload == q.payload && t'[id].stamp == q.stamp && KeyOf(t'[id]) == RequestKey(q)
            && t'[id].lastError.None? && t'[id].startedAt.None? && t'[id].completedAt.None?
            && (id !in t ==> t'[id].user == q.user && t'[id].calendar == q.calendar)
  {
  }

  /** A retried op is due exactly from the end of its backoff on, which is longer the more attempts were
      read before the claim, and it is the same job with the attempts the claim counted. */
  lemma RetriedRowIsDueAfterBackoff(r: Row, attempts: nat, error: string, http: Option<nat>, now: int, user: nat, later: int)
    ensures var t := RetryRow(r, attempts, error, http, now);
            && (IsDue(t, user, later) <==> user == r.user && later - now >= Backoff(attempts))
            && KeyOf(t) == KeyOf(r) && t.payload == r.payload && t.stamp == r.stamp && t.attempts == r.attempts
            && ClaimRow(t, later).attempts == r.attempts + 1
    ensures 1 <= Backoff(attempts) <= Backoff(attempts + 1) <= 60
  {
  }

  /** A superseded op is never due again, until an enqueue with its key brings it back under its old id,
      with the new content and a clean slate, and pushes aside whatever else was pending. */
  lemma SupersededRowIsRevived(t: Table, id: nat, gone: Row, error: string, http: nat, now: int, q: Request, later: int, free: nat)
    requires UniqueKeys(t) && free !in t && id in t && KeyOf(t[id]) == RequestKey(q)
    requires gone == SupersededRow(t[id], error, Some(http), now)
    ensures !Open(gone) && forall user, time :: !IsDue(gone, user, time)
    ensures var u := EnqueueAt(t[id := gone], q, later, free);
            && u.1 == id && IsDue(u.0[id], t[id].user, later) && u.0[id].attempts == 0 && u.0[id].lastError.None?
            && u.0[id].payload == q.payload && u.0[id].stamp == q.stamp && u.0[id].createdAt == t[id].createdAt
            && u.0.Keys == t.Keys
            && forall i :: i in t && i != id && t[i].proj == q.proj ==> u.0[i].status != Pending
  {
    var t' := t[id := gone];
    assert Lookup(t', RequestKey(q)) == Some(id) by {
      assert KeyOf(t'[id]) == RequestKey(q);
      assert forall i :: i in t' && KeyOf(t'[i]) == RequestKey(q) ==> i == id;
    }
  }

  // ---------------------------------------------------------------------------
  // Facts about enqueue
  // ---------------------------------------------------------------------------

  /** Enqueue keeps the UNIQUE constraint, and the id it returns holds an open row with the key. */
  lemma EnqueueKeepsKeysUnique(t: Table, q: Request, now: int, free: nat)
    requires UniqueKeys(t) && free !in t
    ensures var (t', id) := EnqueueAt(t, q, now, free);
            && UniqueKeys(t')
            && id in t' && KeyOf(t'[id]) == RequestKey(q) && Open(t'[id])
            && forall j :: j in t' && j != id && t'[j].proj == q.proj && t'[j].status == Pending
                 ==> t' == t
  {
    var (t', id) := EnqueueAt(t, q, now, free);
    forall i | i in t ensures i in t' && KeyOf(t'[i]) == KeyOf(t[i]) {}
    forall i | i in t' && i != free ensures i in t {}
  }

  /** Every row after an enqueue is the request's, or an old row of the same projection and user. */
  lemma EnqueueKeepsOwners(t: Table, q: Request, now: int)
    requires UniqueKeys(t)
    ensures var t' := Enqueue(t, q, now).0;
            forall i :: i in t' ==>
              if i in t then t'[i].proj == t[i].proj && t'[i].user == t[i].user
              else t'[i].proj == q.proj && t'[i].user == q.user
  {
  }

  /** The rows of one projection. */
  function RowsOf(t: Table, proj: nat): Table {
    map i | i in t && t[i].proj == proj :: t[i]
  }

  /** Enqueue is local: restricted to its own projection it is the same enqueue, and the rows
      of every other projection are untouched. */
  lemma EnqueueIsLocal(t: Table, q: Request, now: int, free: nat, proj: nat)
    requires UniqueKeys(t) && free !in t
    ensures proj == q.proj ==>
      RowsOf(EnqueueAt(t, q, now, free).0, proj) == EnqueueAt(RowsOf(t, proj), q, now, free).0
    ensures proj != q.proj ==> RowsOf(EnqueueAt(t, q, now, free).0, proj) == RowsOf(t, proj)
  {
    if proj == q.proj { EnqueueAtHome(t, q, now, free); } else { EnqueueElsewhere(t, q, now, free, proj); }
  }

  lemma LookupIsLocal(t: Table, k: Key)
    requires UniqueKeys(t)
    ensures Lookup(RowsOf(t, k.proj), k) == Lookup(t, k)
  {
    var s := RowsOf(t, k.proj);
    var a, b := Lookup(t, k), Lookup(s, k);
    if a.Some? { assert a.value in s && KeyOf(s[a.value]) == k; }
    if b.Some? { assert b.value in t && KeyOf(t[b.value]) == k; }
  }

  lemma SupersedeIsLocal(t: Table, k: Key, now: int)
    ensures RowsOf(SupersedeOthers(t, k, now), k.proj) == SupersedeOthers(RowsOf(t, k.proj), k, now)
  {
  }

  lemma PutIsLocal(t: Table, i: nat, r: Row)
    requires i in t ==> t[i].proj == r.proj
    ensures RowsOf(t[i := r], r.proj) == RowsOf(t, r.proj)[i := r]
  {
  }

  lemma EnqueueAtHome(t: Table, q: Request, now: int, free: nat)
    requires UniqueKeys(t) && free !in t
    ensures RowsOf(EnqueueAt(t, q, now, free).0, q.proj) == EnqueueAt(RowsOf(t, q.proj), q, now, free).0
  {
    var k := RequestKey(q);
    LookupIsLocal(t, k);
    SupersedeIsLocal(t, k, now);
    match Lookup(t, k)
    case Some(i) => PutIsLocal(SupersedeOthers(t, k, now), i, Revive(t[i], q, now));
    case None => PutIsLocal(SupersedeOthers(t, k, now), free, NewRow(q, now));
  }

  lemma EnqueueElsewhere(t: Table, q: Request, now: int, free: nat, proj: nat)
    requires free !in t && proj != q.proj
    ensures RowsOf(EnqueueAt(t, q, now, free).0, proj) == RowsOf(t, proj)
  {
    var t' := EnqueueAt(t, q, now, free).0;
    forall i | i in RowsOf(t', proj) ensures i in t && t[i] == t'[i] {}
    forall i | i in RowsOf(t, proj) ensures i in t' && t[i] == t'[i] {}
  }
}
