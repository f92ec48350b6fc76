/** Wake-ups: enqueueing, claiming and releasing the reconcile request of one user, one SQL statement
    at a time (app/ledger/triggers.py:134-353, app/ledger/runtime.py:472-567).

    Reads and writes of different callers interleave freely; a caller may die between any two. */
module Wakeup {
  import opened Base

  const STALE_CLAIM_TIMEOUT := 15 * 60

  /** The `reconcile_requests` row. */
  datatype Req = Req(scheduled: Option<int>, inFlight: bool, lastRun: Option<int>)

  // ---------------------------------------------------------------------------
  // The statements
  // ---------------------------------------------------------------------------

  /** The schedule an upsert writes, given the one it read. */
  function Merged(seen: Option<int>, when: int, later: bool): int {
    if seen.Some? && ((later && seen.value > when) || (!later && seen.value < when)) then seen.value else when
  }

  /** A debounced request waits for the later of the two times, a periodic one runs at the earlier. */
  lemma MergedIsLatestOrEarliest(seen: Option<int>, when: int, later: bool)
    ensures var m := Merged(seen, when, later);
            && (m == when || seen == Some(m))
            && (later ==> m >= when && (seen.Some? ==> m >= seen.value))
            && (!later ==> m <= when && (seen.Some? ==> m <= seen.value))
  {
  }

  predicate IsStaleClaim(r: Req, now: int) {
    r.lastRun.None? || r.lastRun.value < now - STALE_CLAIM_TIMEOUT
  }

  /** What the claim's SELECT lets through: due, or idle with an abandoned claim. */
  predicate LooksClaimable(r: Req, now: int) {
    if r.scheduled.None? then r.inFlight && IsStaleClaim(r, now) else r.scheduled.value <= now
  }

  /** The WHERE clause of the claiming UPDATE. */
  predicate CanClaim(r: Req, seen: Req, now: int) {
    (!r.inFlight || IsStaleClaim(r, now)) && r.scheduled == seen.scheduled
  }

  function Claimed(now: int): Req {
    Req(None, true, Some(now))
  }

  function Or(a: Option<int>, b: int): Option<int> {
    if a.Some? then a else Some(b)
  }

  function ReleasedClean(r: Req): Req {
    r.(inFlight := false)
  }

  function ReleasedForRetry(r: Req, at: int): Req {
    r.(inFlight := false, scheduled := Or(r.scheduled, at))
  }

  /** `_reconcile_retry_delay`, in seconds. */
  function RetryDelay(failures: int): (d: int)
    ensures 60 <= d <= 1800
    ensures failures <= 1 ==> d == 60
    ensures failures >= 6 ==> d == 1800
  {
    var exponent := if failures <= 1 then 0 else if failures - 1 > 10 then 10 else failures - 1;
    var d := 60 * Pow2(exponent);
    if d > 1800 then 1800 else d
  }

  function Pow2(n: nat): (p: int)
    ensures p >= 1
    ensures n == 0 ==> p == 1
    ensures n > 0 ==> p == 2 * Pow2(n - 1)
    ensures n >= 5 ==> p >= 32
  {
    if n == 0 then 1 else 2 * Pow2(n - 1)
  }

  /** The delay doubles with every failure in a row until it meets the ceiling. */
  lemma RetryDelayDoubles(failures: int)
    requires failures >= 1
    ensures RetryDelay(failures + 1) == if 2 * RetryDelay(failures) > 1800 then 1800 else 2 * RetryDelay(failures)
  {
    assert failures < 11 ==> Pow2(failures) == 2 * Pow2(failures - 1);
    assert failures >= 6 ==> Pow2(if failures - 1 > 10 then 10 else failures - 1) >= 32;
  }

  // ---------------------------------------------------------------------------
  // The table
  // ---------------------------------------------------------------------------

  /** The row of one user, and the statements that rewrite it. */
  class Requests {
    var row: Option<Req>

    constructor ()
      ensures row == None
    {
      row := None;
    }

    /** The INSERT or UPDATE of `_upsert_request`, after its SELECT returned `seen`.  An INSERT
        that meets a row violates the primary key and raises. */
    method WriteSchedule(seen: Option<Req>, when: int, later: bool) returns (ok: bool)
      requires seen.Some? ==> row.Some?
      modifies this
      ensures ok == (seen.Some? || old(row).None?)
      ensures row == if !ok then old(row)
                     else if seen.None? then Some(Req(Some(when), false, None))
                     else Some(old(row).value.(scheduled := Some(Merged(seen.value.scheduled, when, later))))
      ensures ok && later ==> row.value.scheduled.value >= when
      ensures ok && !later ==> row.value.scheduled.value <= when
      ensures ok && seen.Some? && seen.value.scheduled.Some? ==>
                if later then row.value.scheduled.value >= seen.value.scheduled.value
                else row.value.scheduled.value <= seen.value.scheduled.value
    {
      if seen.None? {
        if row.Some? {
          return false;
        }
        row := Some(Req(Some(when), false, None));
        return true;
      }
      var schedule := when;
      if seen.value.scheduled.Some? {
        var current := seen.value.scheduled.value;
        if !later && current < schedule {
          schedule := current;
        } else if later && current > schedule {
          schedule := current;
        }
      }
      row := Some(row.value.(scheduled := Some(schedule)));
      ok := true;
    }

    /** The conditional UPDATE of `claim_due_request`, after its SELECT returned `seen`. */
    method CompareAndClaim(seen: Req, now: int) returns (won: bool)
      requires row.Some?
      modifies this
      ensures won == CanClaim(old(row).value, seen, now)
      ensures row == if won then Some(Claimed(now)) else old(row)
    {
      var r := row.value;
      won := (!r.inFlight || r.lastRun.None? || r.lastRun.value < now - STALE_CLAIM_TIMEOUT) && r.scheduled == seen.scheduled;
      if won {
        row := Some(Req(None, true, Some(now)));
      }
    }

    /** `release_request`; an UPDATE of a missing row does nothing. */
    method Release(retryAt: Option<int>)
      modifies this
      ensures row == if old(row).None? then None
                     else if retryAt.None? then Some(ReleasedClean(old(row).value))
                     else Some(ReleasedForRetry(old(row).value, retryAt.value))
    {
      if row.None? {
        return;
      }
      var r := row.value;
      if retryAt.Some? && r.scheduled.None? {
        r := r.(scheduled := retryAt);
      }
      row := Some(r.(inFlight := false));
    }

    /** `reclaim_stale_requests`; with `everything`, the startup reclaim. */
    method Reclaim(now: int, everything: bool) returns (n: nat)
      modifies this
      ensures n == 1 <==> old(row).Some? && old(row).value.inFlight && (everything || IsStaleClaim(old(row).value, now))
      ensures row == if n == 1 then Some(ReleasedForRetry(old(row).value, now)) else old(row)
    {
      if row.None? || !row.value.inFlight || !(everything || IsStaleClaim(row.value, now)) {
        return 0;
      }
      row := Some(row.value.(inFlight := false, scheduled := Or(row.value.scheduled, now)));
      n := 1;
    }
  }

  // ---------------------------------------------------------------------------
  // One tick of the scheduler
  // ---------------------------------------------------------------------------

  predicate IsDueRow(row: Option<Req>, now: int) {
    row.Some? && !row.value.inFlight && row.value.scheduled.Some? && row.value.scheduled.value <= now
  }

  /** The tick serves exactly the unclaimed rows with a schedule that a claim would find due. */
  lemma DueRowsAreClaimable(row: Option<Req>, now: int)
    ensures IsDueRow(row, now) <==>
            row.Some? && !row.value.inFlight && row.value.scheduled.Some? && LooksClaimable(row.value, now)
    ensures IsDueRow(row, now) ==> CanClaim(row.value, row.value, now)
  {
  }

  function SweptRow(row: Option<Req>, now: int): Option<Req> {
    if row.Some? && row.value.inFlight && IsStaleClaim(row.value, now) then Some(ReleasedForRetry(row.value, now)) else row
  }

  function CountOf(failures: map<nat, nat>, user: nat): nat {
    if user in failures then failures[user] else 0
  }

  /** What a tick makes of one user's row and failure count.  A clean pass leaves the row idle and
      forgets the streak; a failed one is rescheduled under the escalating backoff. */
  predicate Ticked(row: Option<Req>, next: Option<Req>, count: nat, newCount: nat, failed: bool, now: int) {
    if !IsDueRow(row, now) then next == row && newCount == count
    else if failed then
      newCount == count + 1 && next == Some(Req(Some(now + RetryDelay(newCount)), false, Some(now)))
    else newCount == 0 && next == Some(Req(None, false, Some(now)))
  }

  /** Every failure in a row waits longer, and a success ends the row: the next failure is retried after a
      minute again. */
  lemma StreaksEndWithSuccess(a: Option<Req>, b: Option<Req>, c: Option<Req>, d: Option<Req>, n: nat, n': nat, n'': nat,
                              failed: bool, now: int, later: int)
    requires IsDueRow(a, now) && Ticked(a, b, n, n', failed, now)
    requires IsDueRow(c, later) && Ticked(c, d, n', n'', true, later)
    ensures d.Some? && !d.value.inFlight && d.value.scheduled == Some(later + if failed then RetryDelay(n + 2) else 60)
  {
  }

  /** After a clean pass the row is idle: no tick serves it until it is scheduled again. */
  lemma CleanPassLeavesIdle(a: Option<Req>, b: Option<Req>, n: nat, n': nat, now: int, later: int)
    requires IsDueRow(a, now) && Ticked(a, b, n, n', false, now)
    ensures !IsDueRow(b, later) && b.Some? && !b.value.inFlight && b.value.scheduled.None?
  {
  }

  /** Claim, reconcile and release one due user. */
  method ServeUser(requests: Requests, count: nat, failed: bool, now: int) returns (newCount: nat)
    requires IsDueRow(requests.row, now)
    modifies requests
    ensures Ticked(old(requests.row), requests.row, count, newCount, failed, now)
  {
    var won := requests.CompareAndClaim(requests.row.value, now);
    if failed {
      newCount := count + 1;
      requests.Release(Some(now + RetryDelay(newCount)));
    } else {
      newCount := 0;
      requests.Release(None);
    }
  }

  ghost function RowsIn(table: map<nat, Requests>): map<nat, Option<Req>>
    reads table.Values
  {
    map u | u in table :: table[u].row
  }

  ghost predicate AllTicked(rows: map<nat, Option<Req>>, next: map<nat, Option<Req>>, failures: map<nat, nat>, counts: map<nat, nat>,
                            fails: nat -> bool, now: int, rest: set<nat>) {
    && next.Keys == rows.Keys && rest <= rows.Keys
    && (forall u :: u in rest ==> next[u] == rows[u] && CountOf(counts, u) == CountOf(failures, u) && IsDueRow(rows[u], now))
    && (forall u :: u in rows && u !in rest ==>
          Ticked(rows[u], next[u], CountOf(failures, u), CountOf(counts, u), fails(u), now))
  }

  /** `reclaim_stale_requests` over all users. */
  method SweepAll(table: map<nat, Requests>, now: int)
    requires forall u, v :: u in table && v in table && table[u] == table[v] ==> u == v
    modifies table.Values
    ensures forall u :: u in table ==> table[u].row == SweptRow(old(table[u].row), now)
  {
    forall u | u in table {
      table[u].row := SweptRow(table[u].row, now);
    }
  }

  /** Serve one more due user. */
  method ServeNext(table: map<nat, Requests>, ghost rows: map<nat, Option<Req>>, failures: map<nat, nat>, counts: map<nat, nat>,
                   fails: nat -> bool, now: int, u: nat, ghost rest: set<nat>)
    returns (counts': map<nat, nat>)
    requires forall u, v :: u in table && v in table && table[u] == table[v] ==> u == v
    requires u in rest && u in table && AllTicked(rows, RowsIn(table), failures, counts, fails, now, rest)
    modifies table[u]
    ensures AllTicked(rows, RowsIn(table), failures, counts', fails, now, rest - {u})
  {
    ghost var next := RowsIn(table);
    assert table[u].row == next[u];
    var count := ServeUser(table[u], CountOf(counts, u), fails(u), now);
    counts' := counts[u := count];
    ghost var after := RowsIn(table);
    assert after == next[u := after[u]];
    OneMoreTicked(rows, next, after[u], failures, counts, count, fails, now, u, rest);
  }

  lemma OneMoreTicked(rows: map<nat, Option<Req>>, next: map<nat, Option<Req>>, row: Option<Req>, failures: map<nat, nat>,
                      counts: map<nat, nat>, count: nat, fails: nat -> bool, now: int, u: nat, rest: set<nat>)
    requires u in rest && u in next && AllTicked(rows, next, failures, counts, fails, now, rest)
    requires Ticked(next[u], row, CountOf(counts, u), count, fails(u), now)
    ensures AllTicked(rows, next[u := row], failures, counts[u := count], fails, now, rest - {u})
  {
  }

  /** `drain_all_due_users` with nobody else about: sweep, then serve every due user.  `fails` says
      whose reconcile raises. */
  method DrainAllDueUsers(table: map<nat, Requests>, failures: map<nat, nat>, fails: nat -> bool, now: int)
    returns (counts: map<nat, nat>)
    requires forall u, v :: u in table && v in table && table[u] == table[v] ==> u == v
    modifies table.Values
    ensures forall u :: u in table ==>
      Ticked(SweptRow(old(table[u].row), now), table[u].row, CountOf(failures, u), CountOf(counts, u), fails(u), now)
  {
    counts := failures;
    SweepAll(table, now);
    var rest := set u | u in table && IsDueRow(table[u].row, now);
    ghost var rows := RowsIn(table);
    while rest != {}
      invariant rest <= table.Keys && AllTicked(rows, RowsIn(table), failures, counts, fails, now, rest)
      decreases |rest|
    {
      var u :| u in rest;
      counts := ServeNext(table, rows, failures, counts, fails, now, u, rest);
      rest := rest - {u};
    }
    ghost var next := RowsIn(table);
    assert forall u :: u in table ==> rows[u] == SweptRow(old(table[u].row), now) && next[u] == table[u].row;
  }

  // ---------------------------------------------------------------------------
  // Interleavings
  // ---------------------------------------------------------------------------

  /** A caller of `claim_due_request`: it has looked, or it holds the claim and owes the enqueues
      made before it (a pass serves whatever was enqueued before it began).  `since` is the time the
      claim recorded. */
  datatype Claimant = Looking(seen: Req, now: int) | Holding(since: int, work: set<nat>)

  /** An upsert between its SELECT and its write. */
  datatype Upsert = Upsert(seen: Option<Req>, when: int, later: bool)

  /** Enqueues are named by numbers: `waiting` are not claimed yet, `stranded` were claimed by a run
      that died, `done` were served by a run that ended cleanly. */
  datatype State = State(
    row: Option<Req>,
    clock: int,
    upserts: map<nat, Upsert>,
    claimants: map<nat, Claimant>,
    waiting: set<nat>,
    stranded: set<nat>,
    done: set<nat>)

  datatype Step =
    | Wait(clock: int)
    | StartEnqueue(e: nat, when: int, later: bool)
    | FinishEnqueue(e: nat)
    | Look(h: nat, now: int)
    | Claim(h: nat)
    | Finish(h: nat)
    | Fail(h: nat, retryAt: int)
    | Die(h: nat)
    | Sweep(now: int)
    | Restart(now: int)

  predicate Used(s: State, e: nat) {
    e in s.upserts || e in s.waiting || e in s.stranded || e in s.done
    || exists h :: h in s.claimants && s.claimants[h].Holding? && e in s.claimants[h].work
  }

  ghost predicate Enabled(s: State, x: Step) {
    match x
    case Wait(clock) => clock >= s.clock
    case StartEnqueue(e, _, _) => !Used(s, e)
    case FinishEnqueue(e) => e in s.upserts
    case Look(h, now) => h !in s.claimants && s.row.Some? && now <= s.clock && LooksClaimable(s.row.value, now)
    case Claim(h) => h in s.claimants && s.claimants[h].Looking?
    case Finish(h) => h in s.claimants && s.claimants[h].Holding?
    case Fail(h, _) => h in s.claimants && s.claimants[h].Holding?
    case Die(h) => h in s.claimants
    case Sweep(now) => now <= s.clock
    case Restart(_) => true
  }

  function WorkOf(s: State): set<nat> {
    set h, e | h in s.claimants && s.claimants[h].Holding? && e in s.claimants[h].work :: e
  }

  /** The enqueues some claim has still to serve. */
  function Owed(s: State): set<nat> {
    s.waiting + s.stranded + WorkOf(s)
  }

  /** The sweep puts abandoned work back in the queue, and with it that of a holder it wrongly takes
      for dead. */
  function Swept(s: State, now: int, everything: bool): State {
    if s.row.Some? && s.row.value.inFlight && (everything || IsStaleClaim(s.row.value, now))
    then s.(row := Some(ReleasedForRetry(s.row.value, now)), waiting := Owed(s), stranded := {})
    else s
  }

  ghost function Next(s: State, x: Step): State
    requires Enabled(s, x)
  {
    match x
    case Wait(clock) => s.(clock := clock)
    case StartEnqueue(e, when, later) => s.(upserts := s.upserts[e := Upsert(s.row, when, later)])
    case FinishEnqueue(e) =>
      var u := s.upserts[e];
      var t := s.(upserts := s.upserts - {e});
      if u.seen.None? then
        if s.row.Some? then t
        else t.(row := Some(Req(Some(u.when), false, None)), waiting := s.waiting + {e})
      else if s.row.None? then t
      else t.(row := Some(s.row.value.(scheduled := Some(Merged(u.seen.value.scheduled, u.when, u.later)))),
              waiting := s.waiting + {e})
    case Look(h, now) => s.(claimants := s.claimants[h := Looking(s.row.value, now)])
    case Claim(h) =>
      var c := s.claimants[h];
      if s.row.Some? && CanClaim(s.row.value, c.seen, c.now)
      then s.(row := Some(Claimed(c.now)), waiting := {}, stranded := {},
              claimants := s.claimants[h := Holding(c.now, Owed(s))])
      else s.(claimants := s.claimants - {h})
    case Finish(h) =>
      s.(row := if s.row.Some? then Some(ReleasedClean(s.row.value)) else None,
         claimants := s.claimants - {h}, done := s.done + s.claimants[h].work)
    case Fail(h, retryAt) =>
      s.(row := if s.row.Some? then Some(ReleasedForRetry(s.row.value, retryAt)) else None,
         claimants := s.claimants - {h}, waiting := s.waiting + s.claimants[h].work)
    case Die(h) =>
      s.(claimants := s.claimants - {h},
         stranded := s.stranded + if s.claimants[h].Holding? then s.claimants[h].work else {})
    case Sweep(now) => Swept(s, now, false)
    case Restart(now) =>
      Swept(s.(claimants := map[], upserts := map[], stranded := s.stranded + WorkOf(s)), now, true)
  }

  /** No live holder outlives the stale timeout, counted from the time its claim recorded. */
  ghost predicate Timely(s: State) {
    forall h :: h in s.claimants && s.claimants[h].Holding? ==> s.clock <= s.claimants[h].since + STALE_CLAIM_TIMEOUT
  }

  ghost predicate Start(s: State) {
    s.row.None? && s.upserts == map[] && s.claimants == map[] && s.waiting == {} && s.stranded == {} && s.done == {}
  }

  ghost predicate Inv(s: State) {
    && (s.waiting != {} ==> s.row.Some? && s.row.value.scheduled.Some?)
    && (s.stranded != {} ==> s.row.Some? && s.row.value.inFlight)
    && (forall h :: h in s.claimants && s.claimants[h].Holding? ==>
          s.row.Some? && s.row.value.inFlight && s.row.value.lastRun == Some(s.claimants[h].since) && s.stranded == {})
    && (forall g, h :: g in s.claimants && h in s.claimants && s.claimants[g].Holding? && s.claimants[h].Holding? ==> g == h)
    && (forall h :: h in s.claimants && s.claimants[h].Looking? ==> s.claimants[h].now <= s.clock)
    && (forall e :: e in s.upserts && s.upserts[e].seen.Some? ==> s.row.Some?)
  }

  /** One claimant, no lost wake-up: every statement of every caller keeps this. */
  lemma StepKeepsInv(s: State, x: Step)
    requires Inv(s) && Timely(s) && Enabled(s, x)
    ensures Inv(Next(s, x))
  {
  }

  // ---------------------------------------------------------------------------
  // Whole runs
  // ---------------------------------------------------------------------------

  ghost predicate Valid(s: State, run: seq<Step>)
    decreases |run|
  {
    run == [] || (Enabled(s, run[0]) && Valid(Next(s, run[0]), run[1..]))
  }

  ghost function Run(s: State, run: seq<Step>): State
    requires Valid(s, run)
    decreases |run|
  {
    if run == [] then s else Run(Next(s, run[0]), run[1..])
  }

  ghost predicate AlwaysTimely(s: State, run: seq<Step>)
    requires Valid(s, run)
    decreases |run|
  {
    Timely(s) && (run == [] || AlwaysTimely(Next(s, run[0]), run[1..]))
  }

  /** The enqueues the run accepted: those whose write went through. */
  ghost function Accepted(s: State, run: seq<Step>): set<nat>
    requires Valid(s, run)
    decreases |run|
  {
    if run == [] then {}
    else
      var t := Next(s, run[0]);
      (if run[0].FinishEnqueue? then t.waiting - s.waiting else {}) + Accepted(t, run[1..])
  }

  /** Even if holders outlive the timeout, an enqueue that no claim has consumed is in the schedule. */
  ghost predicate Visible(s: State) {
    && (s.waiting != {} ==> s.row.Some? && s.row.value.scheduled.Some?)
    && (s.stranded != {} || s.claimants != map[] || (exists e :: e in s.upserts && s.upserts[e].seen.Some?) ==> s.row.Some?)
  }

  lemma {:induction false} RunKeepsVisible(s: State, run: seq<Step>)
    requires Visible(s) && Valid(s, run)
    ensures Visible(Run(s, run))
    decreases |run|
  {
    if run != [] {
      RunKeepsVisible(Next(s, run[0]), run[1..]);
    }
  }

  /** An enqueue leaves the schedule only by a claim made after it, which then holds it. */
  lemma VisibleUntilClaimed(s: State, x: Step, e: nat)
    requires Enabled(s, x) && e in s.waiting && e !in Next(s, x).waiting
    ensures x.Claim? && x.h in Next(s, x).claimants && Next(s, x).claimants[x.h].Holding? && e in Next(s, x).claimants[x.h].work
  {
  }

  /** A claim is discharged only by its holder's clean release. */
  lemma OnlyCleanReleaseDischarges(s: State, x: Step, e: nat)
    requires Enabled(s, x) && e !in s.done && e in Next(s, x).done
    ensures x.Finish? && e in s.claimants[x.h].work
  {
  }

  lemma StepKeepsDebt(s: State, x: Step, e: nat)
    requires Enabled(s, x) && (e in Owed(s) || e in s.done)
    ensures e in Owed(Next(s, x)) || e in Next(s, x).done
  {
    var t := Next(s, x);
    if e in WorkOf(s) {
      var h :| h in s.claimants && s.claimants[h].Holding? && e in s.claimants[h].work;
      if h in t.claimants { assert t.claimants[h] == s.claimants[h]; }
    } else if x.Claim? && e in Owed(s) && e !in t.waiting + t.stranded {
      assert t.claimants[x.h].Holding? && e in t.claimants[x.h].work;
    }
  }

  lemma {:induction false} RunKeepsDebt(s: State, run: seq<Step>, e: nat)
    requires Valid(s, run) && (e in Owed(s) || e in s.done || e in Accepted(s, run))
    ensures e in Owed(Run(s, run)) || e in Run(s, run).done
    decreases |run|
  {
    if run != [] {
      if e in Owed(s) || e in s.done { StepKeepsDebt(s, run[0], e); }
      RunKeepsDebt(Next(s, run[0]), run[1..], e);
    }
  }

  lemma {:induction false} RunKeepsInv(s: State, run: seq<Step>)
    requires Inv(s) && Valid(s, run) && AlwaysTimely(s, run)
    ensures Inv(Run(s, run))
    decreases |run|
  {
    if run != [] {
      StepKeepsInv(s, run[0]);
      RunKeepsInv(Next(s, run[0]), run[1..]);
    }
  }

  /** Under every interleaving of reads, writes, claims, releases, failures, deaths, sweeps and
      restarts in which no holder outlives the timeout: at most one claim is held, and every
      accepted enqueue was served, or is visible in the schedule, or is held by the live claim, or
      was stranded by a dead one the sweep will find. */
  lemma NoWakeupIsLost(s0: State, run: seq<Step>, e: nat)
    requires Start(s0) && Valid(s0, run) && AlwaysTimely(s0, run) && e in Accepted(s0, run)
    ensures var s := Run(s0, run);
            && (forall g, h :: g in s.claimants && h in s.claimants && s.claimants[g].Holding? && s.claimants[h].Holding? ==> g == h)
            && (|| e in s.done
                || (e in s.waiting && s.row.Some? && s.row.value.scheduled.Some?)
                || (exists h :: h in s.claimants && s.claimants[h].Holding? && e in s.claimants[h].work)
                || (e in s.stranded && s.row.Some? && s.row.value.inFlight &&
                    forall h :: h in s.claimants ==> s.claimants[h].Looking?))
  {
    RunKeepsInv(s0, run);
    RunKeepsDebt(s0, run, e);
  }

  /** Once the timeout has passed, the sweep makes stranded work visible again. */
  lemma SweepRestoresStrandedWork(s: State, now: int, e: nat)
    requires Inv(s) && e in s.stranded && now <= s.clock
    requires s.row.value.lastRun.Some? ==> s.row.value.lastRun.value < now - STALE_CLAIM_TIMEOUT
    ensures var t := Next(s, Sweep(now));
            e in t.waiting && t.row.Some? && t.row.value.scheduled.Some? && !t.row.value.inFlight
  {
  }

  /** Visible work that is due goes to the next undisturbed claim. */
  lemma DueWorkIsClaimed(s: State, h: nat, now: int, e: nat)
    requires Inv(s) && e in s.waiting && !s.row.value.inFlight && h !in s.claimants
    requires s.row.value.scheduled.value <= now <= s.clock
    ensures Enabled(s, Look(h, now))
    ensures var t := Next(Next(s, Look(h, now)), Claim(h));
            h in t.claimants && t.claimants[h].Holding? && e in t.claimants[h].work && t.waiting == {}
  {
  }

  // ---------------------------------------------------------------------------
  // When a request becomes due
  // ---------------------------------------------------------------------------

  function ScheduleOf(s: State): Option<int> {
    if s.row.Some? then s.row.value.scheduled else None
  }

  /** The step is a claim that wins. */
  predicate Claims(s: State, x: Step) {
    x.Claim? && x.h in s.claimants && s.claimants[x.h].Looking?
    && s.row.Some? && CanClaim(s.row.value, s.claimants[x.h].seen, s.claimants[x.h].now)
  }

  /** The step writes a schedule over an existing row. */
  predicate Rewrites(s: State, x: Step) {
    x.FinishEnqueue? && x.e in s.upserts && s.upserts[x.e].seen.Some? && s.row.Some?
  }

  /** Exactly when a step moves a schedule to a later time, or off the row: a claim that wins, a debounced
      write that asks for or has read a later time, and a periodic write that asks for a later time
      without having read the earlier one. */
  lemma ScheduleMovesLaterExactly(s: State, x: Step)
    requires Enabled(s, x) && ScheduleOf(s).Some?
    ensures ScheduleOf(Next(s, x)).None? || ScheduleOf(Next(s, x)).value > ScheduleOf(s).value <==>
            Claims(s, x) ||
            (Rewrites(s, x) &&
             var u, t := s.upserts[x.e], ScheduleOf(s).value;
             var seen := u.seen.value.scheduled;
             if u.later then u.when > t || (seen.Some? && seen.value > t) else u.when > t && (seen.None? || seen.value > t))
  {
  }

  /** Exactly when a step moves a schedule to an earlier time. */
  lemma ScheduleMovesEarlierExactly(s: State, x: Step)
    requires Enabled(s, x) && ScheduleOf(s).Some?
    ensures ScheduleOf(Next(s, x)).Some? && ScheduleOf(Next(s, x)).value < ScheduleOf(s).value <==>
            (Rewrites(s, x) &&
             var u, t := s.upserts[x.e], ScheduleOf(s).value;
             var seen := u.seen.value.scheduled;
             if u.later then u.when < t && (seen.None? || seen.value < t) else u.when < t || (seen.Some? && seen.value < t))
  {
  }

  /** Every write of the run is of the given kind and had read the schedule it replaces; nobody claims. */
  ghost predicate Undisturbed(s: State, run: seq<Step>, later: bool)
    requires Valid(s, run)
    decreases |run|
  {
    run == [] ||
    (&& !Claims(s, run[0])
     && (Rewrites(s, run[0]) ==>
           s.upserts[run[0].e].later == later && s.upserts[run[0].e].seen.value.scheduled == ScheduleOf(s))
     && Undisturbed(Next(s, run[0]), run[1..], later))
  }

  /** Periodic requests never postpone: what is due at a time stays due at that time until it is claimed. */
  lemma {:induction false} PeriodicNeverPostpones(s: State, run: seq<Step>)
    requires ScheduleOf(s).Some? && Valid(s, run) && Undisturbed(s, run, false)
    ensures ScheduleOf(Run(s, run)).Some? && ScheduleOf(Run(s, run)).value <= ScheduleOf(s).value
    decreases |run|
  {
    if run != [] {
      ScheduleMovesLaterExactly(s, run[0]);
      PeriodicNeverPostpones(Next(s, run[0]), run[1..]);
    }
  }

  /** Debounced requests never hasten each other. */
  lemma {:induction false} DebouncedNeverHastens(s: State, run: seq<Step>)
    requires ScheduleOf(s).Some? && Valid(s, run) && Undisturbed(s, run, true)
    ensures ScheduleOf(Run(s, run)).Some? && ScheduleOf(Run(s, run)).value >= ScheduleOf(s).value
    decreases |run|
  {
    if run != [] {
      ScheduleMovesLaterExactly(s, run[0]);
      ScheduleMovesEarlierExactly(s, run[0]);
      DebouncedNeverHastens(Next(s, run[0]), run[1..]);
    }
  }

  /** Whoever looked and went on had seen a row that was due, or idle. */
  ghost predicate LookedDue(s: State) {
    forall h :: h in s.claimants && s.claimants[h].Looking? && s.claimants[h].seen.scheduled.Some? ==>
      s.claimants[h].seen.scheduled.value <= s.claimants[h].now
  }

  lemma {:induction false} RunKeepsLookedDue(s: State, run: seq<Step>)
    requires LookedDue(s) && Valid(s, run)
    ensures LookedDue(Run(s, run))
    decreases |run|
  {
    if run != [] {
      RunKeepsLookedDue(Next(s, run[0]), run[1..]);
    }
  }

  /** A claim takes no schedule before its time. */
  lemma NoClaimBeforeItsTime(s0: State, run: seq<Step>, x: Step)
    requires Start(s0) && Valid(s0, run) && Claims(Run(s0, run), x) && ScheduleOf(Run(s0, run)).Some?
    ensures ScheduleOf(Run(s0, run)).value <= Run(s0, run).claimants[x.h].now
  {
    RunKeepsLookedDue(s0, run);
  }

  /** Until a periodic request or a claim intervenes, an accepted debounced request is not served before
      the time it asked for, however many more of its kind arrive. */
  lemma DebounceHolds(s0: State, run: seq<Step>, e: nat, more: seq<Step>, x: Step)
    requires Start(s0) && Valid(s0, run) && Enabled(Run(s0, run), FinishEnqueue(e))
    requires var s := Run(s0, run); s.upserts[e].later && (s.upserts[e].seen.None? <==> s.row.None?)
    requires var t := Next(Run(s0, run), FinishEnqueue(e));
             Valid(t, more) && Undisturbed(t, more, true) && Claims(Run(t, more), x)
    ensures var s := Run(s0, run);
            s.upserts[e].when <= Run(Next(s, FinishEnqueue(e)), more).claimants[x.h].now
  {
    var s := Run(s0, run);
    var t := Next(s, FinishEnqueue(e));
    assert ScheduleOf(t).value >= s.upserts[e].when;
    DebouncedNeverHastens(t, more);
    RunKeepsLookedDue(s0, run);
    RunKeepsLookedDue(t, more);
  }

  // ---------------------------------------------------------------------------
  // Without the timeout: exactly what loses a wake-up
  // ---------------------------------------------------------------------------

  function Debt(s: State): set<nat> {
    Owed(s) - s.done
  }

  /** Whatever is owed will be found: it is scheduled, or a claim stands that ends or goes stale. */
  predicate Recoverable(s: State) {
    Debt(s) != {} ==> s.row.Some? && (s.row.value.inFlight || s.row.value.scheduled.Some?)
  }

  /** A clean release while nothing is scheduled, by a holder that has not served all that is owed. */
  predicate LosesWakeups(s: State, x: Step) {
    x.Finish? && x.h in s.claimants && s.claimants[x.h].Holding?
    && s.row.Some? && s.row.value.scheduled.None? && !(Debt(s) <= s.claimants[x.h].work)
  }

  lemma FinishPaysItsWork(s: State, h: nat)
    requires Enabled(s, Finish(h))
    ensures Debt(Next(s, Finish(h))) == Debt(s) - s.claimants[h].work
  {
    var t := Next(s, Finish(h));
    forall e ensures e in Debt(t) <==> e in Debt(s) - s.claimants[h].work {
      if e in WorkOf(s) && e !in s.claimants[h].work {
        var g :| g in s.claimants && s.claimants[g].Holding? && e in s.claimants[g].work;
        assert t.claimants[g] == s.claimants[g];
        assert e in WorkOf(t);
      }
      if e in WorkOf(t) {
        var g :| g in t.claimants && t.claimants[g].Holding? && e in t.claimants[g].work;
        assert s.claimants[g] == t.claimants[g];
        assert e in WorkOf(s);
      }
    }
  }

  lemma NothingLeft(a: set<nat>, b: set<nat>)
    ensures a - b == {} <==> a <= b
  {
    if a - b == {} {
      forall e | e in a ensures e in b {
        assert e !in a - b;
      }
    }
  }

  /** Any other statement that leaves the row idle leaves the debt as it is. */
  lemma IdleStepsAddNoDebt(s: State, x: Step)
    requires Enabled(s, x) && !x.Finish?
    requires var r := Next(s, x).row; r.None? || (!r.value.inFlight && r.value.scheduled.None?)
    ensures Debt(Next(s, x)) <= Debt(s)
    ensures var r := s.row; r.None? || (!r.value.inFlight && r.value.scheduled.None?)
  {
    var t := Next(s, x);
    forall e | e in Debt(t) ensures e in Debt(s) {
      if e in WorkOf(t) {
        var g :| g in t.claimants && t.claimants[g].Holding? && e in t.claimants[g].work;
        assert s.claimants[g] == t.claimants[g];
      }
    }
  }

  /** Of all statements of all callers, under any interleaving, exactly such a release loses a wake-up. */
  lemma StepLosesExactly(s: State, x: Step)
    requires Recoverable(s) && Enabled(s, x)
    ensures Recoverable(Next(s, x)) <==> !LosesWakeups(s, x)
  {
    if x.Finish? {
      FinishPaysItsWork(s, x.h);
      NothingLeft(Debt(s), s.claimants[x.h].work);
    } else {
      var r := Next(s, x).row;
      if r.None? || (!r.value.inFlight && r.value.scheduled.None?) { IdleStepsAddNoDebt(s, x); }
    }
  }

  ghost predicate LosslessRun(s: State, run: seq<Step>)
    requires Valid(s, run)
    decreases |run|
  {
    run == [] || (!LosesWakeups(s, run[0]) && LosslessRun(Next(s, run[0]), run[1..]))
  }

  lemma {:induction false} RunKeepsRecoverable(s: State, run: seq<Step>)
    requires Recoverable(s) && Valid(s, run) && LosslessRun(s, run)
    ensures Recoverable(Run(s, run))
    decreases |run|
  {
    if run != [] {
      StepLosesExactly(s, run[0]);
      RunKeepsRecoverable(Next(s, run[0]), run[1..]);
    }
  }

  /** However long holders run: without such a release every accepted enqueue is served, or the row is
      scheduled, or a claim stands. */
  lemma NoWakeupIsLostWithoutThatRelease(s0: State, run: seq<Step>, e: nat)
    requires Start(s0) && Valid(s0, run) && LosslessRun(s0, run) && e in Accepted(s0, run)
    ensures var s := Run(s0, run);
            e in s.done || (s.row.Some? && (s.row.value.inFlight || s.row.value.scheduled.Some?))
  {
    assert WorkOf(s0) == {};
    RunKeepsRecoverable(s0, run);
    RunKeepsDebt(s0, run, e);
  }

  /** What the code could check to rule it out: a clean release is made only by the holder whose claim
      time is the row's, and claim times grow. */
  ghost predicate Orderly(s: State, x: Step)
    requires Enabled(s, x)
  {
    match x
    case Finish(h) => s.row.Some? && s.row.value.lastRun == Some(s.claimants[h].since)
    case Claim(h) =>
      s.row.Some? && CanClaim(s.row.value, s.claimants[h].seen, s.claimants[h].now) ==>
        s.row.value.lastRun.None? || s.row.value.lastRun.value < s.claimants[h].now
    case _ => true
  }

  ghost predicate OrderlyRun(s: State, run: seq<Step>)
    requires Valid(s, run)
    decreases |run|
  {
    run == [] || (Orderly(s, run[0]) && OrderlyRun(Next(s, run[0]), run[1..]))
  }

  /** The claim the row records. */
  ghost predicate Current(s: State, h: nat) {
    h in s.claimants && s.claimants[h].Holding? && s.row.Some? && s.row.value.lastRun == Some(s.claimants[h].since)
  }

  /** The holder whose claim the row records, if it lives, holds everything enqueued before it. */
  ghost predicate LatestHoldsAll(s: State) {
    && (s.waiting != {} ==> s.row.Some? && s.row.value.scheduled.Some?)
    && (forall h :: h in s.claimants && s.claimants[h].Holding? ==>
          s.row.Some? && s.row.value.lastRun.Some? && s.claimants[h].since <= s.row.value.lastRun.value)
    && (forall g, h :: Current(s, g) && Current(s, h) ==> g == h)
    && (forall h :: Current(s, h) ==> Debt(s) <= s.claimants[h].work + s.waiting)
  }

  lemma ClaimKeepsLatest(s: State, h: nat)
    requires LatestHoldsAll(s) && Enabled(s, Claim(h)) && Orderly(s, Claim(h))
    ensures LatestHoldsAll(Next(s, Claim(h)))
  {
    var t := Next(s, Claim(h));
    forall e | e in Debt(t) ensures e in Owed(s) {
      if e in WorkOf(t) {
        var g :| g in t.claimants && t.claimants[g].Holding? && e in t.claimants[g].work;
        if g != h { assert s.claimants[g] == t.claimants[g]; }
      }
    }
    if s.row.Some? && CanClaim(s.row.value, s.claimants[h].seen, s.claimants[h].now) {
      forall g | Current(t, g) ensures g == h {}
    } else {
      assert t.row == s.row && t.waiting == s.waiting;
      forall g | Current(t, g) ensures Current(s, g) {}
      LooserDebt(s, t);
    }
  }

  /** With the same row and no less waiting, debt that only shrinks or waits keeps the fact. */
  lemma LooserDebt(s: State, t: State)
    requires LatestHoldsAll(s) && (forall g :: Current(t, g) ==> Current(s, g) && t.claimants[g] == s.claimants[g])
    requires s.waiting <= t.waiting && Debt(t) <= Debt(s) + t.waiting
    ensures forall g :: Current(t, g) ==> Debt(t) <= t.claimants[g].work + t.waiting
  {
  }

  lemma DebtOnlyMoves(s: State, x: Step)
    requires Enabled(s, x) && !x.Claim?
    ensures var t := Next(s, x); s.waiting <= t.waiting && Debt(t) <= Debt(s) + t.waiting
  {
    var t := Next(s, x);
    forall e | e in Debt(t) ensures e in Debt(s) + t.waiting {
      if e in WorkOf(t) {
        var g :| g in t.claimants && t.claimants[g].Holding? && e in t.claimants[g].work;
        assert s.claimants[g] == t.claimants[g];
      }
    }
  }

  lemma OtherStepKeepsLatest(s: State, x: Step)
    requires LatestHoldsAll(s) && Enabled(s, x) && Orderly(s, x) && !x.Claim?
    ensures LatestHoldsAll(Next(s, x))
  {
    var t := Next(s, x);
    DebtOnlyMoves(s, x);
    forall g | Current(t, g) ensures Current(s, g) && t.claimants[g] == s.claimants[g] {}
    LooserDebt(s, t);
  }

  lemma {:induction false} OrderlyRunsAreLossless(s: State, run: seq<Step>)
    requires LatestHoldsAll(s) && Valid(s, run) && OrderlyRun(s, run)
    ensures LosslessRun(s, run) && LatestHoldsAll(Run(s, run))
    decreases |run|
  {
    if run != [] {
      if run[0].Claim? { ClaimKeepsLatest(s, run[0].h); } else { OtherStepKeepsLatest(s, run[0]); }
      if run[0].Finish? { assert Current(s, run[0].h); }
      OrderlyRunsAreLossless(Next(s, run[0]), run[1..]);
    }
  }

  /** So a release that compared the claim time would lose no wake-up, however slow the holders. */
  lemma OrderlyHoldersLoseNothing(s0: State, run: seq<Step>, e: nat)
    requires Start(s0) && Valid(s0, run) && OrderlyRun(s0, run) && e in Accepted(s0, run)
    ensures var s := Run(s0, run);
            e in s.done || (s.row.Some? && (s.row.value.inFlight || s.row.value.scheduled.Some?))
  {
    OrderlyRunsAreLossless(s0, run);
    NoWakeupIsLostWithoutThatRelease(s0, run, e);
  }

  // ---------------------------------------------------------------------------
  // A holder that outlives the timeout
  // ---------------------------------------------------------------------------

  /** Idle for ever: nothing is scheduled, nothing is in flight, nobody is claiming. */
  predicate Asleep(s: State) {
    s.row.Some? && s.row.value.scheduled.None? && !s.row.value.inFlight && s.claimants == map[] && s.upserts == map[]
  }

  lemma {:induction false} AsleepUnlessEnqueued(s: State, run: seq<Step>)
    requires Asleep(s) && Valid(s, run) && forall x :: x in run ==> !x.StartEnqueue?
    ensures Asleep(Run(s, run)) && Run(s, run).done == s.done && Owed(Run(s, run)) == Owed(s)
    decreases |run|
  {
    if run != [] {
      assert !run[0].StartEnqueue?;
      var t := Next(s, run[0]);
      assert WorkOf(s) == {} && WorkOf(t) == {};
      assert Asleep(t) && t.done == s.done && Owed(t) == Owed(s);
      AsleepUnlessEnqueued(t, run[1..]);
    }
  }

  const EMPTY := State(None, 0, map[], map[], {}, {}, {})

  /** The first holder is swept aside as stale while it still runs; a second claim is live. */
  const TWO_HOLDERS :=
    State(Some(Req(None, true, Some(1000))), 1000, map[], map[1 := Holding(0, {1}), 2 := Holding(1000, {1, 2})], {}, {}, {})

  /** The first holder's clean release clears the second's claim; the second dies. */
  const FORGOTTEN := State(Some(Req(None, false, Some(1000))), 1000, map[], map[], {}, {1, 2}, {1})

  /** A run, and the enqueues it accepted. */
  ghost predicate Reaches(s: State, run: seq<Step>, t: State, accepted: set<nat>) {
    Valid(s, run) && Run(s, run) == t && Accepted(s, run) == accepted
  }

  lemma Stepped(s: State, x: Step, u: State, run: seq<Step>, t: State, accepted: set<nat>) returns (longer: seq<Step>)
    requires Enabled(s, x) && u == Next(s, x) && Reaches(u, run, t, accepted)
    ensures Reaches(s, longer, t, (if x.FinishEnqueue? then u.waiting - s.waiting else {}) + accepted)
  {
    longer := [x] + run;
    assert longer[1..] == run;
  }

  lemma WorkOfOne(s: State, h: nat)
    requires h in s.claimants && s.claimants[h].Holding?
    requires forall g :: g in s.claimants && s.claimants[g].Holding? ==> g == h
    ensures WorkOf(s) == s.claimants[h].work
  {
  }

  lemma ReleaseOfAnothersClaim() returns (run: seq<Step>)
    ensures Reaches(TWO_HOLDERS, run, FORGOTTEN, {})
  {
    var mid := State(Some(Req(None, false, Some(1000))), 1000, map[], map[2 := Holding(1000, {1, 2})], {}, {}, {1});
    run := Stepped(mid, Die(2), FORGOTTEN, [], FORGOTTEN, {});
    run := Stepped(TWO_HOLDERS, Finish(1), mid, run, FORGOTTEN, {});
  }

  lemma SweptAside() returns (run: seq<Step>)
    ensures Reaches(State(Some(Req(Some(0), true, Some(0))), 0, map[], map[1 := Holding(0, {1})], {2}, {}, {}), run, FORGOTTEN, {})
  {
    run := ReleaseOfAnothersClaim();
    var held := map[1 := Holding(0, {1})];
    var free := Req(Some(0), false, Some(0));
    var looked := State(Some(free), 1000, map[], held[2 := Looking(free, 1000)], {1, 2}, {}, {});
    var swept := State(Some(free), 1000, map[], held, {1, 2}, {}, {});
    var late := State(Some(Req(Some(0), true, Some(0))), 1000, map[], held, {2}, {}, {});
    var busy := State(Some(Req(Some(0), true, Some(0))), 0, map[], held, {2}, {}, {});
    WorkOfOne(looked, 1);
    WorkOfOne(late, 1);
    assert Owed(looked) == {1, 2} && Next(looked, Claim(2)).claimants == TWO_HOLDERS.claimants;
    run := Stepped(looked, Claim(2), TWO_HOLDERS, run, FORGOTTEN, {});
    run := Stepped(swept, Look(2, 1000), looked, run, FORGOTTEN, {});
    run := Stepped(late, Sweep(1000), swept, run, FORGOTTEN, {});
    run := Stepped(busy, Wait(1000), late, run, FORGOTTEN, {});
  }

  lemma EnqueuedWhileHeld() returns (run: seq<Step>)
    ensures Reaches(State(Some(Req(None, true, Some(0))), 0, map[], map[1 := Holding(0, {1})], {}, {}, {}), run, FORGOTTEN, {2})
  {
    run := SweptAside();
    var held := map[1 := Holding(0, {1})];
    var busy := State(Some(Req(Some(0), true, Some(0))), 0, map[], held, {2}, {}, {});
    var idle := Some(Req(None, true, Some(0)));
    var asking := State(idle, 0, map[2 := Upsert(idle, 0, true)], held, {}, {}, {});
    var claimed := State(idle, 0, map[], held, {}, {}, {});
    run := Stepped(asking, FinishEnqueue(2), busy, run, FORGOTTEN, {});
    run := Stepped(claimed, StartEnqueue(2, 0, true), asking, run, FORGOTTEN, {2});
  }

  lemma EnqueuedTwice() returns (run: seq<Step>)
    ensures Reaches(EMPTY, run, FORGOTTEN, {1, 2})
  {
    run := EnqueuedWhileHeld();
    var held := map[1 := Holding(0, {1})];
    var claimed := State(Some(Req(None, true, Some(0))), 0, map[], held, {}, {}, {});
    var queued := Some(Req(Some(0), false, None));
    var looking := State(queued, 0, map[], map[1 := Looking(queued.value, 0)], {1}, {}, {});
    var waiting := State(queued, 0, map[], map[], {1}, {}, {});
    var first := State(None, 0, map[1 := Upsert(None, 0, true)], map[], {}, {}, {});
    assert Owed(looking) == {1} && Next(looking, Claim(1)).claimants == held;
    run := Stepped(looking, Claim(1), claimed, run, FORGOTTEN, {2});
    run := Stepped(waiting, Look(1, 0), looking, run, FORGOTTEN, {2});
    run := Stepped(first, FinishEnqueue(1), waiting, run, FORGOTTEN, {2});
    run := Stepped(EMPTY, StartEnqueue(1, 0, true), first, run, FORGOTTEN, {1, 2});
  }

  /** Without the timeliness assumption a wake-up can be lost for good: the old holder's clean
      release clears the new holder's claim, the new holder dies, and whatever happens afterwards,
      short of another enqueue, its work is never served. */
  lemma SlowHolderLosesWakeup()
    ensures exists run :: Valid(EMPTY, run) && 2 in Accepted(EMPTY, run) &&
              forall more :: Valid(Run(EMPTY, run), more) && (forall x: Step :: x in more ==> !x.StartEnqueue?) ==>
                2 !in Run(Run(EMPTY, run), more).done
  {
    var run := EnqueuedTwice();
    forall more | Valid(FORGOTTEN, more) && (forall x: Step :: x in more ==> !x.StartEnqueue?)
      ensures 2 !in Run(FORGOTTEN, more).done
    {
      AsleepUnlessEnqueued(FORGOTTEN, more);
    }
    assert Run(EMPTY, run) == FORGOTTEN;
  }
}
