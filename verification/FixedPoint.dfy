/** The diff -> drain -> replan fixed-point loop (app/ledger/reconciler.py:498-549). */
module FixedPoint {
  import opened Base
  import opened OutboxTable
  import opened GoogleModel
  import opened Protocol
  import opened Pipeline
  import opened Guarantees
  import opened Worker
  import opened Convergence
  import opened Records
  import opened Handlers
  import opened Drain
  import opened Reconcile

  const MAX_PASSES := 3
  const MAX_OPS := 1000

  function Plus(a: Counters, b: Counters): Counters {
    Counters(a.processed + b.processed, a.succeeded + b.succeeded, a.retried + b.retried,
             a.failedPermanent + b.failedPermanent, a.superseded + b.superseded)
  }

  /** Every op processed is counted once more, by its outcome. */
  predicate Balanced(c: Counters) {
    c.processed == c.succeeded + c.retried + c.failedPermanent + c.superseded
  }

  /** The totals of a loop are balanced as those of its drains are (Drain.Tallied), and start from nothing. */
  lemma TotalsAreBalanced(a: Counters, b: Counters)
    requires Balanced(a) && Balanced(b)
    ensures Balanced(Plus(a, b)) && Plus(a, b).processed == a.processed + b.processed
    ensures Plus(ZERO, b) == b && Plus(a, b) == Plus(b, a)
  {
  }

  // ---------------------------------------------------------------------------
  // One pass, as one projection sees it
  // ---------------------------------------------------------------------------

  /** `t` is what the diff leaves of `s`, `u` what the drain leaves of `t`. */
  ghost predicate PassOver(s: Cell, t: Cell, u: Cell, user: nat, calendars: set<nat>, paused: bool, f: Forecast, now: int) {
    && s.exec == Idle && t.exec == Idle
    && Diffed(s, t, user, calendars, now)
    && Carried(if paused then t else Reclaimed(t, user, now), u, f, now)
  }

  /** A pass is a run of the transition system. */
  lemma PassLeads(s0: Cell, s: Cell, t: Cell, u: Cell, user: nat, calendars: set<nat>, paused: bool, f: Forecast, now: int)
    requires Leads(s0, s) && PassOver(s, t, u, user, calendars, paused, f, now)
    ensures Leads(s0, u)
  {
    if s.site.user == user {
      var free :| free !in s.rows && t == DiffStep(s, Mapped(s.site, calendars), now, free);
      LeadsStep(s0, s, ADiff(Mapped(s.site, calendars), now, free));
    }
    assert Leads(s0, t);
    var r := if paused then t else Reclaimed(t, user, now);
    if !paused && t.site.user == user { LeadsStep(s0, t, AReclaim(Some(now - STALE_OP_TIMEOUT))); }
    CarriedLeads(r, u, f, now);
    LeadsOn(s0, r, u);
  }

  /** Converged, or within so many passes of it. */
  ghost predicate OnCourse(s: Cell, gone: GoneReply, left: nat) {
    Converged(s) || exists n: nat :: Drifted(s, n) && Stage(s, gone) <= left
  }

  /** With nothing in flight, reclaiming does nothing, and a pass is a pass of the theorem. */
  lemma QuietPass(s: Cell, t: Cell, u: Cell, user: nat, calendars: set<nat>, f: Forecast, now: int)
    requires PassOver(s, t, u, user, calendars, false, f, now) && s.site.user == user && Mapped(s.site, calendars)
    requires forall i :: i in s.rows ==> !Open(s.rows[i])
    requires UniqueKeys(s.rows) && DueSet(u.rows, u.site.user, now) == {}
    ensures Pass(s, u, f, now)
  {
    var free :| free !in s.rows && t == DiffStep(s, true, now, free);
    DiffLeavesNothingInFlight(s, now, free);
    assert Reclaimed(t, user, now).rows == t.rows;
  }

  lemma DiffLeavesNothingInFlight(s: Cell, now: int, free: nat)
    requires forall i :: i in s.rows ==> !Open(s.rows[i])
    requires free !in s.rows
    ensures var t := DiffStep(s, true, now, free); forall i :: i in t.rows ==> t.rows[i].status != InFlight
  {
    if Diverged(s.proj) && Decide(s.site, s.proj, s.flags, true).Some? {
      EnqueueLeavesNothingInFlight(s.rows, RequestFor(s.site, s.proj, Decide(s.site, s.proj, s.flags, true).value), now, free);
    }
  }

  lemma EnqueueLeavesNothingInFlight(t: Table, q: Request, now: int, free: nat)
    requires forall i :: i in t ==> !Open(t[i])
    ensures var t' := EnqueueAt(t, q, now, free).0; forall i :: i in t' ==> t'[i].status != InFlight
  {
  }

  /** In fine weather a pass keeps every projection on course. */
  lemma PassKeepsCourse(s: Cell, t: Cell, u: Cell, gone: GoneReply, left: nat, user: nat, calendars: set<nat>, f: Forecast, now: int)
    requires PassOver(s, t, u, user, calendars, false, f, now) && s.site.user == user && Mapped(s.site, calendars)
    requires OnCourse(s, gone, left) && left > 0 && FineWeather(f, gone) && DueSet(u.rows, u.site.user, now) == {}
    requires UniqueKeys(s.rows)
    ensures OnCourse(u, gone, left - 1)
    ensures DueSet(t.rows, t.site.user, now) == {} ==> Converged(u)
  {
    assert forall i :: i in s.rows ==> !Open(s.rows[i]);
    QuietPass(s, t, u, user, calendars, f, now);
    if Converged(s) {
      ConvergedIsFixed(s, u, f, now);
    } else {
      var n: nat :| Drifted(s, n) && Stage(s, gone) <= left;
      PassAdvances(s, n, u, f, gone, now);
      if Stage(s, gone) > 1 { SomethingIsDue(s, n, t, gone, calendars, now); }
    }
  }

  lemma SomethingIsDue(s: Cell, n: nat, t: Cell, gone: GoneReply, calendars: set<nat>, now: int)
    requires Drifted(s, n) && Stage(s, gone) > 1 && Diffed(s, t, s.site.user, calendars, now) && Mapped(s.site, calendars)
    ensures DueSet(t.rows, t.site.user, now) != {}
  {
    var free :| free !in s.rows && t == DiffStep(s, true, now, free);
    var r, id := DiffLeavesOneOp(s, now, free, OpKind.Update);
    assert id in DueSet(t.rows, t.site.user, now);
  }

  // ---------------------------------------------------------------------------
  // One pass, over all projections
  // ---------------------------------------------------------------------------

  lemma NothingDrainedNothingDue(t: Table, t': Table, user: nat, now: int, order: seq<nat>)
    requires DrainedTable(ReclaimStale(t, user, now), t', user, now, order) && order == []
    requires DueSet(t', user, now) == {}
    ensures DueSet(t, user, now) == {}
  {
    var r := ReclaimStale(t, user, now);
    assert forall i :: i in DueSet(r, user, now) ==> i in DueSet(t', user, now);
    assert forall i :: i in DueSet(t, user, now) ==> i in DueSet(r, user, now);
  }

  ghost predicate AllPassed(starts: map<nat, Cell>, mid: map<nat, Cell>, ends: map<nat, Cell>,
                            user: nat, calendars: set<nat>, paused: bool, f: Forecast, now: int) {
    && mid.Keys == starts.Keys && ends.Keys == starts.Keys
    && forall p :: p in starts ==> PassOver(starts[p], mid[p], ends[p], user, calendars, paused, f, now)
  }

  lemma DiffedThenCarried(starts: map<nat, Cell>, mid: map<nat, Cell>, ends: map<nat, Cell>,
                          user: nat, calendars: set<nat>, paused: bool, f: Forecast, now: int)
    requires AllDiffed(starts, mid, user, calendars, now) && AllCarried(mid, ends, user, paused, f, now)
    ensures AllPassed(starts, mid, ends, user, calendars, paused, f, now)
  {
    forall p | p in starts ensures PassOver(starts[p], mid[p], ends[p], user, calendars, paused, f, now) {
      DiffKeepsExec(starts[p], mid[p], user, calendars, now);
    }
  }

  lemma DiffKeepsExec(s: Cell, t: Cell, user: nat, calendars: set<nat>, now: int)
    requires Diffed(s, t, user, calendars, now)
    ensures s.exec == t.exec
  {
  }

  /** A drain, and what it says of each projection's queue. */
  method DrainPass(db: Ledger, user: nat, paused: bool, now: int) returns (c: Counters)
    requires db.Valid()
    modifies db.ops.Values, db.projections.Values, db.accounts.Values, db.google
    ensures db.Valid() && c.processed <= MAX_OPS && (paused ==> c == ZERO)
    ensures AllCarried(old(db.Views()), db.Views(), user, paused, db.google.forecast, now)
    ensures !paused && c.processed < MAX_OPS ==> NothingDue(db.Views(), user, now)
    ensures !paused && c.processed == 0 ==> NothingDue(old(db.Views()), user, now)
  {
    ghost var rows, order := db.Rows(), [];
    db.NothingDueInViews(user, now);
    c, order := db.DrainUser(user, paused, now, MAX_OPS);
    if !paused {
      if c.processed == 0 { NothingDrainedNothingDue(rows, db.Rows(), user, now, order); }
      db.NothingDueInViews(user, now);
    }
  }

  /** Diff, then drain. */
  method OnePass(db: Ledger, user: nat, calendars: set<nat>, paused: bool, now: int)
    returns (enqueued: nat, c: Counters, ghost mid: map<nat, Cell>)
    requires db.Valid()
    modifies db`ops, db.ops.Values, db.projections.Values, db.accounts.Values, db.google
    ensures db.Valid() && db.OldOrNew()
    ensures c.processed <= MAX_OPS && (paused ==> c == ZERO)
    ensures AllPassed(old(db.Views()), mid, db.Views(), user, calendars, paused, db.google.forecast, now)
    ensures !paused && c.processed < MAX_OPS ==> NothingDue(db.Views(), user, now)
    ensures !paused && c.processed == 0 ==> NothingDue(mid, user, now)
  {
    ghost var starts := db.Views();
    enqueued := DiffAndEnqueueForUser(db, user, calendars, now);
    mid := db.Views();
    c := DrainPass(db, user, paused, now);
    DiffedThenCarried(starts, mid, db.Views(), user, calendars, paused, db.google.forecast, now);
  }

  // ---------------------------------------------------------------------------
  // The loop
  // ---------------------------------------------------------------------------

  ghost predicate AllLead(starts: map<nat, Cell>, ends: map<nat, Cell>) {
    ends.Keys == starts.Keys && forall p :: p in starts ==> Leads(starts[p], ends[p])
  }

  lemma PassesLead(starts: map<nat, Cell>, views: map<nat, Cell>, mid: map<nat, Cell>, ends: map<nat, Cell>,
                   user: nat, calendars: set<nat>, paused: bool, f: Forecast, now: int)
    requires AllLead(starts, views) && AllPassed(views, mid, ends, user, calendars, paused, f, now)
    ensures AllLead(starts, ends)
  {
    forall p | p in starts ensures Leads(starts[p], ends[p]) {
      PassLeads(starts[p], views[p], mid[p], ends[p], user, calendars, paused, f, now);
    }
  }

  lemma DiffsLead(starts: map<nat, Cell>, ends: map<nat, Cell>, user: nat, calendars: set<nat>, now: int)
    requires AllDiffed(starts, ends, user, calendars, now) && forall p :: p in starts ==> starts[p].exec == Idle
    ensures AllLead(starts, ends)
  {
    forall p | p in starts ensures Leads(starts[p], ends[p]) {
      var s := starts[p];
      LeadsToItself(s);
      if s.site.user == user {
        var free :| free !in s.rows && ends[p] == DiffStep(s, Mapped(s.site, calendars), now, free);
        LeadsStep(s, s, ADiff(Mapped(s.site, calendars), now, free));
      }
    }
  }

  /** The user's projections that were within the loop's reach are still on course. */
  ghost predicate CourseKept(starts: map<nat, Cell>, views: map<nat, Cell>, user: nat, calendars: set<nat>, gone: GoneReply, left: nat) {
    && views.Keys == starts.Keys
    && forall p :: p in starts && InReach(starts[p], user, calendars, gone) ==>
         views[p].site == starts[p].site && OnCourse(views[p], gone, left)
  }

  ghost predicate InReach(s: Cell, user: nat, calendars: set<nat>, gone: GoneReply) {
    s.site.user == user && Mapped(s.site, calendars) && OnCourse(s, gone, MAX_PASSES)
  }

  ghost predicate AllHome(starts: map<nat, Cell>, ends: map<nat, Cell>, user: nat, calendars: set<nat>, gone: GoneReply) {
    ends.Keys == starts.Keys && forall p :: p in starts && InReach(starts[p], user, calendars, gone) ==> Converged(ends[p])
  }

  lemma CourseStep(starts: map<nat, Cell>, views: map<nat, Cell>, mid: map<nat, Cell>, ends: map<nat, Cell>,
                   user: nat, calendars: set<nat>, f: Forecast, gone: GoneReply, left: nat, now: int)
    requires CourseKept(starts, views, user, calendars, gone, left) && left > 0 && FineWeather(f, gone)
    requires AllPassed(views, mid, ends, user, calendars, false, f, now) && NothingDue(ends, user, now)
    requires forall p :: p in views ==> UniqueKeys(views[p].rows)
    ensures CourseKept(starts, ends, user, calendars, gone, left - 1)
    ensures NothingDue(mid, user, now) || left == 1 ==> AllHome(starts, ends, user, calendars, gone)
  {
    forall p | p in starts && InReach(starts[p], user, calendars, gone)
      ensures ends[p].site == starts[p].site && OnCourse(ends[p], gone, left - 1)
      ensures NothingDue(mid, user, now) || left == 1 ==> Converged(ends[p])
    {
      OneStaysOnCourse(views[p], mid[p], ends[p], user, calendars, f, gone, left, now);
    }
  }

  lemma OneStaysOnCourse(s: Cell, t: Cell, u: Cell, user: nat, calendars: set<nat>, f: Forecast, gone: GoneReply, left: nat, now: int)
    requires PassOver(s, t, u, user, calendars, false, f, now) && s.site.user == user && Mapped(s.site, calendars)
    requires OnCourse(s, gone, left) && left > 0 && FineWeather(f, gone) && UniqueKeys(s.rows)
    requires DueSet(u.rows, user, now) == {}
    ensures u.site == s.site && OnCourse(u, gone, left - 1)
    ensures DueSet(t.rows, user, now) == {} || left == 1 ==> Converged(u)
  {
    PassKeepsSite(s, t, u, user, calendars, f, now);
    PassKeepsCourse(s, t, u, gone, left, user, calendars, f, now);
  }

  lemma PassKeepsSite(s: Cell, t: Cell, u: Cell, user: nat, calendars: set<nat>, f: Forecast, now: int)
    requires PassOver(s, t, u, user, calendars, false, f, now)
    ensures t.site == s.site && u.site == s.site
  {
    var r := Reclaimed(t, user, now);
    var xs :| Strides(r, xs, u, f, now);
    StridesKeepSite(r, xs, u, f, now);
  }

  lemma {:induction false} StridesKeepSite(s: Cell, xs: seq<Stride>, t: Cell, f: Forecast, now: int)
    requires Strides(s, xs, t, f, now)
    ensures t.site == s.site
    decreases |xs|
  {
    if xs != [] {
      if xs[0].Carry? {
        var c := Next(s, AClaim(xs[0].id, now));
        PerformSettles(c.site, c.rows, c, xs[0].id, f, xs[0].asked, now);
      }
      StridesKeepSite(Advance(s, xs[0], f, now), xs[1..], t, f, now);
    }
  }

  /** Run diff and drain until nothing is processed, three passes at most.  For every projection
      the result is a run of the transition system, so all it guarantees holds of the tables; and
      in fine weather every projection within reach of the theorem ends converged. */
  method DiffDrainUntilQuiescent(db: Ledger, user: nat, calendars: set<nat>, paused: bool, drain: bool, now: int, ghost gone: GoneReply)
    returns (enqueued: nat, c: Counters)
    requires db.Valid()
    modifies db`ops, db.ops.Values, db.projections.Values, db.accounts.Values, db.google
    ensures db.Valid() && AllLead(old(db.Views()), db.Views())
    ensures drain && !paused && c.processed < MAX_OPS && FineWeather(db.google.forecast, gone) ==>
      AllHome(old(db.Views()), db.Views(), user, calendars, gone)
  {
    enqueued, c := 0, ZERO;
    ghost var starts, f := db.Views(), db.google.forecast;
    forall p | p in starts ensures Leads(starts[p], starts[p]) { LeadsToItself(starts[p]); }
    if !drain {
      enqueued := DiffAndEnqueueForUser(db, user, calendars, now);
      DiffsLead(starts, db.Views(), user, calendars, now);
      return;
    }
    var passes := 0;
    while passes < MAX_PASSES
      invariant passes <= MAX_PASSES && db.Valid() && AllLead(starts, db.Views())
      invariant db.OldOrNew()
      invariant !paused && c.processed < MAX_OPS && FineWeather(f, gone) ==>
        && CourseKept(starts, db.Views(), user, calendars, gone, MAX_PASSES - passes)
        && (passes == MAX_PASSES ==> AllHome(starts, db.Views(), user, calendars, gone))
    {
      ghost var views := db.Views();
      var more, counters;
      ghost var mid;
      more, counters, mid := OnePass(db, user, calendars, paused, now);
      PassesLead(starts, views, mid, db.Views(), user, calendars, paused, f, now);
      if !paused && c.processed < MAX_OPS && counters.processed < MAX_OPS && FineWeather(f, gone) {
        CourseStep(starts, views, mid, db.Views(), user, calendars, f, gone, MAX_PASSES - passes, now);
      }
      enqueued, c, passes := enqueued + more, Plus(c, counters), passes + 1;
      if counters.processed == 0 && counters.superseded == 0 {
        break;
      }
    }
  }
}
