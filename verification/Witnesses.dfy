/** Concrete runs showing that each exception in the guarantees really happens. */
module Witnesses {
  import opened Base
  import opened OutboxTable
  import opened GoogleModel
  import opened Protocol
  import opened Pipeline
  import opened Guarantees

  /** Holds the initial states and is closed under the steps of the transition system. */
  ghost predicate HoldsAllRuns(reach: iset<Cell>) {
    && (forall s :: Init(s) ==> s in reach)
    && (forall s, a :: s in reach && Enabled(s, a) ==> Next(s, a) in reach)
  }

  /** Reachable, said without a run: in every such set. */
  ghost predicate Got(s: Cell) {
    forall reach :: HoldsAllRuns(reach) ==> s in reach
  }

  lemma GotIsReachable(s: Cell)
    requires Got(s)
    ensures Reachable(s)
  {
    var reach := iset t: Cell | Reachable(t);
    forall t | Init(t) ensures t in reach {
      assert Valid(t, []) && Run(t, []) == t;
    }
    forall t, a | t in reach && Enabled(t, a) ensures Next(t, a) in reach {
      LeadsToItself(t);
      LeadsStep(t, t, a);
      ReachableLeads(t, Next(t, a));
    }
    assert HoldsAllRuns(reach);
  }

  lemma Advance(s: Cell, a: Action)
    requires Got(s) && Enabled(s, a)
    ensures Got(Next(s, a))
  {
    forall reach | HoldsAllRuns(reach) ensures Next(s, a) in reach {
      assert s in reach;
    }
  }

  lemma Start(s: Cell)
    requires Init(s)
    ensures Got(s)
  {
  }

  // ---------------------------------------------------------------------------
  // Building blocks
  // ---------------------------------------------------------------------------

  const MAIN := Site(1, 1, 1, Main, FromClient, None, false, false)
  const CLEAN := Log(false, false, false, false)
  const NO_FLAGS := Flags(false, false, false)
  const NO_EVENT := SourceEvent(false, [])

  function Fresh(want: Want, version: nat): Projection {
    Projection(want, version, None, None, Unknown, None, None, 0, 0, false)
  }

  function Begun(p: Projection): Cell {
    Cell(MAIN, p, map[], map[], 0, Idle, NO_FLAGS, NO_EVENT, CLEAN)
  }

  /** Diff, on a diverged managed projection whose outbox has no row with the key. */
  lemma Diff(s: Cell, kind: OpKind, id: nat) returns (t: Cell)
    requires Got(s) && s.exec == Idle && id !in s.rows && Diverged(s.proj)
    requires Decide(s.site, s.proj, s.flags, true) == Some(kind)
    requires forall i :: i in s.rows ==> KeyOf(s.rows[i]) != Key(s.site.proj, s.proj.desiredVersion, kind)
    ensures Got(t)
    ensures t == s.(rows := SupersedeOthers(s.rows, Key(s.site.proj, s.proj.desiredVersion, kind), 0)
                                           [id := NewRow(RequestFor(s.site, s.proj, kind), 0)])
  {
    t := Next(s, ADiff(true, 0, id));
    Advance(s, ADiff(true, 0, id));
  }

  /** Diff, on a diverged projection that needs nothing. */
  lemma Skip(s: Cell) returns (t: Cell)
    requires Got(s) && s.exec == Idle && Diverged(s.proj) && Decide(s.site, s.proj, s.flags, true).None?
    ensures Got(t)
    ensures t == s.(proj := Protocol.Snap(s.proj), flags := Disarm(s.site, s.proj, s.flags))
  {
    var free := MaxOf(s.rows.Keys) + 1;
    assert free !in s.rows;
    t := Next(s, ADiff(true, 0, free));
    Advance(s, ADiff(true, 0, free));
  }

  /** Claim a due op and read the projection. */
  lemma Take(s: Cell, id: nat, now: int) returns (t: Cell)
    requires Got(s) && s.exec == Idle && id in s.rows && IsDue(s.rows[id], s.site.user, now)
    ensures Got(t)
    ensures var r := s.(rows := s.rows[id := ClaimRow(s.rows[id], now)], exec := Ready(id, s.rows[id]));
            t == r.(exec := Begin(r, id, s.rows[id]))
  {
    Advance(s, AClaim(id, now));
    var r := Next(s, AClaim(id, now));
    Advance(r, ABegin);
    t := Next(r, ABegin);
  }

  lemma Call(s: Cell, net: Net) returns (t: Cell)
    requires Got(s) && AtCall(s.exec)
    ensures Got(t) && t == Send(s, net, NotFound)
  {
    Advance(s, ASend(net, NotFound));
    t := Next(s, ASend(net, NotFound));
  }

  lemma Record(s: Cell, now: int) returns (t: Cell)
    requires Got(s) && Enabled(s, ASettle(now))
    ensures Got(t) && t == Settle(s, now)
  {
    Advance(s, ASettle(now));
    t := Next(s, ASettle(now));
  }

  lemma Wish(s: Cell, want: Want, version: nat) returns (t: Cell)
    requires Got(s)
    ensures Got(t) && t == s.(proj := Replan(s.proj, want, version, false))
  {
    Advance(s, APlan(want, version, false));
    t := Next(s, APlan(want, version, false));
  }

  lemma Edit(s: Cell, gen: nat, body: Content) returns (t: Cell)
    requires Got(s) && gen in s.slots && s.slots[gen].Live?
    ensures Got(t) && t == s.(slots := s.slots[gen := Live(body, s.tick)], tick := s.tick + 1)
  {
    Advance(s, AUserEdit(gen, body));
    t := Next(s, AUserEdit(gen, body));
  }

  lemma Remove(s: Cell, gen: nat) returns (t: Cell)
    requires Got(s) && gen in s.slots && s.slots[gen].Live?
    ensures Got(t) && t == s.(slots := s.slots[gen := Tombstone(s.tick)], tick := s.tick + 1)
  {
    Advance(s, AUserDelete(gen));
    t := Next(s, AUserDelete(gen));
  }

  lemma Crash(s: Cell) returns (t: Cell)
    requires Got(s)
    ensures Got(t)
    ensures t == s.(exec := Idle, log := s.log.(lostReplan := s.log.lostReplan || ReplanMatters(s)))
  {
    Advance(s, ACrash);
    t := Next(s, ACrash);
  }

  lemma Restart(s: Cell) returns (t: Cell)
    requires Got(s) && s.exec == Idle
    ensures Got(t) && t == s.(rows := map i | i in s.rows :: ReclaimRow(s.rows[i], None))
  {
    Advance(s, AReclaim(None));
    t := Next(s, AReclaim(None));
  }

  /** A first create is claimed. */
  lemma BeginFirstCreate(body: Content, version: nat) returns (t: Cell)
    ensures Got(t)
    ensures t.site == MAIN && t.log == CLEAN && t.flags == NO_FLAGS && t.event == NO_EVENT
    ensures t.proj == Fresh(Copy(body), version) && t.slots == map[] && t.tick == 0
    ensures t.rows.Keys == {1} && t.rows[1].status == InFlight && KeyOf(t.rows[1]) == Key(1, version, Create)
    ensures t.rows[1].user == 1 && t.rows[1].calendar == 1 && t.rows[1].attempts == 1
    ensures t.rows[1].payload == Some(body) && t.rows[1].stamp == Some(Copy(body)) && t.rows[1].version == version
    ensures t.exec.Creating? && t.exec.id == 1 && t.exec.gen == 0 && t.exec.left == 8
    ensures t.exec.row.payload == Some(body) && t.exec.row.stamp == Some(Copy(body)) && t.exec.row.version == version
    ensures t.exec.row.kind == Create && t.exec.row.attempts == 0 && AtHome(t)
  {
    var s := Begun(Fresh(Copy(body), version));
    Start(s);
    s := Diff(s, Create, 1);
    t := Take(s, 1, 0);
  }

  /** A first create that goes through. */
  lemma Deliver(body: Content, version: nat) returns (t: Cell)
    ensures Got(t)
    ensures t.site == MAIN && t.exec == Idle && t.log == CLEAN && t.flags == NO_FLAGS && t.event == NO_EVENT
    ensures t.proj == Projection(Copy(body), version, Some(Copy(body)), Some(version), Present, Some(0), Some(0), 0, 0, false)
    ensures t.slots == map[0 := Live(body, 0)] && t.tick == 1
    ensures t.rows.Keys == {1} && t.rows[1].status == Done && KeyOf(t.rows[1]) == Key(1, version, Create)
  {
    var s := BeginFirstCreate(body, version);
    s := Call(s, Fine);
    t := Record(s, 0);
  }

  /** A first create whose insert lands while its reply is lost: the op waits for its retry. */
  lemma LandUnseen(body: Content) returns (t: Cell)
    ensures Got(t)
    ensures t.site == MAIN && t.exec == Idle && t.log == CLEAN && t.flags == NO_FLAGS && t.event == NO_EVENT
    ensures t.proj == Fresh(Copy(body), 1) && t.slots == map[0 := Live(body, 0)] && t.tick == 1
    ensures t.rows.Keys == {1} && t.rows[1].status == Pending && t.rows[1].due == Some(1)
    ensures t.rows[1].user == 1 && t.rows[1].calendar == 1 && KeyOf(t.rows[1]) == Key(1, 1, Create)
    ensures t.rows[1].payload == Some(body) && t.rows[1].stamp == Some(Copy(body)) && t.rows[1].attempts == 1
  {
    var s := BeginFirstCreate(body, 1);
    s := Call(s, Lost(Transient));
    t := Record(s, 0);
  }

  // ---------------------------------------------------------------------------
  // Exit 1: edited between the GET and the restoring UPDATE
  // ---------------------------------------------------------------------------

  /** The retry finds its own event live and is about to restore it. */
  lemma FindOwnCopy() returns (t: Cell)
    ensures Got(t)
    ensures t.site == MAIN && t.log == CLEAN && t.flags == NO_FLAGS && t.event == NO_EVENT
    ensures t.proj == Fresh(Copy(7), 1) && t.slots == map[0 := Live(7, 0)] && t.tick == 1
    ensures t.rows.Keys == {1} && t.rows[1].status == InFlight
    ensures t.exec.Restoring? && t.exec.id == 1 && t.exec.gen == 0 && t.exec.etag == 0 && AtHome(t)
  {
    var s := LandUnseen(7);
    s := Take(s, 1, 1);
    assert s.exec.Creating?;
    s := Call(s, Fine);
    assert s.exec.Conflicted?;
    t := Call(s, Fine);
  }

  /** A user edits the copy between the confirming GET and the restoring UPDATE: the create ends
      superseded, and no row knows the copy any more. */
  lemma EditUnderRestore() returns (t: Cell)
    ensures Got(t) && !Tracked(t)
    ensures t.site == MAIN && t.exec == Replanning && t.log == CLEAN && t.flags == NO_FLAGS && t.event == NO_EVENT
    ensures t.proj == Fresh(Copy(7), 1) && t.slots == map[0 := Live(9, 1)]
    ensures t.rows.Keys == {1} && t.rows[1].status == Superseded
  {
    var s := FindOwnCopy();
    s := Edit(s, 0, 9);
    s := Call(s, Fine);
    assert s.exec.Superseding?;
    t := Record(s, 1);
    assert t.slots[0].Live?;
  }

  lemma CancelAfterEdit() returns (t: Cell)
    ensures Got(t) && t.exec == Idle && t.log == CLEAN
    ensures t.proj == Projection(Nothing, 2, Some(Nothing), Some(2), Absent, None, None, 0, 0, false)
    ensures t.slots == map[0 := Live(9, 1)] && t.rows.Keys == {1} && t.rows[1].status == Superseded
  {
    var s := EditUnderRestore();
    s := Record(s, 1);
    s := Wish(s, Nothing, 2);
    t := Skip(s);
  }

  /** If the event is then cancelled before the next diff, the projection converges as absent
      and the copy stays on the calendar. */
  lemma EditedAfterConflictIsOrphaned() returns (t: Cell)
    ensures Reachable(t) && t.log == CLEAN
    ensures Quiescent(t) && !Diverged(t.proj) && !Exact(t) && !DriftVisible(t)
  {
    t := CancelAfterEdit();
    assert 0 in t.slots && t.slots[0].Live?;
    GotIsReachable(t);
  }

  /** Discovery then finds the orphan, relinks it to its projection, and everything looks converged:
      nothing is wanted, nothing counts as applied, the etag is Google's, and nobody deletes the copy. */
  lemma RelinkedOrphanIsMasked() returns (t: Cell)
    ensures Reachable(t) && LooksConverged(t) && !t.log.everFailed && !t.log.lostReplan && !t.log.unmapped
    ensures t.proj.desired.Nothing? && !Exact(t) && !DriftVisible(t)
  {
    var s := CancelAfterEdit();
    Advance(s, ARelink(0, 1));
    t := Next(s, ARelink(0, 1));
    GotIsReachable(s);
    ReachableIsOk(s);
    RelinkMasksExactly(s, 0, 1);
    GotIsReachable(t);
  }

  // ---------------------------------------------------------------------------
  // Exit 2: poisoned after landing
  // ---------------------------------------------------------------------------

  /** One denied retry of the landed create. */
  lemma DeniedRetry(s: Cell, now: int) returns (t: Cell)
    requires Got(s) && s.site == MAIN && s.exec == Idle && s.log == CLEAN && s.flags == NO_FLAGS && s.event == NO_EVENT
    requires s.proj == Fresh(Copy(7), 1)
    requires s.rows.Keys == {1} && IsDue(s.rows[1], 1, now) && s.rows[1].calendar == 1 && KeyOf(s.rows[1]) == Key(1, 1, Create)
    requires s.rows[1].payload == Some(7)
    ensures Got(t) && t.site == MAIN && t.exec == Idle && t.slots == s.slots && t.flags == NO_FLAGS && t.event == NO_EVENT
    ensures t.rows.Keys == {1} && KeyOf(t.rows[1]) == Key(1, 1, Create) && t.rows[1].payload == Some(7)
    ensures t.rows[1].user == 1 && t.rows[1].calendar == 1 && t.rows[1].attempts == s.rows[1].attempts + 1
    ensures s.rows[1].attempts < 5 ==>
      t.proj == s.proj && t.log == CLEAN && t.rows[1].status == Pending && t.rows[1].due == Some(now + Backoff(s.rows[1].attempts))
    ensures s.rows[1].attempts >= 5 ==> t.rows[1].status == PermanentFailure && t.proj.failed && t.proj.gid.None?
  {
    var r := Take(s, 1, now);
    assert r.exec.Creating?;
    r := Call(r, Down(Denied));
    t := Record(r, now);
  }

  lemma DeniedThrice() returns (t: Cell)
    ensures Got(t) && t.site == MAIN && t.exec == Idle && t.slots == map[0 := Live(7, 0)]
    ensures t.flags == NO_FLAGS && t.event == NO_EVENT && t.log == CLEAN && t.proj == Fresh(Copy(7), 1)
    ensures t.rows.Keys == {1} && KeyOf(t.rows[1]) == Key(1, 1, Create) && t.rows[1].payload == Some(7)
    ensures t.rows[1].user == 1 && t.rows[1].calendar == 1 && t.rows[1].attempts == 4 && t.rows[1].status == Pending && t.rows[1].due == Some(308)
  {
    var s := LandUnseen(7);
    t := DeniedRetry(s, 100);
    t := DeniedRetry(t, 200);
    t := DeniedRetry(t, 300);
  }

  /** The calendar refuses every retry of a create that had already landed. */
  lemma PoisonedAfterLandingIsUntracked() returns (t: Cell)
    ensures Reachable(t) && Quiescent(t) && !Tracked(t)
  {
    var s := DeniedThrice();
    t := DeniedRetry(s, 400);
    t := DeniedRetry(t, 500);
    assert t.slots[0].Live?;
    GotIsReachable(t);
  }

  // ---------------------------------------------------------------------------
  // Exit 3: a later update supersedes a pending create
  // ---------------------------------------------------------------------------

  lemma StrandInFlight() returns (t: Cell)
    ensures Got(t)
    ensures t.site == MAIN && t.exec == Idle && t.log == CLEAN && t.flags == NO_FLAGS && t.event == NO_EVENT
    ensures t.proj == Fresh(Copy(2), 2) && t.slots == map[] && t.tick == 0 && t.rows.Keys == {1}
    ensures t.rows[1].status == InFlight && KeyOf(t.rows[1]) == Key(1, 1, Create) && t.rows[1].payload == Some(1)
    ensures t.rows[1].user == 1 && t.rows[1].calendar == 1 && t.rows[1].due == Some(0)
  {
    var s := Begun(Fresh(Copy(1), 1));
    Start(s);
    s := Diff(s, Create, 1);
    s := Take(s, 1, 0);
    s := Crash(s);
    t := Wish(s, Copy(2), 2);
  }

  /** A crash strands a create in flight; a newer create delivers in its place. */
  lemma StrandAndOvertake() returns (t: Cell)
    ensures Got(t)
    ensures t.site == MAIN && t.exec == Idle && t.log == CLEAN && t.flags == NO_FLAGS && t.event == NO_EVENT
    ensures t.proj == Projection(Copy(2), 2, Some(Copy(2)), Some(2), Present, Some(0), Some(0), 0, 0, false)
    ensures t.slots == map[0 := Live(2, 0)] && t.tick == 1
    ensures t.rows.Keys == {1, 2}
    ensures t.rows[1].status == InFlight && KeyOf(t.rows[1]) == Key(1, 1, Create) && t.rows[1].payload == Some(1)
    ensures t.rows[1].user == 1 && t.rows[1].calendar == 1 && t.rows[1].due == Some(0)
    ensures t.rows[2].status == Done && KeyOf(t.rows[2]) == Key(1, 2, Create)
  {
    var s := StrandInFlight();
    s := Diff(s, Create, 2);
    s := Take(s, 2, 0);
    s := Call(s, Fine);
    t := Record(s, 0);
  }

  /** The stranded create is reclaimed after the user deleted the copy: its id is burned. */
  lemma StrandedCreateBurnsItsId() returns (t: Cell)
    ensures Got(t)
    ensures t.site == MAIN && t.log == CLEAN && t.flags == NO_FLAGS && t.event == NO_EVENT
    ensures t.proj == Projection(Copy(2), 2, Some(Copy(2)), Some(2), Present, Some(0), Some(0), 0, 0, false)
    ensures t.slots == map[0 := Tombstone(1)] && t.tick == 2
    ensures t.rows.Keys == {1, 2}
    ensures t.rows[1].status == InFlight && KeyOf(t.rows[1]) == Key(1, 1, Create)
    ensures t.rows[2].status == Done && KeyOf(t.rows[2]) == Key(1, 2, Create)
    ensures t.exec.Burned? && t.exec.id == 1 && t.exec.gen == 1 && t.exec.floor == 0 && t.exec.left == 7
    ensures t.exec.row.payload == Some(1) && t.exec.row.kind == Create && AtHome(t)
  {
    var s := StrandAndOvertake();
    s := Restart(s);
    s := Remove(s, 0);
    s := Take(s, 1, 0);
    assert s.exec.Creating?;
    s := Call(s, Fine);
    assert s.exec.Conflicted?;
    t := Call(s, Fine);
  }

  /** It then lands at a fresh id without its reply being seen. */
  lemma StrandedCreateLands() returns (t: Cell)
    ensures Got(t)
    ensures t.site == MAIN && t.exec == Idle && t.log == CLEAN && t.flags == NO_FLAGS && t.event == NO_EVENT
    ensures t.proj == Projection(Copy(2), 2, Some(Copy(2)), Some(2), Present, Some(0), Some(0), 1, 0, false)
    ensures t.slots.Keys == {0, 1} && t.slots[0].Tombstone? && t.slots[1].Live?
    ensures t.rows.Keys == {1, 2}
    ensures t.rows[1].status == Pending && KeyOf(t.rows[1]) == Key(1, 1, Create)
    ensures t.rows[2].status == Done && KeyOf(t.rows[2]) == Key(1, 2, Create)
  {
    var s := StrandedCreateBurnsItsId();
    s := Record(s, 0);
    assert s.exec.Creating?;
    s := Call(s, Lost(Transient));
    t := Record(s, 0);
  }

  /** The next change is an update of the copy that is gone; enqueueing it supersedes the create,
      and the landed event is no longer anybody's. */
  lemma UpdateSupersedesLandedCreate() returns (t: Cell)
    ensures Reachable(t) && t.log == CLEAN && !Tracked(t)
  {
    var s := StrandedCreateLands();
    s := Wish(s, Copy(3), 3);
    t := Diff(s, Update, 3);
    assert t.slots[1].Live? && t.proj.gid == Some(0);
    assert !OpenCreate(t);
    GotIsReachable(t);
  }

  // ---------------------------------------------------------------------------
  // A crash between superseding and asking for a replan
  // ---------------------------------------------------------------------------

  lemma UpdateStarts() returns (t: Cell)
    ensures Got(t)
    ensures t.site == MAIN && t.log == CLEAN && t.flags == NO_FLAGS && t.event == NO_EVENT
    ensures t.proj == Projection(Copy(2), 1, Some(Copy(1)), Some(1), Present, Some(0), Some(0), 0, 0, false)
    ensures t.slots == map[0 := Live(1, 0)] && t.tick == 1
    ensures t.rows.Keys == {1, 2} && t.rows[1].status == Done
    ensures t.rows[2].status == InFlight && t.rows[2].user == 1 && t.rows[2].calendar == 1
    ensures KeyOf(t.rows[2]) == Key(1, 1, Update) && t.rows[2].payload == Some(2)
    ensures t.exec.Updating? && t.exec.id == 2 && t.exec.gen == 0 && t.exec.ifMatch == Some(0)
    ensures t.exec.row.payload == Some(2) && t.exec.row.kind == Update && t.exec.row.attempts == 0 && AtHome(t)
  {
    var s := Deliver(1, 1);
    s := Wish(s, Copy(2), 1);
    s := Diff(s, Update, 2);
    t := Take(s, 2, 0);
  }

  /** An update lands unseen, the desired content flips back at the same ledger version. */
  lemma UpdateLandsUnseen() returns (t: Cell)
    ensures Got(t)
    ensures t.site == MAIN && t.exec == Idle && t.log == CLEAN && t.flags == NO_FLAGS && t.event == NO_EVENT
    ensures t.proj == Projection(Copy(1), 1, Some(Copy(1)), Some(1), Present, Some(0), Some(0), 0, 0, false)
    ensures t.slots == map[0 := Live(2, 1)] && t.tick == 2
    ensures t.rows.Keys == {1, 2} && t.rows[1].status == Done
    ensures t.rows[2].status == Pending && t.rows[2].due == Some(1) && t.rows[2].user == 1 && t.rows[2].calendar == 1
    ensures KeyOf(t.rows[2]) == Key(1, 1, Update) && t.rows[2].payload == Some(2)
  {
    var s := UpdateStarts();
    s := Call(s, Lost(Transient));
    s := Record(s, 0);
    t := Wish(s, Copy(1), 1);
  }

  /** The retry gets a 412 and refreshes the stored etag. */
  lemma RetryRefreshesEtag() returns (t: Cell)
    ensures Got(t)
    ensures t.site == MAIN && t.log == CLEAN && t.flags == NO_FLAGS && t.event == NO_EVENT
    ensures t.proj == Projection(Copy(1), 1, Some(Copy(1)), Some(1), Present, Some(0), Some(1), 0, 0, false)
    ensures t.slots == map[0 := Live(2, 1)]
    ensures t.rows.Keys == {1, 2} && t.rows[1].status == Done
    ensures t.exec.Superseding? && t.exec.id == 2
  {
    var s := UpdateLandsUnseen();
    s := Take(s, 2, 1);
    assert s.exec.Updating?;
    s := Call(s, Fine);
    assert s.exec.Refreshing?;
    t := Call(s, Fine);
  }

  lemma OnlyTheReplanKnows() returns (t: Cell)
    ensures Got(t) && Managed(t.site) && t.log == CLEAN && t.exec == Replanning
    ensures !OpenOp(t) && Tracked(t) && !t.proj.failed && !Diverged(t.proj) && Suspicious(t)
  {
    var s := RetryRefreshesEtag();
    t := Record(s, 1);
  }

  /** The op is marked superseded and the process dies before the replan request is written.
      Nothing is queued, the diff sees no divergence, ingest sees no drift, and Google holds the
      wrong content. */
  lemma CrashBeforeReplanMasks() returns (t: Cell)
    ensures Reachable(t) && Quiescent(t) && Tracked(t) && !Diverged(t.proj)
    ensures !t.log.everFailed && !t.log.unmapped && !t.log.relinked
    ensures !Exact(t) && !DriftVisible(t)
  {
    var s := OnlyTheReplanKnows();
    GotIsReachable(s);
    ReachableIsOk(s);
    CrashMasksExactly(s);
    t := Crash(s);
    GotIsReachable(t);
  }
}
