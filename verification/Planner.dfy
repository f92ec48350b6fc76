/** From ledger rows to desired projections (app/ledger/planner.py:52-190, 277-472, 478-624). */
module Planner {
  import opened Base
  import opened Protocol
  import opened Payload
  import GoogleModel
  import OutboxTable
  import R = Renderer

  // ---------------------------------------------------------------------------
  // Roles
  // ---------------------------------------------------------------------------

  /** Desired state by role. */
  datatype Roles = Roles(main: R.State, peers: R.State, origin: R.State)

  const NOWHERE := Roles(R.Absent, R.Absent, R.Absent)

  /** What other ledger rows say about this one. */
  datatype Context = Context(parentInactive: bool, noLiveOccurrences: bool, redundant: bool)

  predicate Declined(row: R.Row, c: R.Settings) {
    c.declinedFreesSlot && row.rsvp == Some("declined")
  }

  /** `_compute_desired_projections`; None is the error raised for an unknown source type. */
  function ComputeDesired(row: R.Row, x: Context, c: R.Settings): Option<Roles> {
    if row.deleted || row.status == R.Cancelled || x.parentInactive || x.noLiveOccurrences || x.redundant then Some(NOWHERE)
    else
      var free := row.showAs == Some("free");
      match row.source
      case MainNative =>
        Some(Roles(R.Absent, if !free && !Declined(row, c) then R.Busy else R.Absent, R.Absent))
      case ClientEvent =>
        Some(Roles(R.Full, if !free && !Declined(row, c) then R.Busy else R.Absent,
                   if R.Set(row.rsvp) || row.canEdit then R.RsvpOnly else R.Absent))
      case PersonalEvent =>
        if row.timing.allDay && !c.syncPersonalAllDay then Some(NOWHERE)
        else Some(Roles(R.PersonalBusy, R.PersonalBusy, R.Absent))
      case WebcalEvent =>
        var placed := row.placementKind == Some("client") && row.placementResolved.Some?;
        Some(Roles(R.Full, if !free then R.Busy else R.Absent, if placed then R.Full else R.Absent))
      case Unknown => None
  }

  // ---------------------------------------------------------------------------
  // Targets
  // ---------------------------------------------------------------------------

  /** The client calendar that takes the origin's role, if any. */
  function OriginOf(row: R.Row): Option<nat> {
    if row.source == R.WebcalEvent && row.placementResolved.Some? then row.placementResolved
    else if row.source == R.ClientEvent then row.sourceCalendar
    else None
  }

  function ClientState(row: R.Row, roles: Roles, cal: nat): R.State {
    if OriginOf(row) == Some(cal) then roles.origin else roles.peers
  }

  datatype Goal = Goal(target: R.Target, state: R.State)

  function Goals(row: R.Row, roles: Roles, clients: seq<nat>): seq<Goal> {
    [Goal(R.OnMain, roles.main)] +
    seq(|clients|, i requires 0 <= i < |clients| => Goal(R.OnClient(clients[i]), ClientState(row, roles, clients[i])))
  }

  method ResolveTargets(row: R.Row, roles: Roles, clients: seq<nat>) returns (out: seq<Goal>)
    ensures out == Goals(row, roles, clients)
  {
    out := [Goal(R.OnMain, roles.main)];
    var origin, sameIdSpace := row.sourceCalendar, row.source == R.ClientEvent;
    if row.source == R.WebcalEvent && row.placementResolved.Some? {
      origin, sameIdSpace := row.placementResolved, true;
    }
    for i := 0 to |clients|
      invariant out == Goals(row, roles, clients[..i])
    {
      var state := roles.peers;
      if sameIdSpace && Some(clients[i]) == origin {
        state := roles.origin;
      }
      assert clients[..i + 1][..i] == clients[..i];
      out := out + [Goal(R.OnClient(clients[i]), state)];
      assert out == Goals(row, roles, clients[..i + 1]);
    }
    assert clients[..|clients|] == clients;
  }

  // ---------------------------------------------------------------------------
  // What a peer calendar can learn
  // ---------------------------------------------------------------------------

  /** Rows that agree on all a peer may depend on: source kind and ids, webcal placement, lifecycle,
      show-as, RSVP and timing. */
  predicate PeersAgree(a: R.Row, b: R.Row) {
    && a.source == b.source && a.sourceCalendar == b.sourceCalendar
    && a.placementKind == b.placementKind && a.placementResolved == b.placementResolved
    && a.status == b.status && a.deleted == b.deleted
    && a.showAs == b.showAs && a.rsvp == b.rsvp && a.timing == b.timing
  }

  /** Titles, descriptions, locations, attendees, links, colours and edit rights never reach a peer:
      same state, same body, whatever they are. */
  lemma PeersLearnNothingElse(a: R.Row, b: R.Row, x: Context, c: R.Settings, cal: nat)
    requires PeersAgree(a, b) && OriginOf(a) != Some(cal) && ComputeDesired(a, x, c).Some?
    ensures OriginOf(b) != Some(cal) && ComputeDesired(b, x, c).Some?
    ensures var sa := ClientState(a, ComputeDesired(a, x, c).value, cal);
            var sb := ClientState(b, ComputeDesired(b, x, c).value, cal);
            sa == sb && R.Render(sa, a, R.OnClient(cal), c) == R.Render(sb, b, R.OnClient(cal), c)
  {
  }

  /** Only the client a meeting came from, or the client an active webcal feed is placed on, gets
      more than a busy block; the former only ever gets a patch of its own event. */
  lemma OnlyTheOriginGetsMore(row: R.Row, x: Context, c: R.Settings, cal: nat)
    requires ComputeDesired(row, x, c).Some?
    ensures var s := ClientState(row, ComputeDesired(row, x, c).value, cal);
            || R.AtMostBusy(s)
            || (s == R.RsvpOnly && row.source == R.ClientEvent && row.sourceCalendar == Some(cal))
            || (s == R.Full && row.source == R.WebcalEvent && row.placementKind == Some("client") && row.placementResolved == Some(cal))
  {
  }

  /** A gone event is gone everywhere. */
  lemma InactiveIsAbsentEverywhere(row: R.Row, x: Context, c: R.Settings, clients: seq<nat>)
    requires row.deleted || row.status == R.Cancelled || x.parentInactive || x.noLiveOccurrences || x.redundant
    ensures ComputeDesired(row, x, c).Some?
    ensures forall g :: g in Goals(row, ComputeDesired(row, x, c).value, clients) ==> g.state == R.Absent
  {
  }

  /** A feed placed on main whose subscription still names an active client leaves that client with
      nothing, not even the busy block its peers get: the origin's role is given by the id alone. */
  lemma MainPlacementSkipsItsClient(row: R.Row, c: R.Settings, cal: nat)
    requires row.source == R.WebcalEvent && row.placementKind == Some("main") && row.placementResolved == Some(cal)
    requires !row.deleted && row.status != R.Cancelled && row.showAs != Some("free")
    ensures var roles := ComputeDesired(row, Context(false, false, false), c).value;
            && ClientState(row, roles, cal) == R.Absent
            && forall other :: other != cal ==> ClientState(row, roles, other) == R.Busy
  {
  }

  // ---------------------------------------------------------------------------
  // Whose time an event takes
  // ---------------------------------------------------------------------------

  /** Nothing makes the event gone. */
  predicate InForce(row: R.Row, x: Context) {
    !row.deleted && row.status != R.Cancelled && !x.parentInactive && !x.noLiveOccurrences && !x.redundant
  }

  /** The meeting occupies the user: it is not shown as free, and it is not a declined meeting of a
      calendar that has responses, where declining frees the slot. */
  predicate Occupies(row: R.Row, c: R.Settings) {
    && row.showAs != Some("free")
    && !(c.declinedFreesSlot && row.rsvp == Some("declined") && row.source != R.WebcalEvent)
  }

  /** Anybody looking at the calendar sees the time as taken. */
  predicate TakesTime(body: Option<R.Body>) {
    body.Some? && !(R.Transparency in body.value && body.value[R.Transparency] == R.Str("transparent"))
  }

  /** A calendar's goal in the plan of an event. */
  predicate Wanted(row: R.Row, x: Context, c: R.Settings, clients: seq<nat>, g: Goal) {
    ComputeDesired(row, x, c).Some? && g in Goals(row, ComputeDesired(row, x, c).value, clients)
  }

  /** A meeting of main, of a client or of a feed blocks exactly the clients it does not come from, and
      exactly if it occupies the user. */
  lemma PeersAreBlockedExactly(row: R.Row, x: Context, c: R.Settings, clients: seq<nat>, cal: nat, state: R.State)
    requires row.source == R.MainNative || row.source == R.ClientEvent || row.source == R.WebcalEvent
    requires InForce(row, x) && Wanted(row, x, c, clients, Goal(R.OnClient(cal), state))
    requires row.source == R.ClientEvent ==> row.sourceCalendar != Some(cal)
    requires row.source == R.WebcalEvent ==> row.placementResolved != Some(cal)
    ensures state == if Occupies(row, c) then R.Busy else R.Absent
    ensures TakesTime(R.Render(state, row, R.OnClient(cal), c)) <==> Occupies(row, c)
  {
  }

  /** A personal event blocks main and every client, whatever its response or show-as, unless it is an
      all-day event and those are suppressed. */
  lemma PersonalBlocksEverywhere(row: R.Row, x: Context, c: R.Settings, clients: seq<nat>, g: Goal)
    requires row.source == R.PersonalEvent && InForce(row, x) && Wanted(row, x, c, clients, g)
    ensures g.state == if row.timing.allDay && !c.syncPersonalAllDay then R.Absent else R.PersonalBusy
    ensures TakesTime(R.Render(g.state, row, g.target, c)) <==> !row.timing.allDay || c.syncPersonalAllDay
  {
  }

  /** Main gets the full copy of what a client or a feed holds, and none of what it holds itself; a
      client's meeting takes the time on main exactly if it takes it on the other clients. */
  lemma MainShowsTheMeeting(row: R.Row, x: Context, c: R.Settings, clients: seq<nat>, state: R.State)
    requires InForce(row, x) && Wanted(row, x, c, clients, Goal(R.OnMain, state))
    ensures state == R.Full <==> row.source == R.ClientEvent || row.source == R.WebcalEvent
    ensures row.source == R.MainNative ==> state == R.Absent
    ensures row.source == R.ClientEvent ==> (TakesTime(R.Render(state, row, R.OnMain, c)) <==> Occupies(row, c))
  {
    MainGoal(row, x, c, clients, state);
    if row.source == R.ClientEvent { R.FullCopyTakesTime(row, R.OnMain, c); }
  }

  lemma MainGoal(row: R.Row, x: Context, c: R.Settings, clients: seq<nat>, state: R.State)
    requires Wanted(row, x, c, clients, Goal(R.OnMain, state))
    ensures state == ComputeDesired(row, x, c).value.main
  {
  }

  /** The client a meeting comes from is patched exactly if there is something to write back; the client a
      feed is placed on gets the full copy exactly if the placement names clients. */
  lemma OriginIsServedExactly(row: R.Row, x: Context, c: R.Settings, clients: seq<nat>, cal: nat, state: R.State)
    requires InForce(row, x) && Wanted(row, x, c, clients, Goal(R.OnClient(cal), state))
    ensures row.source == R.ClientEvent && row.sourceCalendar == Some(cal) ==>
              state == if R.Set(row.rsvp) || row.canEdit then R.RsvpOnly else R.Absent
    ensures row.source == R.WebcalEvent && row.placementResolved == Some(cal) ==>
              state == if row.placementKind == Some("client") then R.Full else R.Absent
  {
  }

  /** Every calendar of the user has exactly one goal. */
  lemma EveryCalendarHasAGoal(row: R.Row, x: Context, c: R.Settings, clients: seq<nat>, cal: nat)
    requires ComputeDesired(row, x, c).Some?
    ensures exists state :: Wanted(row, x, c, clients, Goal(R.OnMain, state))
    ensures cal in clients <==> exists state :: Wanted(row, x, c, clients, Goal(R.OnClient(cal), state))
    ensures forall t, a, b :: Wanted(row, x, c, clients, Goal(t, a)) && Wanted(row, x, c, clients, Goal(t, b)) ==> a == b
  {
    var roles := ComputeDesired(row, x, c).value;
    var goals := Goals(row, roles, clients);
    assert goals[0] == Goal(R.OnMain, roles.main);
    forall g | g in goals ensures g.state == if g.target.OnMain? then roles.main else ClientState(row, roles, g.target.id) {
      var i :| 0 <= i < |goals| && goals[i] == g;
    }
    if cal in clients {
      var i :| 0 <= i < |clients| && clients[i] == cal;
      assert goals[i + 1] == Goal(R.OnClient(cal), ClientState(row, roles, cal));
    }
  }

  // ---------------------------------------------------------------------------
  // Persisting
  // ---------------------------------------------------------------------------

  type Projections = map<R.Target, Projection>

  /** State and hash together; the hash of a rendered body is `digest`. */
  function WantOf(state: R.State, row: R.Row, target: R.Target, c: R.Settings, digest: (R.State, R.Body) -> nat): Want {
    var body := R.Render(state, row, target, c);
    if body.None? then Nothing else Copy(digest(state, body.value))
  }

  predicate ArmedOrigin(row: R.Row, target: R.Target) {
    row.writebackPending && target.OnClient? && row.sourceCalendar == Some(target.id)
  }

  function NewProjection(want: Want, version: nat): Projection {
    Projection(want, version, None, None, Protocol.Unknown, None, None, 0, 0, false)
  }

  function Upserted(ps: Projections, g: Goal, row: R.Row, c: R.Settings, digest: (R.State, R.Body) -> nat): Projection {
    var want := WantOf(g.state, row, g.target, c, digest);
    if g.target in ps then Replan(ps[g.target], want, row.version, ArmedOrigin(row, g.target))
    else NewProjection(want, row.version)
  }

  /** All projections of one event after its plan. */
  function Planned(ps: Projections, goals: seq<Goal>, row: R.Row, c: R.Settings, digest: (R.State, R.Body) -> nat): Projections {
    map t | t in ps.Keys + TargetsOf(goals) ::
      if t in TargetsOf(goals) then Upserted(ps, Goal(t, StateFor(goals, t)), row, c, digest)
      else ImplicitAbsent(ps[t], row.version)
  }

  function TargetsOf(goals: seq<Goal>): set<R.Target> {
    set i | 0 <= i < |goals| :: goals[i].target
  }

  predicate OncePerTarget(goals: seq<Goal>) {
    forall i, j :: 0 <= i < j < |goals| ==> goals[i].target != goals[j].target
  }

  function StateFor(goals: seq<Goal>, t: R.Target): R.State
    requires t in TargetsOf(goals)
  {
    if goals[0].target == t then goals[0].state
    else
      assert t in TargetsOf(goals[1..]) by {
        var i :| 0 <= i < |goals| && goals[i].target == t;
        assert goals[1..][i - 1].target == t;
      }
      StateFor(goals[1..], t)
  }

  lemma {:induction false} StateForAt(goals: seq<Goal>, i: nat)
    requires i < |goals| && OncePerTarget(goals)
    ensures goals[i].target in TargetsOf(goals) && StateFor(goals, goals[i].target) == goals[i].state
  {
    if i > 0 {
      assert goals[1..][i - 1] == goals[i];
      StateForAt(goals[1..], i - 1);
    }
  }

  lemma {:induction false} AllAbsent(goals: seq<Goal>, t: R.Target)
    requires t in TargetsOf(goals) && forall g :: g in goals ==> g.state == R.Absent
    ensures StateFor(goals, t) == R.Absent
    decreases |goals|
  {
    if goals[0].target != t {
      var i :| 0 <= i < |goals| && goals[i].target == t;
      assert goals[1..][i - 1].target == t;
      AllAbsent(goals[1..], t);
    }
  }

  // ---------------------------------------------------------------------------
  // Planning twice
  // ---------------------------------------------------------------------------

  lemma ReplanIsIdempotent(p: Projection, want: Want, version: nat, armed: bool)
    ensures Replan(Replan(p, want, version, armed), want, version, armed) == Replan(p, want, version, armed)
    ensures ImplicitAbsent(ImplicitAbsent(p, version), version) == ImplicitAbsent(p, version)
  {
  }

  /** Planning an unchanged event again changes nothing. */
  lemma PlanIsAFixedPoint(ps: Projections, goals: seq<Goal>, row: R.Row, c: R.Settings, digest: (R.State, R.Body) -> nat)
    ensures var once := Planned(ps, goals, row, c, digest); Planned(once, goals, row, c, digest) == once
  {
    var once := Planned(ps, goals, row, c, digest);
    var twice := Planned(once, goals, row, c, digest);
    assert twice.Keys == once.Keys;
    forall t | t in once ensures twice[t] == once[t] {
      if t in TargetsOf(goals) {
        var want := WantOf(StateFor(goals, t), row, t, c, digest);
        var p := if t in ps then ps[t] else NewProjection(want, row.version);
        ReplanIsIdempotent(p, want, row.version, ArmedOrigin(row, t));
      } else {
        ReplanIsIdempotent(ps[t], Nothing, row.version, false);
      }
    }
  }

  /** A projection that already wants what the plan says, and is not the armed origin, is left
      untouched; if it has converged the next diff does not see it. */
  lemma ConvergedIsUntouched(ps: Projections, goals: seq<Goal>, row: R.Row, c: R.Settings, digest: (R.State, R.Body) -> nat, t: R.Target)
    requires t in ps && t in TargetsOf(goals)
    requires row.writebackPending && t.OnClient? ==> row.sourceCalendar != Some(t.id)
    requires ps[t].desired == WantOf(StateFor(goals, t), row, t, c, digest)
    ensures Planned(ps, goals, row, c, digest)[t] == ps[t]
    ensures ps[t].applied == Some(ps[t].desired) && ps[t].appliedVersion == Some(ps[t].desiredVersion) ==>
      !Diverged(Planned(ps, goals, row, c, digest)[t])
  {
  }

  /** While an edit of main waits to be written back, the client the event comes from is visited by the next
      diff whenever the event's version has moved on, even if what it should hold has not. */
  lemma ArmedOriginIsVisited(ps: Projections, goals: seq<Goal>, row: R.Row, c: R.Settings, digest: (R.State, R.Body) -> nat, cal: nat)
    requires R.OnClient(cal) in ps && R.OnClient(cal) in TargetsOf(goals) && !ps[R.OnClient(cal)].failed
    requires row.writebackPending && row.sourceCalendar == Some(cal)
    requires ps[R.OnClient(cal)].appliedVersion != Some(row.version)
    ensures Diverged(Planned(ps, goals, row, c, digest)[R.OnClient(cal)])
  {
  }

  /** Every target outside the resolved set is wanted absent and is not stuck. */
  lemma OutsideIsAbsent(ps: Projections, goals: seq<Goal>, row: R.Row, c: R.Settings, digest: (R.State, R.Body) -> nat, t: R.Target)
    requires t in ps && t !in TargetsOf(goals)
    ensures var p := Planned(ps, goals, row, c, digest)[t]; p.desired.Nothing? && !p.failed
  {
  }

  /** A projection the planner opens is one the pipeline starts from, and its first op is a create. */
  lemma NewProjectionIsInitial(site: Site, want: Want, version: nat, flags: Flags, event: GoogleModel.SourceEvent, tick: nat)
    requires !flags.patchArmed && !flags.deleteArmed && event.writes == [] && (site.isInstance ==> IsOriginWriteback(site))
    ensures var p := NewProjection(want, version);
            && Init(Cell(site, p, map[], map[], tick, Idle, flags, event, Log(false, false, false, false)))
            && Diverged(p)
            && (!IsOriginWriteback(site) && !IsLegacyPersonal(site) ==>
                  Decide(site, p, flags, true) == if want.Nothing? then None else Some(OutboxTable.Create))
  {
  }

  /** A plan that changes the wish brings even a failed projection back to the diff; one that does not
      change it leaves a failed projection failed. */
  lemma FailureLastsUntilTheWishChanges(p: Projection, want: Want, version: nat, armed: bool)
    requires p.applied == Some(p.desired) || p.failed
    ensures p.desired != want && p.applied != Some(want) ==> Diverged(Replan(p, want, version, armed))
    ensures p.desired == want && p.failed ==> !Diverged(Replan(p, want, version, armed))
    ensures Replan(p, want, version, armed).desired == want
  {
  }

  // ---------------------------------------------------------------------------
  // The tables of one user
  // ---------------------------------------------------------------------------

  type Events = map<nat, R.Row>

  predicate InactiveRow(row: R.Row) {
    row.status == R.Cancelled || row.deleted
  }

  /** `noLive` stands for the expansion of a finite recurrence rule against the cancelled children. */
  function ContextOf(events: Events, id: nat, noLive: nat -> bool): Context
    requires id in events
  {
    var row := events[id];
    Context(
      row.parent.Some? && exists k :: k in events && events[k].uid == row.parent.value && InactiveRow(events[k]),
      row.parent.None? && row.isRecurring && noLive(id),
      row.source == R.MainNative && R.Set(row.icalUid) &&
        exists k :: k in events && events[k].icalUid == row.icalUid && events[k].source != R.MainNative && events[k].status == R.Active)
  }

  /** Two ledgers whose rows agree one by one on identity and on all a peer may depend on. */
  ghost predicate LedgersAgree(a: Events, b: Events) {
    a.Keys == b.Keys &&
    forall k :: k in a ==>
      && PeersAgree(a[k], b[k])
      && a[k].uid == b[k].uid && a[k].parent == b[k].parent && a[k].isRecurring == b[k].isRecurring
      && a[k].icalUid == b[k].icalUid
  }

  /** What other rows say of an event does not depend on their private text either. */
  lemma ContextsAgree(a: Events, b: Events, id: nat, noLive: nat -> bool)
    requires LedgersAgree(a, b) && id in a
    ensures ContextOf(a, id, noLive) == ContextOf(b, id, noLive)
  {
  }

  /** So a peer's projection of an event wants the same state, body and hash in two ledgers that differ
      in nothing but titles, descriptions, locations, attendees, links, colours and edit rights, of this
      event or of any other. */
  lemma PeersLearnNothingFromTheLedger(a: Events, b: Events, id: nat, noLive: nat -> bool, c: R.Settings,
                                       digest: (R.State, R.Body) -> nat, cal: nat)
    requires LedgersAgree(a, b) && id in a && OriginOf(a[id]) != Some(cal)
    requires ComputeDesired(a[id], ContextOf(a, id, noLive), c).Some?
    ensures OriginOf(b[id]) != Some(cal) && ComputeDesired(b[id], ContextOf(b, id, noLive), c).Some?
    ensures var sa := ClientState(a[id], ComputeDesired(a[id], ContextOf(a, id, noLive), c).value, cal);
            var sb := ClientState(b[id], ComputeDesired(b[id], ContextOf(b, id, noLive), c).value, cal);
            && sa == sb && R.Render(sa, a[id], R.OnClient(cal), c) == R.Render(sb, b[id], R.OnClient(cal), c)
            && WantOf(sa, a[id], R.OnClient(cal), c, digest) == WantOf(sb, b[id], R.OnClient(cal), c, digest)
  {
    ContextsAgree(a, b, id, noLive);
    PeersLearnNothingElse(a[id], b[id], ContextOf(a, id, noLive), c, cal);
  }

  function ProjectionsOf(projs: map<nat, Projections>, id: nat): Projections {
    if id in projs then projs[id] else map[]
  }

  class PlanStore {
    const clients: seq<nat>
    const settings: R.Settings
    const digest: (R.State, R.Body) -> nat
    const noLive: nat -> bool
    var events: Events
    var projs: map<nat, Projections>

    constructor (clients: seq<nat>, settings: R.Settings, digest: (R.State, R.Body) -> nat, noLive: nat -> bool, events: Events)
      requires forall i, j :: 0 <= i < j < |clients| ==> clients[i] != clients[j]
      ensures Valid() && this.events == events && projs == map[]
    {
      this.clients := clients;
      this.settings := settings;
      this.digest := digest;
      this.noLive := noLive;
      this.events := events;
      this.projs := map[];
    }

    /** Client calendars have distinct ids. */
    ghost predicate Valid()
      reads this
    {
      forall i, j :: 0 <= i < j < |clients| ==> clients[i] != clients[j]
    }

    /** What planning one event, without its children, makes of its projections; None is the error. */
    function PlanOf(id: nat, ps: Projections): Option<Projections>
      requires id in events
      reads this`events
    {
      var row := events[id];
      if row.status == R.Released then Some(ps)
      else
        var roles := ComputeDesired(row, ContextOf(events, id, noLive), settings);
        if roles.None? then None
        else Some(Planned(ps, Goals(row, roles.value, clients), row, settings, digest))
    }

    /** Replanning an unchanged event is a fixed point. */
    lemma PlanningAgainChangesNothing(id: nat, ps: Projections)
      requires id in events && PlanOf(id, ps).Some?
      ensures PlanOf(id, PlanOf(id, ps).value) == PlanOf(id, ps)
    {
      var row := events[id];
      var roles := ComputeDesired(row, ContextOf(events, id, noLive), settings);
      if row.status != R.Released {
        PlanIsAFixedPoint(ps, Goals(row, roles.value, clients), row, settings, digest);
      }
    }

    /** What a planned event wants of a client: its state there, by the event's role. */
    lemma PlanForClient(id: nat, ps: Projections, cal: nat)
      requires id in events && events[id].status != R.Released && PlanOf(id, ps).Some? && cal in clients && Valid()
      ensures R.OnClient(cal) in PlanOf(id, ps).value
      ensures var row := events[id];
              PlanOf(id, ps).value[R.OnClient(cal)].desired ==
              WantOf(ClientState(row, ComputeDesired(row, ContextOf(events, id, noLive), settings).value, cal),
                     row, R.OnClient(cal), settings, digest)
    {
      var row := events[id];
      var goals := Goals(row, ComputeDesired(row, ContextOf(events, id, noLive), settings).value, clients);
      GoalsAreOncePerTarget(row, ComputeDesired(row, ContextOf(events, id, noLive), settings).value, clients);
      var i :| 0 <= i < |clients| && clients[i] == cal;
      assert goals[i + 1].target == R.OnClient(cal);
      StateForAt(goals, i + 1);
    }

    /** A meeting of main blocks a client exactly if it occupies the user, nobody cancelled it or its series,
        some occurrence is left, and no other source holds the same meeting as active: blocking is then left
        to that one. */
    lemma MainMeetingBlocksExactly(id: nat, ps: Projections, cal: nat)
      requires Valid() && id in events && cal in clients && PlanOf(id, ps).Some?
      requires events[id].source == R.MainNative && events[id].status != R.Released
      ensures R.OnClient(cal) in PlanOf(id, ps).value
      ensures PlanOf(id, ps).value[R.OnClient(cal)].desired.Copy? <==>
        && Occupies(events[id], settings) && !InactiveRow(events[id])
        && (forall k :: k in events && InactiveRow(events[k]) ==> events[id].parent != Some(events[k].uid))
        && (events[id].parent.None? && events[id].isRecurring ==> !noLive(id))
        && (R.Set(events[id].icalUid) ==>
              forall k :: k in events && events[k].status == R.Active && events[k].source != R.MainNative ==>
                events[k].icalUid != events[id].icalUid)
    {
      PlanForClient(id, ps, cal);
    }

    /** Once a series is cancelled or deleted, the plan of each of its modified instances wants nothing
        anywhere. */
    lemma CancelledSeriesIsGone(master: nat, id: nat, ps: Projections, t: R.Target)
      requires id in events && master in events && InactiveRow(events[master]) && events[id].parent == Some(events[master].uid)
      requires events[id].status != R.Released
      ensures PlanOf(id, ps).Some?
      ensures t in PlanOf(id, ps).value ==> PlanOf(id, ps).value[t].desired.Nothing?
    {
      var row := events[id];
      var goals := Goals(row, NOWHERE, clients);
      assert ContextOf(events, id, noLive).parentInactive;
      if t in TargetsOf(goals) { NowhereIsAbsent(row, t); }
    }

    lemma NowhereIsAbsent(row: R.Row, t: R.Target)
      requires t in TargetsOf(Goals(row, NOWHERE, clients))
      ensures StateFor(Goals(row, NOWHERE, clients), t) == R.Absent
    {
      AllAbsent(Goals(row, NOWHERE, clients), t);
    }

    method UpsertProjection(id: nat, g: Goal, row: R.Row)
      modifies this`projs
      ensures var ps := ProjectionsOf(old(projs), id);
              projs == old(projs)[id := ps[g.target := Upserted(ps, g, row, settings, digest)]]
    {
      var ps := ProjectionsOf(projs, id);
      var want := WantOf(g.state, row, g.target, settings, digest);
      if g.target !in ps {
        projs := projs[id := ps[g.target := NewProjection(want, row.version)]];
        return;
      }
      var p := ps[g.target];
      var armed := ArmedOrigin(row, g.target);
      if p.desired == want && !armed {
        projs := projs[id := ps];
        assert ps == ps[g.target := p];
        return;
      }
      var changed := p.desired != want;
      p := p.(desired := want, desiredVersion := row.version, failed := if changed then false else p.failed);
      projs := projs[id := ps[g.target := p]];
    }

    method MarkImplicitAbsent(id: nat, keep: set<R.Target>, version: nat)
      modifies this`projs
      ensures var ps := ProjectionsOf(old(projs), id);
              projs == old(projs)[id := map t | t in ps :: if t in keep then ps[t] else ImplicitAbsent(ps[t], version)]
    {
      ghost var before := projs;
      var ps := ProjectionsOf(projs, id);
      var next, rest := ps, ps.Keys - keep;
      while rest != {}
        invariant next.Keys == ps.Keys && rest <= ps.Keys - keep
        invariant forall t :: t in ps ==> next[t] == if t in keep || t in rest then ps[t] else ImplicitAbsent(ps[t], version)
        decreases |rest|
      {
        var t :| t in rest;
        rest := rest - {t};
        if !(next[t].desired.Nothing? && !next[t].failed) {
          next := next[t := next[t].(desired := Nothing, desiredVersion := version, failed := false)];
        }
      }
      assert next == map t | t in ps :: if t in keep then ps[t] else ImplicitAbsent(ps[t], version);
      projs := projs[id := next];
    }

    /** The event and, for a series master, its modified instances. */
    function Concerned(id: nat): set<nat>
      requires id in events
      reads this`events
    {
      {id} + if events[id].parent.Some? || !events[id].isRecurring then {}
             else set k | k in events && events[k].parent == Some(events[id].uid)
    }

    /** Exactly these events are planned. */
    ghost predicate PlannedExactly(before: map<nat, Projections>, after: map<nat, Projections>, ids: set<nat>)
      requires ids <= events.Keys
      reads this`events
    {
      && (forall k :: k !in ids ==> ProjectionsOf(after, k) == ProjectionsOf(before, k))
      && (forall k :: k in ids ==> PlanOf(k, ProjectionsOf(before, k)) == Some(ProjectionsOf(after, k)))
    }

    /** Plan an event and its modified instances.  It stops at the first row of an unknown source
        type; without one, exactly the events concerned are planned. */
    method PlanForLedgerEvent(id: nat) returns (ok: bool, ghost done: set<nat>)
      requires Valid() && id in events
      modifies this`projs
      ensures done <= Concerned(id) && PlannedExactly(old(projs), projs, done)
      ensures events[id].status == R.Released ==> ok && projs == old(projs)
      ensures events[id].status != R.Released ==> (ok <==> done == Concerned(id))
      ensures !ok ==> exists k :: k in Concerned(id) && PlanOf(k, ProjectionsOf(old(projs), k)).None?
      ensures ok && events[id].status != R.Released ==>
        && PlanOf(id, ProjectionsOf(old(projs), id)) == Some(ProjectionsOf(projs, id))
        && forall k :: k in events && k != id ==>
             if events[k].parent == Some(events[id].uid) && events[id].parent.None? && events[id].isRecurring
             then PlanOf(k, ProjectionsOf(old(projs), k)) == Some(ProjectionsOf(projs, k))
             else ProjectionsOf(projs, k) == ProjectionsOf(old(projs), k)
    {
      if events[id].status == R.Released {
        return true, {};
      }
      ok, done := PlanAll(Concerned(id), id);
    }

    /** The event first, then its instances. */
    method PlanAll(ids: set<nat>, first: nat) returns (ok: bool, ghost done: set<nat>)
      requires Valid() && ids <= events.Keys
      modifies this`projs
      ensures done <= ids && PlannedExactly(old(projs), projs, done) && (ok <==> done == ids)
      ensures !ok ==> exists k :: k in ids && PlanOf(k, ProjectionsOf(old(projs), k)).None?
    {
      done := {};
      ghost var before := projs;
      var rest := ids;
      while rest != {}
        invariant rest <= ids && done == ids - rest && PlannedExactly(before, projs, done)
        decreases |rest|
      {
        var k :| k in rest && (first in rest ==> k == first);
        ok := PlanNext(k, before, done);
        if !ok {
          return;
        }
        rest := rest - {k};
        done := done + {k};
      }
      ok := true;
    }

    method PlanNext(k: nat, ghost before: map<nat, Projections>, ghost done: set<nat>) returns (ok: bool)
      requires Valid() && k in events && done <= events.Keys && k !in done && PlannedExactly(before, projs, done)
      modifies this`projs
      ensures ok ==> PlannedExactly(before, projs, done + {k})
      ensures !ok ==> PlannedExactly(before, projs, done) && PlanOf(k, ProjectionsOf(before, k)).None?
    {
      ok := PlanSelf(k);
    }

    /** Upsert every target, mark the others absent. */
    method PlanSelf(id: nat) returns (ok: bool)
      requires Valid() && id in events
      modifies this`projs
      ensures var plan := PlanOf(id, ProjectionsOf(old(projs), id));
              ok == plan.Some? && ProjectionsOf(projs, id) == if ok then plan.value else ProjectionsOf(old(projs), id)
      ensures forall k :: k != id ==> ProjectionsOf(projs, k) == ProjectionsOf(old(projs), k)
    {
      var row := events[id];
      if row.status == R.Released {
        return true;
      }
      var roles := ComputeDesired(row, ContextOf(events, id, noLive), settings);
      if roles.None? {
        return false;
      }
      ghost var ps := ProjectionsOf(projs, id);
      var goals := ResolveTargets(row, roles.value, clients);
      GoalsAreOncePerTarget(row, roles.value, clients);
      for i := 0 to |goals|
        invariant ProjectionsOf(projs, id) == Midway(ps, goals[..i], row, settings, digest)
        invariant forall k :: k != id ==> ProjectionsOf(projs, k) == ProjectionsOf(old(projs), k)
      {
        MidwayStep(ps, goals, i, row, settings, digest);
        UpsertProjection(id, goals[i], row);
      }
      assert goals[..|goals|] == goals;
      MarkImplicitAbsent(id, TargetsOf(goals), row.version);
      MidwayEnds(ps, goals, row, settings, digest);
      ok := true;
    }
  }

  lemma GoalsAreOncePerTarget(row: R.Row, roles: Roles, clients: seq<nat>)
    requires forall i, j :: 0 <= i < j < |clients| ==> clients[i] != clients[j]
    ensures OncePerTarget(Goals(row, roles, clients))
  {
  }

  /** The goals so far are upserted, the rest of the projections are as they were. */
  function Midway(ps: Projections, goals: seq<Goal>, row: R.Row, c: R.Settings, digest: (R.State, R.Body) -> nat): Projections {
    map t | t in ps.Keys + TargetsOf(goals) ::
      if t in TargetsOf(goals) then Upserted(ps, Goal(t, StateFor(goals, t)), row, c, digest) else ps[t]
  }

  lemma MidwayStep(ps: Projections, goals: seq<Goal>, i: nat, row: R.Row, c: R.Settings, digest: (R.State, R.Body) -> nat)
    requires i < |goals| && OncePerTarget(goals)
    ensures var m := Midway(ps, goals[..i], row, c, digest);
            Midway(ps, goals[..i + 1], row, c, digest) == m[goals[i].target := Upserted(m, goals[i], row, c, digest)]
  {
    var a, b := goals[..i], goals[..i + 1];
    assert b == a + [goals[i]];
    forall t ensures t in TargetsOf(b) <==> t in TargetsOf(a) || t == goals[i].target {
      if t in TargetsOf(a) { var k :| 0 <= k < i && a[k].target == t; assert b[k].target == t; }
      assert b[i].target == goals[i].target;
    }
    assert goals[i].target !in TargetsOf(a);
    StateForAt(b, i);
    forall t | t in TargetsOf(a) ensures StateFor(b, t) == StateFor(a, t) {
      var k :| 0 <= k < i && a[k].target == t;
      StateForAt(a, k);
      StateForAt(b, k);
    }
  }

  lemma MidwayEnds(ps: Projections, goals: seq<Goal>, row: R.Row, c: R.Settings, digest: (R.State, R.Body) -> nat)
    ensures var m := Midway(ps, goals, row, c, digest);
            Planned(ps, goals, row, c, digest) ==
            map t | t in m :: if t in TargetsOf(goals) then m[t] else ImplicitAbsent(m[t], row.version)
  {
  }
}
