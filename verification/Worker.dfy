/** One worker carrying one op to its end, as the code does it, in any weather: calls fail, replies
    get lost, users edit and delete the copies between calls. */
module Worker {
  import opened Base
  import opened OutboxTable
  import opened GoogleModel
  import opened Protocol

  /** How the network treats a call, how Google words its refusal of a dead id, and what users did
      just before. */
  datatype Weather = Weather(net: Net, gone: GoneReply, meanwhile: Meanwhile)

  /** The weather of the k-th call. */
  type Forecast = nat -> Weather

  function Work(e: Exec): nat {
    match e
    case Idle => 0
    case Ready(_, _) => 60
    case Creating(_, _, _, _, left) => 4 * left + 10
    case Conflicted(_, _, _, _, left) => if left > 0 then 4 * left + 9 else 12
    case Burned(_, _, _, _, left) => 4 * left + 11
    case Updating(_, _, _, _) => 9
    case Restoring(_, _, _, _) => 8
    case Refreshing(_, _, _) => 8
    case Vanished(_, _, _, _) => 7
    case Deleting(_, _, _) => 7
    case Patching(_, _) => 7
    case Removing(_, _) => 7
    case Superseding(_, _, _, _) => 6
    case _ => 5
  }

  ghost predicate Anchored(s: Cell) {
    s.exec.Idle? || s.exec.Replanning? || s.exec.id in s.rows
  }

  /** The only thing the worker can do next. */
  function Act(e: Exec, w: Weather, now: int): Action
    requires !e.Idle?
  {
    if e.Ready? then ABegin else if AtCall(e) then ASend(w.net, w.gone) else ASettle(now)
  }

  /** The create loop that has used up its tries raises without another call. */
  predicate Calls(e: Exec) {
    AtCall(e) && !(e.Creating? && e.left == 0)
  }

  function Asked(e: Exec, asked: nat): nat {
    if Calls(e) then asked + 1 else asked
  }

  function Disturbed(s: Cell, m: Meanwhile): Cell {
    s.(slots := Disturb(s.slots, s.tick, m).0, tick := Disturb(s.slots, s.tick, m).1)
  }

  /** What users did just before a call is seen by the call. */
  function Before(s: Cell, w: Weather): Cell {
    if Calls(s.exec) then Disturbed(s, w.meanwhile) else s
  }

  ghost function Step(s: Cell, w: Weather, now: int): Cell
    requires !s.exec.Idle? && Anchored(s)
  {
    Next(Before(s, w), Act(s.exec, w, now))
  }

  lemma SendProgress(s: Cell, net: Net, gone: GoneReply)
    requires AtCall(s.exec) && Anchored(s)
    ensures var t := Send(s, net, gone);
            Anchored(t) && Work(t.exec) < Work(s.exec) && t.rows == s.rows
  {
    SendFrame(s, net, gone);
    SendWorks(s, net, gone);
  }

  lemma SendWorks(s: Cell, net: Net, gone: GoneReply)
    requires AtCall(s.exec)
    ensures Work(Send(s, net, gone).exec) < Work(s.exec)
  {
    if s.exec.Creating? { InsertWorks(s, net); }
    else if s.exec.Conflicted? { ConfirmWorks(s, net); }
    else if s.exec.Restoring? || s.exec.Updating? { WriteWorks(s, net, gone); }
  }

  lemma InsertWorks(s: Cell, net: Net)
    requires s.exec.Creating?
    ensures Work(SendInsert(s, net).exec) < Work(s.exec)
  {
  }

  lemma ConfirmWorks(s: Cell, net: Net)
    requires s.exec.Conflicted?
    ensures Work(SendConfirm(s, net).exec) < Work(s.exec)
  {
  }

  lemma WriteWorks(s: Cell, net: Net, gone: GoneReply)
    requires s.exec.Restoring? || s.exec.Updating?
    ensures s.exec.Restoring? ==> Work(SendRestore(s, net, gone).exec) < Work(s.exec)
    ensures s.exec.Updating? ==> Work(SendUpdate(s, net, gone).exec) < Work(s.exec)
  {
  }

  lemma CallProgress(s: Cell, w: Weather, now: int)
    requires AtCall(s.exec) && Anchored(s)
    ensures Anchored(Step(s, w, now)) && Work(Step(s, w, now).exec) < Work(s.exec)
    ensures Step(s, w, now).rows == s.rows
  {
    SendProgress(Before(s, w), w.net, w.gone);
  }

  lemma SettleProgress(s: Cell, w: Weather, now: int)
    requires AtRecord(s.exec) && Anchored(s)
    ensures Anchored(Step(s, w, now)) && Work(Step(s, w, now).exec) < Work(s.exec)
  {
  }

  lemma Progress(s: Cell, w: Weather, now: int)
    requires !s.exec.Idle? && Anchored(s)
    ensures Anchored(Step(s, w, now)) && Work(Step(s, w, now).exec) < Work(s.exec)
  {
    if AtCall(s.exec) { CallProgress(s, w, now); }
    else if AtRecord(s.exec) { SettleProgress(s, w, now); }
  }

  /** Carry the op to its end; the second component counts the calls made so far. */
  ghost function Perform(s: Cell, f: Forecast, asked: nat, now: int): (Cell, nat)
    requires Anchored(s)
    decreases Work(s.exec)
  {
    if s.exec.Idle? then (s, asked)
    else
      Progress(s, f(asked), now);
      Perform(Step(s, f(asked), now), f, Asked(s.exec, asked), now)
  }

  /** Closed under the steps of the worker; a state comes with the number of calls made so far. */
  ghost predicate ClosedUnderSteps(f: Forecast, now: int, reach: iset<(Cell, nat)>) {
    forall u: Cell, l: nat :: (u, l) in reach && !u.exec.Idle? && Anchored(u) ==>
      (Step(u, f(l), now), Asked(u.exec, l)) in reach
  }

  /** A worker that was at `s` after `n` calls gets to `t` after `m`: `t` is in every set that holds the
      start and is closed under its steps. */
  ghost predicate Continues(f: Forecast, now: int, s: Cell, n: nat, t: Cell, m: nat) {
    Anchored(s) && Anchored(t) &&
    forall reach :: ClosedUnderSteps(f, now, reach) && (s, n) in reach ==> (t, m) in reach
  }

  lemma OneStep(f: Forecast, now: int, s: Cell, n: nat, t: Cell, m: nat)
    requires Continues(f, now, s, n, t, m) && !t.exec.Idle?
    ensures Continues(f, now, s, n, Step(t, f(m), now), Asked(t.exec, m))
  {
    Progress(t, f(m), now);
    forall reach | ClosedUnderSteps(f, now, reach) && (s, n) in reach
      ensures (Step(t, f(m), now), Asked(t.exec, m)) in reach
    {
      assert (t, m) in reach;
    }
  }

  /** Where it gets to, it goes on to the same end. */
  lemma ContinuesToTheEnd(f: Forecast, now: int, s: Cell, n: nat, t: Cell, m: nat)
    requires Continues(f, now, s, n, t, m)
    ensures Perform(s, f, n, now) == Perform(t, f, m, now)
  {
    var reach := iset u: Cell, l: nat | Anchored(u) && Perform(u, f, l, now) == Perform(s, f, n, now) :: (u, l);
    forall u: Cell, l: nat | (u, l) in reach && !u.exec.Idle? && Anchored(u)
      ensures (Step(u, f(l), now), Asked(u.exec, l)) in reach
    {
      Progress(u, f(l), now);
    }
    assert ClosedUnderSteps(f, now, reach) && (s, n) in reach;
    assert (t, m) in reach;
  }

  // ---------------------------------------------------------------------------
  // The worker is one of the actors of the transition system
  // ---------------------------------------------------------------------------

  lemma LeadsBefore(s0: Cell, s: Cell, w: Weather)
    requires Leads(s0, s)
    ensures Leads(s0, Before(s, w))
  {
    var m := w.meanwhile;
    if Calls(s.exec) && !m.Quiet? && m.gen in s.slots && s.slots[m.gen].Live? {
      LeadsStep(s0, s, if m.EditsCopy? then AUserEdit(m.gen, m.body) else AUserDelete(m.gen));
    }
  }

  /** Whatever the weather, the worker only takes steps the transition system allows. */
  lemma {:induction false} PerformLeads(s0: Cell, s: Cell, f: Forecast, asked: nat, now: int)
    requires Leads(s0, s) && Anchored(s)
    ensures Leads(s0, Perform(s, f, asked, now).0) && Perform(s, f, asked, now).0.exec.Idle?
    decreases Work(s.exec)
  {
    if !s.exec.Idle? {
      Progress(s, f(asked), now);
      LeadsBefore(s0, s, f(asked));
      LeadsStep(s0, Before(s, f(asked)), Act(s.exec, f(asked), now));
      PerformLeads(s0, Step(s, f(asked), now), f, Asked(s.exec, asked), now);
    }
  }

  /** An op that lost its payload, or an update of a copy that has no id, calls nobody, in any weather: it is
      retried, and from the sixth time on it is given up. */
  lemma NothingIsSentWithoutAPayload(s: Cell, f: Forecast, asked: nat, now: int)
    requires s.exec.Ready? && s.exec.id in s.rows
    requires s.exec.row.kind == Create || s.exec.row.kind == OpKind.Update || s.exec.row.kind == Patch
    requires s.exec.row.payload.None? || (s.exec.row.kind == OpKind.Update && s.proj.gid.None?)
    ensures var (u, n) := Perform(s, f, asked, now);
            && n == asked && u.slots == s.slots && u.event == s.event && u.exec.Idle? && s.exec.id in u.rows
            && u.rows[s.exec.id].status == (if s.exec.row.attempts >= 5 then PermanentFailure else Pending)
            && (s.exec.row.attempts < 5 ==> u.proj == s.proj) && (s.exec.row.attempts >= 5 ==> u.proj.failed)
  {
    var s1 := Step(s, f(asked), now);
    assert s1.exec == Raised(s.exec.id, s.exec.row, Local);
    var s2 := Step(s1, f(asked), now);
    assert Perform(s, f, asked, now) == Perform(s1, f, asked, now) == Perform(s2, f, asked, now) == (s2, asked);
  }

  /** A delete of a copy that has no id is done without a call, in any weather. */
  lemma NothingToDeleteIsDone(s: Cell, f: Forecast, asked: nat, now: int)
    requires s.exec.Ready? && s.exec.id in s.rows && s.exec.row.kind == OpKind.Delete && s.proj.gid.None?
    ensures var (u, n) := Perform(s, f, asked, now);
            && n == asked && u.slots == s.slots && u.event == s.event && u.exec.Idle? && s.exec.id in u.rows
            && u.rows[s.exec.id].status == Done && u.proj.current == Absent && u.proj.gid.None? && !u.proj.failed
  {
    var s1 := Step(s, f(asked), now);
    assert s1.exec == Deleted(s.exec.id, s.exec.row);
    var s2 := Step(s1, f(asked), now);
    assert Perform(s, f, asked, now) == Perform(s1, f, asked, now) == Perform(s2, f, asked, now) == (s2, asked);
  }

  // ---------------------------------------------------------------------------
  // A drain, as one projection sees it
  // ---------------------------------------------------------------------------

  /** Time passes while other projections are served, or one of our ops is claimed and carried to
      its end. */
  datatype Stride = Wait(tick: nat) | Carry(id: nat, asked: nat)

  ghost predicate CanStride(s: Cell, x: Stride, now: int) {
    s.exec == Idle &&
    match x
    case Wait(tick) => s.tick <= tick
    case Carry(id, _) => id in s.rows && IsDue(s.rows[id], s.site.user, now)
  }

  ghost function Advance(s: Cell, x: Stride, f: Forecast, now: int): Cell
    requires CanStride(s, x, now)
  {
    match x
    case Wait(tick) => s.(tick := tick)
    case Carry(id, asked) => Perform(Next(s, AClaim(id, now)), f, asked, now).0
  }

  ghost predicate Strides(s: Cell, xs: seq<Stride>, t: Cell, f: Forecast, now: int)
    decreases |xs|
  {
    if xs == [] then s == t
    else CanStride(s, xs[0], now) && Strides(Advance(s, xs[0], f, now), xs[1..], t, f, now)
  }

  /** Some strides lead from one state to the other; every claimed op is carried to its end. */
  ghost predicate Carried(s: Cell, t: Cell, f: Forecast, now: int) {
    exists xs :: Strides(s, xs, t, f, now)
  }

  lemma NotYetCarried(s: Cell, f: Forecast, now: int)
    ensures Carried(s, s, f, now)
  {
    assert Strides(s, [], s, f, now);
  }

  lemma {:induction false} OneMoreStride(s: Cell, xs: seq<Stride>, t: Cell, x: Stride, f: Forecast, now: int)
    requires Strides(s, xs, t, f, now) && CanStride(t, x, now)
    ensures Strides(s, xs + [x], Advance(t, x, f, now), f, now)
    decreases |xs|
  {
    if xs == [] {
      assert xs + [x] == [x] && [x][1..] == [];
      assert Strides(Advance(t, x, f, now), [], Advance(t, x, f, now), f, now);
    } else {
      assert (xs + [x])[1..] == xs[1..] + [x];
      OneMoreStride(Advance(s, xs[0], f, now), xs[1..], t, x, f, now);
    }
  }

  lemma {:induction false} MoreStrides(s: Cell, xs: seq<Stride>, t: Cell, ys: seq<Stride>, u: Cell, f: Forecast, now: int)
    requires Strides(s, xs, t, f, now) && Strides(t, ys, u, f, now)
    ensures Strides(s, xs + ys, u, f, now)
    decreases |ys|
  {
    if ys == [] {
      assert xs + ys == xs;
    } else {
      OneMoreStride(s, xs, t, ys[0], f, now);
      assert xs + ys == xs + [ys[0]] + ys[1..];
      MoreStrides(s, xs + [ys[0]], Advance(t, ys[0], f, now), ys[1..], u, f, now);
    }
  }

  lemma CarriedOn(s: Cell, t: Cell, u: Cell, f: Forecast, now: int)
    requires Carried(s, t, f, now) && Carried(t, u, f, now)
    ensures Carried(s, u, f, now)
  {
    var xs :| Strides(s, xs, t, f, now);
    var ys :| Strides(t, ys, u, f, now);
    MoreStrides(s, xs, t, ys, u, f, now);
  }

  lemma CarriedOnce(s: Cell, x: Stride, f: Forecast, now: int)
    requires CanStride(s, x, now)
    ensures Carried(s, Advance(s, x, f, now), f, now)
  {
    var t := Advance(s, x, f, now);
    assert Strides(t, [], t, f, now);
    assert [x][1..] == [];
    assert Strides(s, [x], t, f, now);
  }

  lemma {:induction false} StridesLead(s0: Cell, s: Cell, xs: seq<Stride>, t: Cell, f: Forecast, now: int)
    requires Leads(s0, s) && Strides(s, xs, t, f, now)
    ensures Leads(s0, t)
    decreases |xs|
  {
    if xs != [] {
      match xs[0] {
        case Wait(tick) => LeadsStep(s0, s, ATick(tick));
        case Carry(id, asked) =>
          LeadsStep(s0, s, AClaim(id, now));
          PerformLeads(s0, Next(s, AClaim(id, now)), f, asked, now);
      }
      StridesLead(s0, Advance(s, xs[0], f, now), xs[1..], t, f, now);
    }
  }

  /** A drain is a run of the transition system. */
  lemma CarriedLeads(s: Cell, t: Cell, f: Forecast, now: int)
    requires Carried(s, t, f, now)
    ensures Leads(s, t)
  {
    var xs :| Strides(s, xs, t, f, now);
    LeadsToItself(s);
    StridesLead(s, s, xs, t, f, now);
  }

  // ---------------------------------------------------------------------------
  // The worker looks at no other row than its op's
  // ---------------------------------------------------------------------------

  ghost function Widen(s: Cell, t: Table, id: nat): Cell
    requires id in s.rows
  {
    s.(rows := t[id := s.rows[id]])
  }

  ghost predicate OnItsRow(s: Cell, id: nat) {
    s.rows.Keys == {id} && (s.exec.Idle? || s.exec.Replanning? || s.exec.id == id)
  }

  lemma SendIgnoresRows(s: Cell, rows: Table, net: Net, gone: GoneReply)
    requires AtCall(s.exec)
    ensures Send(s.(rows := rows), net, gone) == Send(s, net, gone).(rows := rows)
  {
    var a, b := Send(s.(rows := rows), net, gone), Send(s, net, gone).(rows := rows);
    if s.exec.Creating? || s.exec.Conflicted? {
      assert a == b;
    } else if s.exec.Restoring? || s.exec.Updating? {
      assert a == b;
    } else {
      assert a == b;
    }
  }

  lemma SendStaysOnItsRow(s: Cell, id: nat, net: Net, gone: GoneReply)
    requires OnItsRow(s, id) && AtCall(s.exec)
    ensures OnItsRow(Send(s, net, gone), id) && Send(s, net, gone).rows == s.rows
  {
    SendFrame(s, net, gone);
  }

  /** Rewriting its row alone, and then on the table. */
  lemma RewriteOnItsRow(s: Cell, t: Table, id: nat, r: Row)
    requires s.rows.Keys == {id}
    ensures t[id := s.rows[id]][id := r] == t[id := r] && s.rows[id := r].Keys == {id} && s.rows[id := r][id] == r
  {
  }

  lemma SettleStaysOnItsRow(s: Cell, id: nat, now: int)
    requires OnItsRow(s, id) && AtRecord(s.exec)
    ensures OnItsRow(Settle(s, now), id)
  {
  }

  lemma SuccessOnItsRow(s: Cell, t: Table, id: nat, now: int)
    requires OnItsRow(s, id)
    requires s.exec.Created? || s.exec.Updated? || s.exec.Deleted? || s.exec.PatchSent? || s.exec.RemoveSent?
    ensures Settle(Widen(s, t, id), now) == Widen(Settle(s, now), t, id)
  {
    RewriteOnItsRow(s, t, id, DoneRow(s.rows[id], now));
  }

  lemma FailureOnItsRow(s: Cell, t: Table, id: nat, now: int)
    requires OnItsRow(s, id) && (s.exec.Raised? || s.exec.GivingUp?)
    ensures Settle(Widen(s, t, id), now) == Widen(Settle(s, now), t, id)
  {
    RewriteOnItsRow(s, t, id, FailedRow(s.rows[id], "failed", None, now));
    RewriteOnItsRow(s, t, id, RetryRow(s.rows[id], s.exec.row.attempts, "retry", None, now));
  }

  lemma OtherwiseOnItsRow(s: Cell, t: Table, id: nat, now: int)
    requires OnItsRow(s, id) && (s.exec.Burned? || s.exec.Vanished? || s.exec.Superseding? || s.exec.Replanning?)
    ensures Settle(Widen(s, t, id), now) == Widen(Settle(s, now), t, id)
  {
    if s.exec.Superseding? {
      RewriteOnItsRow(s, t, id, SupersededRow(s.rows[id], s.exec.error, Some(s.exec.http), now));
    }
  }

  lemma SettleOnItsRow(s: Cell, t: Table, id: nat, now: int)
    requires OnItsRow(s, id) && AtRecord(s.exec)
    ensures OnItsRow(Settle(s, now), id) && Settle(Widen(s, t, id), now) == Widen(Settle(s, now), t, id)
  {
    SettleStaysOnItsRow(s, id, now);
    if s.exec.Raised? || s.exec.GivingUp? { FailureOnItsRow(s, t, id, now); }
    else if s.exec.Burned? || s.exec.Vanished? || s.exec.Superseding? || s.exec.Replanning? { OtherwiseOnItsRow(s, t, id, now); }
    else { SuccessOnItsRow(s, t, id, now); }
  }

  lemma StepOnItsRow(s: Cell, t: Table, id: nat, w: Weather, now: int)
    requires OnItsRow(s, id) && !s.exec.Idle?
    ensures OnItsRow(Step(s, w, now), id) && Step(Widen(s, t, id), w, now) == Widen(Step(s, w, now), t, id)
  {
    if AtCall(s.exec) {
      SendIgnoresRows(Before(s, w), t[id := s.rows[id]], w.net, w.gone);
      SendStaysOnItsRow(Before(s, w), id, w.net, w.gone);
    } else if AtRecord(s.exec) {
      SettleOnItsRow(s, t, id, now);
    }
  }

  /** So carrying the op out on its row alone is carrying it out on the table. */
  lemma {:induction false} PerformOnItsRow(s: Cell, t: Table, id: nat, f: Forecast, asked: nat, now: int)
    requires OnItsRow(s, id)
    ensures var (u, n) := Perform(s, f, asked, now);
            && OnItsRow(u, id) && Perform(Widen(s, t, id), f, asked, now) == (Widen(u, t, id), n)
    decreases Work(s.exec)
  {
    if !s.exec.Idle? {
      Progress(s, f(asked), now);
      StepOnItsRow(s, t, id, f(asked), now);
      PerformOnItsRow(Step(s, f(asked), now), t, id, f, Asked(s.exec, asked), now);
    }
  }

  lemma StepAges(s: Cell, w: Weather, now: int)
    requires !s.exec.Idle? && Anchored(s)
    ensures Step(s, w, now).tick >= s.tick
  {
    if AtCall(s.exec) {
      SendAges(Before(s, w), w.net, w.gone);
    }
  }

  lemma SendAges(s: Cell, net: Net, gone: GoneReply)
    requires AtCall(s.exec)
    ensures Send(s, net, gone).tick >= s.tick
  {
  }

  lemma {:induction false} PerformAges(s: Cell, f: Forecast, asked: nat, now: int)
    requires Anchored(s)
    ensures Perform(s, f, asked, now).0.tick >= s.tick
    decreases Work(s.exec)
  {
    if !s.exec.Idle? {
      Progress(s, f(asked), now);
      StepAges(s, f(asked), now);
      PerformAges(Step(s, f(asked), now), f, Asked(s.exec, asked), now);
    }
  }

  // ---------------------------------------------------------------------------
  // Every outcome leaves the op settled, or due strictly later
  // ---------------------------------------------------------------------------

  predicate Settled(r: Row, now: int) {
    || r.status == Done || r.status == PermanentFailure || r.status == Superseded
    || (r.status == Pending && r.due.Some? && r.due.value > now)
  }

  /** The op is under way: no other row was touched, and once its row is left it is settled. */
  ghost predicate Underway(site: Site, rows: Table, s: Cell, id: nat, now: int) {
    && id in rows && s.rows.Keys == rows.Keys
    && (forall i :: i in rows && i != id ==> s.rows[i] == rows[i])
    && KeyOf(s.rows[id]) == KeyOf(rows[id]) && s.rows[id].user == rows[id].user && s.site == site
    && if s.exec.Idle? || s.exec.Replanning? then Settled(s.rows[id], now) else s.exec.id == id
  }

  lemma CallKeepsUnderway(site: Site, rows: Table, s: Cell, id: nat, w: Weather, now: int)
    requires Underway(site, rows, s, id, now) && AtCall(s.exec) && Anchored(s)
    ensures Underway(site, rows, Step(s, w, now), id, now)
  {
    CallProgress(s, w, now);
    SendFrame(Before(s, w), w.net, w.gone);
  }

  lemma SettleKeepsUnderway(site: Site, rows: Table, s: Cell, id: nat, now: int)
    requires Underway(site, rows, s, id, now) && AtRecord(s.exec) && Anchored(s)
    ensures Underway(site, rows, Settle(s, now), id, now)
  {
  }

  lemma {:induction false} PerformSettles(site: Site, rows: Table, s: Cell, id: nat, f: Forecast, asked: nat, now: int)
    requires Underway(site, rows, s, id, now) && Anchored(s)
    ensures Underway(site, rows, Perform(s, f, asked, now).0, id, now) && Settled(Perform(s, f, asked, now).0.rows[id], now)
    ensures Perform(s, f, asked, now).0.exec.Idle?
    decreases Work(s.exec)
  {
    if !s.exec.Idle? {
      Progress(s, f(asked), now);
      if AtCall(s.exec) { CallKeepsUnderway(site, rows, s, id, f(asked), now); }
      else if AtRecord(s.exec) { SettleKeepsUnderway(site, rows, s, id, now); }
      PerformSettles(site, rows, Step(s, f(asked), now), id, f, Asked(s.exec, asked), now);
    }
  }

  // ---------------------------------------------------------------------------
  // Carrying one op out
  // ---------------------------------------------------------------------------

  /** The end of an op, seen from its row alone and from the whole table. */
  lemma CarryOut(s: Cell, t: Table, id: nat, f: Forecast, asked: nat, now: int, u: Cell, n: nat)
    requires s.exec.Ready? && OnItsRow(s, id) && (u, n) == Perform(s, f, asked, now)
    ensures u.exec.Idle? && id in u.rows && Settled(u.rows[id], now) && u.tick >= s.tick
    ensures KeyOf(u.rows[id]) == KeyOf(s.rows[id]) && u.rows[id].user == s.rows[id].user
    ensures Perform(Widen(s, t, id), f, asked, now) == (u.(rows := t[id := u.rows[id]]), n)
  {
    PerformOnItsRow(s, t, id, f, asked, now);
    PerformSettles(s.site, s.rows, s, id, f, asked, now);
    PerformAges(s, f, asked, now);
  }
}
