/** Any number of workers executing ops of one projection at once: what the deterministic ids
    alone guarantee (app/ledger/outbox.py:487-568). */
module CreateRace {
  import opened Base
  import opened OutboxTable
  import opened GoogleModel
  import opened Protocol
  import opened ReservedIds

  /** The shared state, and where each worker is.  `shared.exec` is not used. */
  datatype Race = Race(shared: Cell, workers: map<nat, Exec>)

  datatype Move =
    | Spawn(w: nat, id: nat, row: Row)
    | Start(w: nat)
    | Ask(w: nat, net: Net, gone: GoneReply)
    | Write(w: nat, now: int)
    | Die(w: nat)
    | UserEdits(gen: nat, body: Content)
    | UserDeletes(gen: nat)

  function At(r: Race, w: nat): Cell
    requires w in r.workers
  {
    r.shared.(exec := r.workers[w])
  }

  predicate CanMove(r: Race, m: Move) {
    match m
    case Spawn(_, _, row) => row.calendar == r.shared.site.calendar
    case Start(w) => w in r.workers && r.workers[w].Ready?
    case Ask(w, _, _) => w in r.workers && AtCall(r.workers[w])
    case Write(w, _) => w in r.workers && AtRecord(r.workers[w]) &&
                        (r.workers[w] != Replanning ==> r.workers[w].id in r.shared.rows)
    case Die(w) => true
    case UserEdits(gen, _) => gen in r.shared.slots && r.shared.slots[gen].Live?
    case UserDeletes(gen) => gen in r.shared.slots && r.shared.slots[gen].Live?
  }

  function Put(r: Race, w: nat, c: Cell): Race {
    Race(c.(exec := Idle), r.workers[w := c.exec])
  }

  function Step(r: Race, m: Move): Race
    requires CanMove(r, m)
  {
    match m
    case Spawn(w, id, row) => r.(workers := r.workers[w := Ready(id, row)])
    case Start(w) => Put(r, w, At(r, w).(exec := Begin(At(r, w), r.workers[w].id, r.workers[w].row)))
    case Ask(w, net, gone) => Put(r, w, Send(At(r, w), net, gone))
    case Write(w, now) => Put(r, w, Settle(At(r, w), now))
    case Die(w) => r.(workers := r.workers - {w})
    case UserEdits(gen, body) =>
      r.(shared := r.shared.(slots := r.shared.slots[gen := Live(body, r.shared.tick)], tick := r.shared.tick + 1))
    case UserDeletes(gen) =>
      r.(shared := r.shared.(slots := r.shared.slots[gen := Tombstone(r.shared.tick)], tick := r.shared.tick + 1))
  }

  /** Everything below `gen` is a tombstone. */
  ghost predicate Walked(slots: Slots, gen: nat) {
    forall j: nat :: j < gen ==> j in slots && slots[j].Tombstone?
  }

  /** Every reserved id was reached by walking over tombstones. */
  ghost predicate SlotsWalked(slots: Slots) {
    forall k :: k in slots ==> Walked(slots, k)
  }

  /** A generation is only ever reached by walking over tombstones. */
  ghost predicate ExecWalked(slots: Slots, e: Exec) {
    match e
    case Creating(_, _, gen, _, _) => Walked(slots, gen)
    case Conflicted(_, _, gen, _, _) => Walked(slots, gen) && gen in slots
    case Burned(_, _, gen, _, _) => Walked(slots, gen)
    case GivingUp(_, _, gen) => Walked(slots, gen)
    case Restoring(_, _, gen, _) => Walked(slots, gen)
    case Created(_, _, gen, _) => Walked(slots, gen)
    case _ => true
  }

  /** Ops are addressed to the projection's calendar (Guarantees.EveryOpIsAddressed). */
  predicate Addressed(site: Site, e: Exec) {
    e.Idle? || e.Replanning? || e.row.calendar == site.calendar
  }

  ghost predicate RaceOk(r: Race) {
    && SlotsWalked(r.shared.slots)
    && Walked(r.shared.slots, r.shared.proj.gen)
    && (forall w :: w in r.workers ==> ExecWalked(r.shared.slots, r.workers[w]) && Addressed(r.shared.site, r.workers[w]))
  }

  /** Tombstones are never undone and live slots are never dropped, so what was walked stays walked. */
  ghost predicate Grows(a: Slots, b: Slots) {
    forall k :: k in a ==> k in b && (a[k].Tombstone? ==> b[k].Tombstone?)
  }

  lemma GrowthKeepsWalks(a: Slots, b: Slots, e: Exec)
    requires Grows(a, b) && ExecWalked(a, e)
    ensures ExecWalked(b, e)
  {
  }

  ghost predicate WalksOn(s: Cell, t: Cell) {
    Grows(s.slots, t.slots) && ExecWalked(t.slots, t.exec) && t.proj.gen == s.proj.gen && SlotsWalked(t.slots)
  }

  lemma InsertWalks(s: Cell, net: Net)
    requires s.exec.Creating? && AtHome(s) && ExecWalked(s.slots, s.exec) && SlotsWalked(s.slots)
    ensures WalksOn(s, SendInsert(s, net))
  {
    var t := SendInsert(s, net);
    forall k | k in t.slots ensures Walked(t.slots, k) {
      if k !in s.slots { assert k == s.exec.gen; }
    }
  }

  lemma ReadWalks(s: Cell, net: Net)
    requires (s.exec.Conflicted? || s.exec.Refreshing?) && AtHome(s) && ExecWalked(s.slots, s.exec) && SlotsWalked(s.slots)
    ensures WalksOn(s, Send(s, net, NotFound))
  {
    var t := Send(s, net, NotFound);
    assert t.slots == s.slots;
  }

  lemma UpdateWalks(s: Cell, net: Net, gone: GoneReply)
    requires (s.exec.Restoring? || s.exec.Updating?) && AtHome(s) && ExecWalked(s.slots, s.exec) && SlotsWalked(s.slots)
    ensures WalksOn(s, Send(s, net, gone))
  {
    var t := Send(s, net, gone);
    assert t.slots.Keys == s.slots.Keys;
    GrowthKeepsWalks(s.slots, t.slots, s.exec);
  }

  lemma DeleteWalks(s: Cell, net: Net, gone: GoneReply)
    requires (s.exec.Deleting? || s.exec.Patching? || s.exec.Removing?) && SlotsWalked(s.slots)
    ensures WalksOn(s, Send(s, net, gone))
  {
    var t := Send(s, net, gone);
    assert t.slots.Keys == s.slots.Keys;
  }

  /** One call of one worker. */
  lemma SendWalks(s: Cell, net: Net, gone: GoneReply)
    requires AtCall(s.exec) && AtHome(s) && ExecWalked(s.slots, s.exec) && SlotsWalked(s.slots)
    ensures WalksOn(s, Send(s, net, gone))
  {
    if s.exec.Creating? { InsertWalks(s, net); }
    else if s.exec.Conflicted? || s.exec.Refreshing? { ReadWalks(s, net); }
    else if s.exec.Restoring? || s.exec.Updating? { UpdateWalks(s, net, gone); }
    else { DeleteWalks(s, net, gone); }
  }

  lemma AskKeepsRace(r: Race, w: nat, net: Net, gone: GoneReply)
    requires RaceOk(r) && CanMove(r, Ask(w, net, gone))
    ensures RaceOk(Step(r, Ask(w, net, gone)))
  {
    var t := Send(At(r, w), net, gone);
    SendFrame(At(r, w), net, gone);
    SendWalks(At(r, w), net, gone);
    forall v | v in r.workers ensures ExecWalked(t.slots, r.workers[v]) {
      GrowthKeepsWalks(r.shared.slots, t.slots, r.workers[v]);
    }
  }

  lemma WriteKeepsRace(r: Race, w: nat, now: int)
    requires RaceOk(r) && CanMove(r, Write(w, now))
    ensures RaceOk(Step(r, Write(w, now)))
  {
    var s := At(r, w);
    var t := Settle(s, now);
    assert t.slots == s.slots;
  }

  lemma StepKeepsRace(r: Race, m: Move)
    requires RaceOk(r) && CanMove(r, m)
    ensures RaceOk(Step(r, m))
  {
    match m
    case Ask(w, net, gone) => AskKeepsRace(r, w, net, gone);
    case Write(w, now) => WriteKeepsRace(r, w, now);
    case UserEdits(gen, _) => WorldKeepsRace(r, m);
    case UserDeletes(gen) => WorldKeepsRace(r, m);
    case _ =>
  }

  lemma WorldKeepsRace(r: Race, m: Move)
    requires RaceOk(r) && CanMove(r, m) && (m.UserEdits? || m.UserDeletes?)
    ensures RaceOk(Step(r, m))
  {
    var a, b := r.shared.slots, Step(r, m).shared.slots;
    assert Grows(a, b);
    forall v | v in r.workers ensures ExecWalked(b, r.workers[v]) {
      GrowthKeepsWalks(a, b, r.workers[v]);
    }
  }

  ghost predicate CanRun(r: Race, moves: seq<Move>)
    decreases |moves|
  {
    moves == [] || (CanMove(r, moves[0]) && CanRun(Step(r, moves[0]), moves[1..]))
  }

  ghost function After(r: Race, moves: seq<Move>): Race
    requires CanRun(r, moves)
    decreases |moves|
  {
    if moves == [] then r else After(Step(r, moves[0]), moves[1..])
  }

  lemma {:induction false} RunKeepsRace(r: Race, moves: seq<Move>)
    requires RaceOk(r) && CanRun(r, moves)
    ensures RaceOk(After(r, moves))
    decreases |moves|
  {
    if moves != [] {
      StepKeepsRace(r, moves[0]);
      RunKeepsRace(Step(r, moves[0]), moves[1..]);
    }
  }

  /** However many create attempts race, crash, are retried or lose their replies: the reserved
      generations form a prefix, all but the largest are tombstones, at most one copy is live. */
  lemma RacingCreatesLeaveOneCopy(r: Race, moves: seq<Move>)
    requires r.shared.slots == map[] && r.shared.proj.gen == 0 && r.workers == map[] && CanRun(r, moves)
    ensures var slots := After(r, moves).shared.slots;
            && (forall j: nat, k :: k in slots && j < k ==> j in slots && slots[j].Tombstone?)
            && (forall j, k :: j in slots && k in slots && slots[j].Live? && slots[k].Live? ==> j == k)
  {
    RunKeepsRace(r, moves);
    var slots := After(r, moves).shared.slots;
    forall j: nat, k | k in slots && j < k ensures j in slots && slots[j].Tombstone? {
      assert Walked(slots, k);
    }
  }
}
