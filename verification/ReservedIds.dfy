/** The ids a projection has burned: at most one live copy, and the burned-id budget. */
module ReservedIds {
  import opened Base
  import opened OutboxTable
  import opened GoogleModel
  import opened Protocol

  ghost predicate IsTombstone(slots: Slots, k: nat) {
    k in slots && slots[k].Tombstone?
  }

  /** Every generation below the persisted one is a tombstone, none above it was ever used. */
  ghost predicate SlotsOk(s: Cell) {
    && (forall k :: k in s.slots ==> k <= s.proj.gen)
    && (forall k: nat :: k < s.proj.gen ==> k in s.slots && s.slots[k].Tombstone?)
  }

  /** The burn count of an episode never passes the ceiling, and an id at the ceiling is never used. */
  ghost predicate BudgetOk(s: Cell) {
    && s.proj.floor <= s.proj.gen <= s.proj.floor + MAX_TOTAL_ID_GENERATIONS
    && (s.proj.gen == s.proj.floor + MAX_TOTAL_ID_GENERATIONS ==> s.proj.gen !in s.slots)
  }

  ghost predicate ExecIdsOk(s: Cell) {
    match s.exec
    case Creating(_, _, gen, floor, left) =>
      gen == s.proj.gen && floor <= s.proj.floor && gen - floor < MAX_TOTAL_ID_GENERATIONS && left <= MAX_ID_GENERATIONS
    case Conflicted(_, _, gen, floor, left) =>
      && gen == s.proj.gen && floor <= s.proj.floor && gen - floor < MAX_TOTAL_ID_GENERATIONS
      && gen in s.slots && left <= MAX_ID_GENERATIONS
    case Burned(_, _, gen, floor, left) =>
      && gen == s.proj.gen + 1 && floor <= s.proj.floor && gen - floor < MAX_TOTAL_ID_GENERATIONS
      && IsTombstone(s.slots, s.proj.gen) && left <= MAX_ID_GENERATIONS
    case GivingUp(_, _, gen) =>
      || (gen == s.proj.gen && gen !in s.slots)
      || (gen == s.proj.gen + 1 && gen <= s.proj.floor + MAX_TOTAL_ID_GENERATIONS && IsTombstone(s.slots, s.proj.gen))
    case Restoring(_, _, gen, _) => gen == s.proj.gen && gen in s.slots
    case Created(_, _, gen, _) => gen == s.proj.gen && gen in s.slots
    case _ => true
  }

  ghost predicate IdsOk(s: Cell) {
    SlotsOk(s) && BudgetOk(s) && ExecIdsOk(s)
  }

  lemma InsertKeepsIds(s: Cell, net: Net)
    requires IdsOk(s) && s.exec.Creating? && AtHome(s)
    ensures IdsOk(SendInsert(s, net))
  {
  }

  lemma ConfirmKeepsIds(s: Cell, net: Net)
    requires IdsOk(s) && s.exec.Conflicted? && AtHome(s)
    ensures IdsOk(SendConfirm(s, net))
  {
  }

  lemma RestoreKeepsIds(s: Cell, net: Net, gone: GoneReply)
    requires IdsOk(s) && s.exec.Restoring? && AtHome(s)
    ensures IdsOk(SendRestore(s, net, gone))
  {
  }

  lemma SendUpdateKeepsIds(s: Cell, net: Net, gone: GoneReply)
    requires IdsOk(s) && s.exec.Updating? && AtHome(s)
    ensures IdsOk(SendUpdate(s, net, gone))
  {
  }

  lemma OtherCallKeepsIds(s: Cell, net: Net, gone: GoneReply)
    requires IdsOk(s) && (s.exec.Refreshing? || s.exec.Deleting? || s.exec.Patching? || s.exec.Removing?)
    ensures IdsOk(Send(s, net, gone))
  {
  }

  lemma SendKeepsIds(s: Cell, net: Net, gone: GoneReply)
    requires IdsOk(s) && AtCall(s.exec) && AtHome(s)
    ensures IdsOk(Send(s, net, gone))
  {
    match s.exec
    case Creating(_, _, _, _, _) => InsertKeepsIds(s, net);
    case Conflicted(_, _, _, _, _) => ConfirmKeepsIds(s, net);
    case Restoring(_, _, _, _) => RestoreKeepsIds(s, net, gone);
    case Updating(_, _, _, _) => SendUpdateKeepsIds(s, net, gone);
    case _ => OtherCallKeepsIds(s, net, gone);
  }

  lemma SettleKeepsIds(s: Cell, now: int)
    requires IdsOk(s) && Enabled(s, ASettle(now))
    ensures IdsOk(Settle(s, now))
  {
  }

  lemma QuietStepKeepsIds(s: Cell, a: Action)
    requires IdsOk(s) && Enabled(s, a)
    requires !a.ASend? && !a.ASettle? && !a.AUserEdit? && !a.AUserDelete?
    ensures IdsOk(Next(s, a))
  {
    var t := Next(s, a);
    assert t.slots == s.slots;
    QuietStepKeepsBudget(s, a);
    QuietStepKeepsExecIds(s, a);
  }

  lemma QuietStepKeepsBudget(s: Cell, a: Action)
    requires IdsOk(s) && Enabled(s, a)
    requires !a.ASend? && !a.ASettle? && !a.AUserEdit? && !a.AUserDelete?
    ensures SlotsOk(Next(s, a)) && BudgetOk(Next(s, a))
  {
  }

  lemma QuietStepKeepsExecIds(s: Cell, a: Action)
    requires IdsOk(s) && Enabled(s, a)
    requires !a.ASend? && !a.ASettle? && !a.AUserEdit? && !a.AUserDelete?
    ensures ExecIdsOk(Next(s, a))
  {
  }

  lemma UserStepKeepsIds(s: Cell, a: Action)
    requires IdsOk(s) && Enabled(s, a) && (a.AUserEdit? || a.AUserDelete?)
    ensures IdsOk(Next(s, a))
  {
  }

  /** Every step keeps the id discipline, whatever interferes; calls go to the projection's calendar
      (Pipeline.OpIsAddressed). */
  lemma StepKeepsIds(s: Cell, a: Action)
    requires IdsOk(s) && Enabled(s, a) && (a.ASend? ==> AtHome(s))
    ensures IdsOk(Next(s, a))
  {
    match a
    case ASend(net, gone) => SendKeepsIds(s, net, gone);
    case ASettle(now) => SettleKeepsIds(s, now);
    case AUserEdit(_, _) => UserStepKeepsIds(s, a);
    case AUserDelete(_) => UserStepKeepsIds(s, a);
    case _ => QuietStepKeepsIds(s, a);
  }
}
