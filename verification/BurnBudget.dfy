/** How many ids a create may burn (app/ledger/outbox.py:112-126, 470-572, 1180-1214;
    app/ledger/admin_ops.py:465-481). */
module BurnBudget {
  import opened Base
  import opened OutboxTable
  import opened GoogleModel
  import opened Protocol
  import opened Worker
  import opened Convergence

  // ---------------------------------------------------------------------------
  // One attempt makes at most eight inserts
  // ---------------------------------------------------------------------------

  function InsertsLeft(e: Exec): nat {
    match e
    case Ready(_, _) => MAX_ID_GENERATIONS
    case Creating(_, _, _, _, left) => left
    case Conflicted(_, _, _, _, left) => if left > 0 then left - 1 else 0
    case Burned(_, _, _, _, left) => left
    case _ => 0
  }

  predicate IsInsert(s: Cell, a: Action) {
    a.ASend? && s.exec.Creating? && s.exec.left > 0
  }

  ghost function Inserts(s: Cell, run: seq<Action>): nat
    requires Valid(s, run)
    decreases |run|
  {
    if run == [] then 0
    else (if IsInsert(s, run[0]) then 1 else 0) + Inserts(Next(s, run[0]), run[1..])
  }

  lemma StepSpendsInserts(s: Cell, a: Action)
    requires Enabled(s, a) && !a.AClaim?
    ensures InsertsLeft(Next(s, a).exec) + (if IsInsert(s, a) then 1 else 0) <= InsertsLeft(s.exec)
  {
    if a.ASend? { SendSpendsInserts(s, a.net, a.gone); }
    else if a.ASettle? { SettleSpendsInserts(s, a.now); }
    else { OtherStepsInsertNothing(s, a); }
  }

  lemma SendSpendsInserts(s: Cell, net: Net, gone: GoneReply)
    requires AtCall(s.exec)
    ensures InsertsLeft(Send(s, net, gone).exec) + (if IsInsert(s, ASend(net, gone)) then 1 else 0) <= InsertsLeft(s.exec)
  {
    if s.exec.Creating? { InsertSpendsOne(s, net); }
    else if s.exec.Conflicted? { ConfirmSpendsNone(s, net); }
    else { OtherCallsInsertNothing(s, net, gone); }
  }

  lemma InsertSpendsOne(s: Cell, net: Net)
    requires s.exec.Creating?
    ensures InsertsLeft(SendInsert(s, net).exec) + (if s.exec.left > 0 then 1 else 0) <= s.exec.left
  {
  }

  lemma ConfirmSpendsNone(s: Cell, net: Net)
    requires s.exec.Conflicted?
    ensures InsertsLeft(SendConfirm(s, net).exec) <= InsertsLeft(s.exec)
  {
  }

  lemma OtherCallsInsertNothing(s: Cell, net: Net, gone: GoneReply)
    requires AtCall(s.exec) && !s.exec.Creating? && !s.exec.Conflicted?
    ensures InsertsLeft(Send(s, net, gone).exec) == 0
  {
    if s.exec.Restoring? || s.exec.Updating? { WritesInsertNothing(s, net, gone); }
  }

  lemma WritesInsertNothing(s: Cell, net: Net, gone: GoneReply)
    requires s.exec.Restoring? || s.exec.Updating?
    ensures s.exec.Restoring? ==> InsertsLeft(SendRestore(s, net, gone).exec) == 0
    ensures s.exec.Updating? ==> InsertsLeft(SendUpdate(s, net, gone).exec) == 0
  {
  }

  lemma SettleSpendsInserts(s: Cell, now: int)
    requires Enabled(s, ASettle(now))
    ensures InsertsLeft(Settle(s, now).exec) <= InsertsLeft(s.exec)
  {
  }

  lemma OtherStepsInsertNothing(s: Cell, a: Action)
    requires Enabled(s, a) && !a.AClaim? && !a.ASend? && !a.ASettle?
    ensures InsertsLeft(Next(s, a).exec) <= InsertsLeft(s.exec)
  {
  }

  lemma {:induction false} InsertsAreBounded(s: Cell, run: seq<Action>)
    requires Valid(s, run) && forall a :: a in run ==> !a.AClaim?
    ensures Inserts(s, run) <= InsertsLeft(s.exec)
    decreases |run|
  {
    if run != [] {
      StepSpendsInserts(s, run[0]);
      InsertsAreBounded(Next(s, run[0]), run[1..]);
    }
  }

  /** From a claim until the next claim, whatever interferes and however calls fail, the op
      makes at most eight inserts. */
  lemma AttemptInsertsAtMostEight(s: Cell, id: nat, now: int, run: seq<Action>)
    requires Enabled(s, AClaim(id, now)) && Valid(Next(s, AClaim(id, now)), run)
    requires forall a :: a in run ==> !a.AClaim?
    ensures Inserts(Next(s, AClaim(id, now)), run) <= 8
  {
    InsertsAreBounded(Next(s, AClaim(id, now)), run);
  }

  // ---------------------------------------------------------------------------
  // Where every id is dead, the seventh attempt gives up
  // ---------------------------------------------------------------------------

  ghost predicate Dead(slots: Slots, from: nat, to: nat) {
    forall k :: from <= k < to ==> k in slots && slots[k].Tombstone?
  }

  /** An attempt that stays below the ceiling burns its eight ids and is retried. */
  lemma {:induction false} AttemptBurns(s: Cell, gone: GoneReply, now: int)
    requires s.exec.Creating? && AtHome(s) && s.exec.id in s.rows && s.exec.gen == s.proj.gen
    requires s.exec.gen + s.exec.left - s.exec.floor < MAX_TOTAL_ID_GENERATIONS
    requires Dead(s.slots, s.exec.gen, s.exec.gen + s.exec.left)
    ensures Finish(s, gone, now) ==
      s.(proj := s.proj.(gen := s.exec.gen + s.exec.left),
         rows := s.rows[s.exec.id := RetryRow(s.rows[s.exec.id], s.exec.row.attempts, "retry", None, now)],
         exec := Idle)
    decreases s.exec.left
  {
    if s.exec.left == 0 {
      var s1 := Tick(s, gone, now);
      assert s1.exec.Raised?;
      var s2 := Tick(s1, gone, now);
      assert Finish(s, gone, now) == Finish(s1, gone, now) == s2;
    } else {
      var t := FinishBurn(s, gone, now);
      AttemptBurns(t, gone, now);
    }
  }

  /** An attempt that reaches the ceiling marks the projection permanently failed. */
  lemma {:induction false} AttemptGivesUp(s: Cell, gone: GoneReply, now: int)
    requires s.exec.Creating? && AtHome(s) && s.exec.id in s.rows && s.exec.gen == s.proj.gen
    requires s.exec.gen < s.exec.floor + MAX_TOTAL_ID_GENERATIONS <= s.exec.gen + s.exec.left
    requires Dead(s.slots, s.exec.gen, s.exec.floor + MAX_TOTAL_ID_GENERATIONS)
    ensures Finish(s, gone, now) == MarkFailed(s, s.exec.id, s.exec.floor + MAX_TOTAL_ID_GENERATIONS, now)
    decreases s.exec.left
  {
    if s.exec.gen + 1 == s.exec.floor + MAX_TOTAL_ID_GENERATIONS {
      var s1 := Tick(s, gone, now);
      assert s1.exec.Conflicted?;
      var s2 := Tick(s1, gone, now);
      assert s2.exec.GivingUp?;
      var s3 := Tick(s2, gone, now);
      assert Finish(s, gone, now) == Finish(s1, gone, now) == Finish(s2, gone, now) == s3;
    } else {
      var t := FinishBurn(s, gone, now);
      AttemptGivesUp(t, gone, now);
    }
  }

  /** A pending create that has burned `8 * k` ids of its episode. */
  ghost predicate Burning(s: Cell, id: nat, base: nat, k: nat) {
    && s.exec == Idle && s.proj.floor == base && s.proj.gen == base + 8 * k && !s.proj.failed
    && id in s.rows && s.rows[id].status == Pending && s.rows[id].kind == Create && s.rows[id].payload.Some?
    && s.rows[id].user == s.site.user && s.rows[id].calendar == s.site.calendar
    && Dead(s.slots, base, base + MAX_TOTAL_ID_GENERATIONS)
  }

  /** One attempt of the op at a time when it is due. */
  ghost function Attempt(s: Cell, id: nat, gone: GoneReply, now: int): Cell
    requires Enabled(s, AClaim(id, now))
  {
    Finish(Claimed(s, id, now), gone, now)
  }

  lemma AttemptStarts(s: Cell, id: nat, base: nat, k: nat, gone: GoneReply, now: int) returns (r: Cell)
    requires Burning(s, id, base, k) && k <= 6 && IsDue(s.rows[id], s.site.user, now)
    ensures r == s.(rows := s.rows[id := ClaimRow(s.rows[id], now)],
                    exec := Creating(id, s.rows[id], s.proj.gen, base, MAX_ID_GENERATIONS))
    ensures Attempt(s, id, gone, now) == Finish(r, gone, now)
  {
    r := Tick(Claimed(s, id, now), gone, now);
  }

  /** The first six attempts are retried, each after burning eight more ids ... */
  lemma FirstSixAttemptsRetry(s: Cell, id: nat, base: nat, k: nat, gone: GoneReply, now: int)
    requires Burning(s, id, base, k) && k < 6 && IsDue(s.rows[id], s.site.user, now)
    ensures Burning(Attempt(s, id, gone, now), id, base, k + 1)
  {
    var r := AttemptStarts(s, id, base, k, gone, now);
    AttemptBurns(r, gone, now);
  }

  /** ... the seventh gives up, and an admin retry then opens a full new budget. */
  lemma SeventhAttemptFails(s: Cell, id: nat, base: nat, gone: GoneReply, now: int)
    requires Burning(s, id, base, 6) && IsDue(s.rows[id], s.site.user, now)
    ensures var t := Attempt(s, id, gone, now);
            && t.proj.failed && t.proj.current == Errored && id in t.rows && t.rows[id].status == PermanentFailure
            && t.proj.gen == base + MAX_TOTAL_ID_GENERATIONS && t.proj.floor == base
            && RetryFailures(t.proj).floor == RetryFailures(t.proj).gen && !RetryFailures(t.proj).failed
  {
    var r := AttemptStarts(s, id, base, 6, gone, now);
    AttemptGivesUp(r, gone, now);
  }

  /** The op is attempted at the given times, at each of which it is due. */
  ghost predicate DueAt(s: Cell, id: nat, gone: GoneReply, times: seq<int>)
    decreases |times|
  {
    times == [] ||
    (Enabled(s, AClaim(id, times[0])) && DueAt(Attempt(s, id, gone, times[0]), id, gone, times[1..]))
  }

  ghost function AfterAttempts(s: Cell, id: nat, gone: GoneReply, times: seq<int>): Cell
    requires DueAt(s, id, gone, times)
    decreases |times|
  {
    if times == [] then s else AfterAttempts(Attempt(s, id, gone, times[0]), id, gone, times[1..])
  }

  lemma {:induction false} FailsAfterTheRest(s: Cell, id: nat, base: nat, k: nat, gone: GoneReply, times: seq<int>)
    requires Burning(s, id, base, k) && k <= 6 && DueAt(s, id, gone, times)
    ensures |times| <= 7 - k
    ensures AfterAttempts(s, id, gone, times).proj.failed <==> |times| == 7 - k
    ensures |times| < 7 - k ==> Burning(AfterAttempts(s, id, gone, times), id, base, k + |times|)
    decreases |times|
  {
    if times != [] {
      var t := Attempt(s, id, gone, times[0]);
      if k < 6 {
        FirstSixAttemptsRetry(s, id, base, k, gone, times[0]);
        FailsAfterTheRest(t, id, base, k + 1, gone, times[1..]);
      } else {
        SeventhAttemptFails(s, id, base, gone, times[0]);
        assert t.rows[id].status == PermanentFailure;
        assert times[1..] == [];
      }
    }
  }

  /** Where every id of a fresh episode is dead: at whatever times the create is attempted, it is
      permanently failed exactly from the seventh attempt on, having burned eight ids in each attempt
      before, and there is no eighth. */
  lemma FailsExactlyOnTheSeventh(s: Cell, id: nat, base: nat, gone: GoneReply, times: seq<int>)
    requires Burning(s, id, base, 0) && DueAt(s, id, gone, times)
    ensures |times| <= 7
    ensures AfterAttempts(s, id, gone, times).proj.failed <==> |times| == 7
    ensures |times| < 7 ==> Burning(AfterAttempts(s, id, gone, times), id, base, |times|)
  {
    FailsAfterTheRest(s, id, base, 0, gone, times);
  }

  /** An admin retry brings a failed projection back to the diff, if there is anything to do, with a full
      budget; it touches no other. */
  lemma AdminRetryOpensFullBudget(s: Cell, id: nat, row: Row)
    requires row.kind == Create && row.payload.Some?
    ensures var t := Next(s, ARetryFailures);
            && !t.proj.failed && (!s.proj.failed ==> t == s)
            && (Diverged(t.proj) <==> s.proj.appliedVersion != Some(s.proj.desiredVersion) || s.proj.applied != Some(s.proj.desired))
            && (s.proj.failed ==> Begin(t, id, row) == Creating(id, row, s.proj.gen, s.proj.gen, 8))
  {
  }

  /** A create that lands opens a full budget for the next episode. */
  lemma SuccessOpensFullBudget(s: Cell, now: int)
    requires s.exec.Created? && Enabled(s, ASettle(now))
    ensures var p := Settle(s, now).proj; p.gen == p.floor == s.exec.gen && p.gid == Some(s.exec.gen) && !p.failed
    ensures forall id, row: Row :: row.kind == Create && row.payload.Some? ==>
              Begin(Settle(s, now), id, row) == Creating(id, row, s.exec.gen, s.exec.gen, MAX_ID_GENERATIONS)
  {
  }
}
