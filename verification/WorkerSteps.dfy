/** The worker's steps one at a time, in the terms the handlers work with.  `s` is where the op
    started after `n` calls, `c` where the worker is after `m` calls. */
module WorkerSteps {
  import opened Base
  import opened OutboxTable
  import opened GoogleModel
  import opened Protocol
  import opened Worker

  lemma Begun(f: Forecast, now: int, c: Cell, m: nat)
    requires c.exec.Ready? && c.exec.id in c.rows
    ensures Continues(f, now, c, m, c.(exec := Begin(c, c.exec.id, c.exec.row)), m)
  {
    OneStep(f, now, c, m, c, m);
  }

  lemma InsertSent(f: Forecast, now: int, s: Cell, n: nat, c: Cell, m: nat, d: (Slots, nat), a: Answer)
    requires Continues(f, now, s, n, c, m) && c.exec.Creating? && c.exec.left > 0
    requires d == Disturb(c.slots, c.tick, f(m).meanwhile)
    requires a == InsertAt(AtHome(c), d.0, d.1, c.exec.gen, Body(c.exec.row), f(m).net)
    ensures Continues(f, now, s, n, c.(slots := a.slots, tick := a.tick, exec := AfterInsert(c.exec, a.reply)), m + 1)
  {
    OneStep(f, now, s, n, c, m);
  }

  lemma TriesExhausted(f: Forecast, now: int, s: Cell, n: nat, c: Cell, m: nat)
    requires Continues(f, now, s, n, c, m) && c.exec.Creating? && c.exec.left == 0
    ensures Continues(f, now, s, n, c.(exec := Raised(c.exec.id, c.exec.row, Transient)), m)
  {
    OneStep(f, now, s, n, c, m);
  }

  lemma ConfirmSent(f: Forecast, now: int, s: Cell, n: nat, c: Cell, m: nat, d: (Slots, nat))
    requires Continues(f, now, s, n, c, m) && c.exec.Conflicted?
    requires d == Disturb(c.slots, c.tick, f(m).meanwhile)
    ensures Continues(f, now, s, n,
      c.(slots := d.0, tick := d.1, exec := AfterConfirm(c.exec, GetAt(AtHome(c), d.0, c.exec.gen, f(m).net))), m + 1)
  {
    OneStep(f, now, s, n, c, m);
  }

  lemma RestoreSent(f: Forecast, now: int, s: Cell, n: nat, c: Cell, m: nat, d: (Slots, nat), a: Answer)
    requires Continues(f, now, s, n, c, m) && c.exec.Restoring?
    requires d == Disturb(c.slots, c.tick, f(m).meanwhile)
    requires a == UpdateAt(AtHome(c), d.0, d.1, c.exec.gen, Body(c.exec.row), Some(c.exec.etag), f(m).net, f(m).gone)
    ensures Continues(f, now, s, n, c.(slots := a.slots, tick := a.tick, exec := AfterRestore(c.exec, a.reply)), m + 1)
  {
    OneStep(f, now, s, n, c, m);
  }

  lemma UpdateSent(f: Forecast, now: int, s: Cell, n: nat, c: Cell, m: nat, d: (Slots, nat), a: Answer)
    requires Continues(f, now, s, n, c, m) && c.exec.Updating?
    requires d == Disturb(c.slots, c.tick, f(m).meanwhile)
    requires a == UpdateAt(AtHome(c), d.0, d.1, c.exec.gen, Body(c.exec.row), c.exec.ifMatch, f(m).net, f(m).gone)
    ensures Continues(f, now, s, n, c.(slots := a.slots, tick := a.tick, exec := AfterUpdate(c.exec, a.reply)), m + 1)
  {
    OneStep(f, now, s, n, c, m);
  }

  lemma RefreshSent(f: Forecast, now: int, s: Cell, n: nat, c: Cell, m: nat, d: (Slots, nat))
    requires Continues(f, now, s, n, c, m) && c.exec.Refreshing?
    requires d == Disturb(c.slots, c.tick, f(m).meanwhile)
    ensures Continues(f, now, s, n,
      c.(slots := d.0, tick := d.1, proj := Refreshed(c.proj, GetAt(AtHome(c), d.0, c.exec.gen, f(m).net)),
         exec := Superseding(c.exec.id, c.exec.row, "etag_mismatch", 412)), m + 1)
  {
    OneStep(f, now, s, n, c, m);
  }

  lemma DeleteSent(f: Forecast, now: int, s: Cell, n: nat, c: Cell, m: nat, d: (Slots, nat), a: Answer)
    requires Continues(f, now, s, n, c, m) && c.exec.Deleting?
    requires d == Disturb(c.slots, c.tick, f(m).meanwhile)
    requires a == DeleteAt(AtHome(c), d.0, d.1, c.exec.gen, f(m).net)
    ensures Continues(f, now, s, n,
      c.(slots := a.slots, tick := a.tick,
         exec := if a.reply.Error? then Raised(c.exec.id, c.exec.row, a.reply.e) else Deleted(c.exec.id, c.exec.row)),
      m + 1)
  {
    OneStep(f, now, s, n, c, m);
  }

  lemma PatchSourceSent(f: Forecast, now: int, s: Cell, n: nat, c: Cell, m: nat, d: (Slots, nat))
    requires Continues(f, now, s, n, c, m) && c.exec.Patching?
    requires d == Disturb(c.slots, c.tick, f(m).meanwhile)
    ensures Continues(f, now, s, n,
      c.(slots := d.0, tick := d.1, event := PatchSourceAt(AtHome(c), c.event, Body(c.exec.row), f(m).net),
         exec := if f(m).net.Fine? then PatchSent(c.exec.id, c.exec.row) else Raised(c.exec.id, c.exec.row, f(m).net.e)),
      m + 1)
  {
    OneStep(f, now, s, n, c, m);
  }

  lemma RemoveSourceSent(f: Forecast, now: int, s: Cell, n: nat, c: Cell, m: nat, d: (Slots, nat))
    requires Continues(f, now, s, n, c, m) && c.exec.Removing?
    requires d == Disturb(c.slots, c.tick, f(m).meanwhile)
    ensures Continues(f, now, s, n,
      c.(slots := d.0, tick := d.1, event := RemoveSourceAt(AtHome(c), c.event, f(m).net),
         exec := if f(m).net.Fine? then RemoveSent(c.exec.id, c.exec.row) else Raised(c.exec.id, c.exec.row, f(m).net.e)),
      m + 1)
  {
    OneStep(f, now, s, n, c, m);
  }

  lemma BurnRecorded(f: Forecast, now: int, s: Cell, n: nat, c: Cell, m: nat)
    requires Continues(f, now, s, n, c, m) && c.exec.Burned?
    ensures Continues(f, now, s, n,
      c.(proj := c.proj.(gen := c.exec.gen), exec := Creating(c.exec.id, c.exec.row, c.exec.gen, c.exec.floor, c.exec.left)), m)
  {
    OneStep(f, now, s, n, c, m);
  }

  lemma GivenUp(f: Forecast, now: int, s: Cell, n: nat, c: Cell, m: nat)
    requires Continues(f, now, s, n, c, m) && c.exec.GivingUp?
    ensures c.exec.id in c.rows && Continues(f, now, s, n, MarkFailed(c, c.exec.id, c.exec.gen, now), m)
  {
    OneStep(f, now, s, n, c, m);
  }

  lemma CreateRecorded(f: Forecast, now: int, s: Cell, n: nat, c: Cell, m: nat)
    requires Continues(f, now, s, n, c, m) && c.exec.Created?
    ensures var e := c.exec;
            && e.id in c.rows
            && Continues(f, now, s, n,
                 c.(proj := RecordSuccess(c.proj.(gen := e.gen, floor := e.gen), e.row, e.gen, e.etag),
                    rows := c.rows[e.id := DoneRow(c.rows[e.id], now)], exec := Idle), m)
  {
    OneStep(f, now, s, n, c, m);
  }

  lemma UpdateRecorded(f: Forecast, now: int, s: Cell, n: nat, c: Cell, m: nat)
    requires Continues(f, now, s, n, c, m) && c.exec.Updated?
    ensures var e := c.exec;
            && e.id in c.rows
            && Continues(f, now, s, n,
                 c.(proj := RecordSuccess(c.proj, e.row, e.gen, e.etag),
                    rows := c.rows[e.id := DoneRow(c.rows[e.id], now)], exec := Idle), m)
  {
    OneStep(f, now, s, n, c, m);
  }

  lemma GoneRecorded(f: Forecast, now: int, s: Cell, n: nat, c: Cell, m: nat)
    requires Continues(f, now, s, n, c, m) && c.exec.Vanished?
    ensures Continues(f, now, s, n,
      c.(proj := ResetGone(c.proj), exec := Superseding(c.exec.id, c.exec.row, "target_event_gone", c.exec.http)), m)
  {
    OneStep(f, now, s, n, c, m);
  }

  /** Mark superseded, then ask for a replan: two transactions. */
  lemma SupersedeRecorded(f: Forecast, now: int, s: Cell, n: nat, c: Cell, m: nat)
    requires Continues(f, now, s, n, c, m) && c.exec.Superseding?
    ensures var e := c.exec;
            && e.id in c.rows
            && Continues(f, now, s, n,
                 c.(proj := c.proj.(appliedVersion := None),
                    rows := c.rows[e.id := SupersededRow(c.rows[e.id], e.error, Some(e.http), now)], exec := Idle), m)
  {
    OneStep(f, now, s, n, c, m);
    var d := c.(rows := c.rows[c.exec.id := SupersededRow(c.rows[c.exec.id], c.exec.error, Some(c.exec.http), now)],
                exec := Replanning);
    OneStep(f, now, s, n, d, m);
  }

  lemma AbsenceRecorded(f: Forecast, now: int, s: Cell, n: nat, c: Cell, m: nat)
    requires Continues(f, now, s, n, c, m) && c.exec.Deleted?
    ensures var e := c.exec;
            && e.id in c.rows
            && Continues(f, now, s, n,
                 c.(proj := RecordAbsent(c.proj, e.row), rows := c.rows[e.id := DoneRow(c.rows[e.id], now)], exec := Idle), m)
  {
    OneStep(f, now, s, n, c, m);
  }

  lemma WritebackRecorded(f: Forecast, now: int, s: Cell, n: nat, c: Cell, m: nat)
    requires Continues(f, now, s, n, c, m) && c.exec.PatchSent?
    ensures var e := c.exec;
            && e.id in c.rows
            && Continues(f, now, s, n,
                 c.(proj := RecordWriteback(c.proj, e.row), flags := c.flags.(patchArmed := false),
                    rows := c.rows[e.id := DoneRow(c.rows[e.id], now)], exec := Idle), m)
  {
    OneStep(f, now, s, n, c, m);
  }

  lemma RemovalRecorded(f: Forecast, now: int, s: Cell, n: nat, c: Cell, m: nat)
    requires Continues(f, now, s, n, c, m) && c.exec.RemoveSent?
    ensures var e := c.exec;
            && e.id in c.rows
            && Continues(f, now, s, n,
                 c.(proj := RecordAbsent(c.proj, e.row), flags := c.flags.(deleteArmed := false),
                    rows := c.rows[e.id := DoneRow(c.rows[e.id], now)], exec := Idle), m)
  {
    OneStep(f, now, s, n, c, m);
  }

  lemma ErrorRecorded(f: Forecast, now: int, s: Cell, n: nat, c: Cell, m: nat)
    requires Continues(f, now, s, n, c, m) && c.exec.Raised?
    ensures var e := c.exec;
            && e.id in c.rows
            && Continues(f, now, s, n,
                 if Poisoned(e.row, e.err) then MarkFailed(c, e.id, c.proj.gen, now)
                 else c.(rows := c.rows[e.id := RetryRow(c.rows[e.id], e.row.attempts, "retry", None, now)], exec := Idle), m)
  {
    OneStep(f, now, s, n, c, m);
  }
}
