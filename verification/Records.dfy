/** The records one op touches, updated in place, and the calendar service
    (app/ledger/schema.py:99-171; the writers of app/ledger/outbox.py:964-1214, 1305-1323). */
module Records {
  import opened Base
  import opened OutboxTable
  import opened GoogleModel
  import opened Protocol
  import opened Worker

  /** What Google holds for one projection in its calendar: the ids derived for it, and the source event
      behind it. */
  class Account {
    const pid: nat
    const calendar: nat
    var slots: Slots
    var event: SourceEvent

    constructor (pid: nat, calendar: nat, slots: Slots, event: SourceEvent)
      ensures this.pid == pid && this.calendar == calendar && this.slots == slots && this.event == event
    {
      this.pid := pid;
      this.calendar := calendar;
      this.slots := slots;
      this.event := event;
    }
  }

  /** The service.  `forecast` is how the network will treat each call; a call addressed to another calendar
      than the account's does not touch the account. */
  class Google {
    const forecast: Forecast
    var asked: nat
    var tick: nat

    constructor (forecast: Forecast, tick: nat)
      ensures this.forecast == forecast && this.tick == tick && asked == 0
    {
      this.forecast := forecast;
      this.asked := 0;
      this.tick := tick;
    }

    /** Between two calls users may touch the copies. */
    method LetUsersAct(account: Account)
      modifies this`tick, account`slots
      ensures (account.slots, tick) == Disturb(old(account.slots), old(tick), forecast(asked).meanwhile)
    {
      var d := Disturb(account.slots, tick, forecast(asked).meanwhile);
      account.slots, tick := d.0, d.1;
    }

    method InsertEvent(account: Account, calendar: nat, gen: nat, body: Content) returns (reply: Reply)
      modifies this, account`slots
      ensures var d := Disturb(old(account.slots), old(tick), forecast(old(asked)).meanwhile);
              Answer(account.slots, tick, reply) ==
              InsertAt(calendar == account.calendar, d.0, d.1, gen, body, forecast(old(asked)).net)
      ensures asked == old(asked) + 1
    {
      LetUsersAct(account);
      var a := InsertAt(calendar == account.calendar, account.slots, tick, gen, body, forecast(asked).net);
      account.slots := a.slots;
      asked, tick, reply := asked + 1, a.tick, a.reply;
    }

    method GetEvent(account: Account, calendar: nat, gen: nat) returns (found: Found)
      modifies this, account`slots
      ensures (account.slots, tick) == Disturb(old(account.slots), old(tick), forecast(old(asked)).meanwhile)
      ensures found == GetAt(calendar == account.calendar, account.slots, gen, forecast(old(asked)).net)
      ensures asked == old(asked) + 1
    {
      LetUsersAct(account);
      found := GetAt(calendar == account.calendar, account.slots, gen, forecast(asked).net);
      asked := asked + 1;
    }

    method UpdateEvent(account: Account, calendar: nat, gen: nat, body: Content, ifMatch: Option<nat>) returns (reply: Reply)
      modifies this, account`slots
      ensures var d := Disturb(old(account.slots), old(tick), forecast(old(asked)).meanwhile);
              Answer(account.slots, tick, reply) ==
              UpdateAt(calendar == account.calendar, d.0, d.1, gen, body, ifMatch,
                                 forecast(old(asked)).net, forecast(old(asked)).gone)
      ensures asked == old(asked) + 1
    {
      LetUsersAct(account);
      var w := forecast(asked);
      var a := UpdateAt(calendar == account.calendar, account.slots, tick, gen, body, ifMatch, w.net, w.gone);
      account.slots := a.slots;
      asked, tick, reply := asked + 1, a.tick, a.reply;
    }

    method DeleteEvent(account: Account, calendar: nat, gen: nat) returns (reply: Reply)
      modifies this, account`slots
      ensures var d := Disturb(old(account.slots), old(tick), forecast(old(asked)).meanwhile);
              Answer(account.slots, tick, reply) ==
              DeleteAt(calendar == account.calendar, d.0, d.1, gen, forecast(old(asked)).net)
      ensures asked == old(asked) + 1
    {
      LetUsersAct(account);
      var a := DeleteAt(calendar == account.calendar, account.slots, tick, gen, forecast(asked).net);
      account.slots := a.slots;
      asked, tick, reply := asked + 1, a.tick, a.reply;
    }

    /** No error is a success, or the 404/410 the callers treat as one. */
    method PatchSourceEvent(account: Account, calendar: nat, body: Content) returns (error: Option<Err>)
      modifies this, account
      ensures (account.slots, tick) == Disturb(old(account.slots), old(tick), forecast(old(asked)).meanwhile)
      ensures account.event == PatchSourceAt(calendar == account.calendar, old(account.event), body, forecast(old(asked)).net)
      ensures error == ErrorOf(forecast(old(asked)).net) && asked == old(asked) + 1
    {
      LetUsersAct(account);
      account.event := PatchSourceAt(calendar == account.calendar, account.event, body, forecast(asked).net);
      error := ErrorOf(forecast(asked).net);
      asked := asked + 1;
    }

    method DeleteSourceEvent(account: Account, calendar: nat) returns (error: Option<Err>)
      modifies this, account
      ensures (account.slots, tick) == Disturb(old(account.slots), old(tick), forecast(old(asked)).meanwhile)
      ensures account.event == RemoveSourceAt(calendar == account.calendar, old(account.event), forecast(old(asked)).net)
      ensures error == ErrorOf(forecast(old(asked)).net) && asked == old(asked) + 1
    {
      LetUsersAct(account);
      account.event := RemoveSourceAt(calendar == account.calendar, account.event, forecast(asked).net);
      error := ErrorOf(forecast(asked).net);
      asked := asked + 1;
    }
  }

  function ErrorOf(net: Net): Option<Err> {
    if net.Fine? then None else Some(net.e)
  }

  /** An `outbox_operations` row. */
  class OpRecord {
    const id: nat
    var row: Row

    constructor (id: nat, row: Row)
      ensures this.id == id && this.row == row
    {
      this.id := id;
      this.row := row;
    }

    method MarkSuperseded(error: string, http: nat, now: int)
      modifies this`row
      ensures row == SupersededRow(old(row), error, Some(http), now)
    {
      row := SupersededRow(row, error, Some(http), now);
    }

    method MarkRetry(read: Row, now: int)
      modifies this`row
      ensures row == RetryRow(old(row), read.attempts, "retry", None, now)
    {
      row := RetryRow(row, read.attempts, "retry", None, now);
    }
  }

  /** A `ledger_projections` row, with the writeback flags of its ledger event (used for the origin
      projection only, of which an event has at most one) and its history. */
  class ProjectionRecord {
    const site: Site
    var p: Projection
    var flags: Flags
    var log: Log

    constructor (site: Site, p: Projection, flags: Flags, log: Log)
      ensures this.site == site && this.p == p && this.flags == flags && this.log == log
    {
      this.site := site;
      this.p := p;
      this.flags := flags;
      this.log := log;
    }

    method RecordSuccess(op: OpRecord, read: Row, gid: nat, etag: nat, now: int)
      modifies this`p, op`row
      ensures p == Protocol.RecordSuccess(old(p), read, gid, etag) && op.row == DoneRow(old(op.row), now)
    {
      p := Protocol.RecordSuccess(p, read, gid, etag);
      op.row := DoneRow(op.row, now);
    }

    method RecordAbsent(op: OpRecord, read: Row, now: int)
      modifies this`p, op`row
      ensures p == Protocol.RecordAbsent(old(p), read) && op.row == DoneRow(old(op.row), now)
    {
      p := Protocol.RecordAbsent(p, read);
      op.row := DoneRow(op.row, now);
    }

    method RecordOriginWritebackApplied(op: OpRecord, read: Row, now: int)
      modifies this`p, this`flags, op`row
      ensures p == RecordWriteback(old(p), read) && flags == old(flags).(patchArmed := false)
      ensures op.row == DoneRow(old(op.row), now)
    {
      p := RecordWriteback(p, read);
      flags := flags.(patchArmed := false);
      op.row := DoneRow(op.row, now);
    }

    method MarkPermanentFailure(op: OpRecord, now: int)
      modifies this`p, this`log, op`row
      ensures p == old(p).(current := Errored, failed := true) && log == old(log).(everFailed := true)
      ensures op.row == FailedRow(old(op.row), "failed", None, now)
    {
      op.row := FailedRow(op.row, "failed", None, now);
      p := p.(current := Errored, failed := true);
      log := log.(everFailed := true);
    }

    /** Persist the generation, so that an admin retry resumes past the burned ids, and fail. */
    method GiveUpBurnedIds(op: OpRecord, generation: nat, now: int)
      modifies this`p, this`log, op`row
      ensures p == old(p).(gen := generation, current := Errored, failed := true)
      ensures log == old(log).(everFailed := true) && op.row == FailedRow(old(op.row), "failed", None, now)
    {
      p := p.(gen := generation);
      MarkPermanentFailure(op, now);
    }

    method RequestProjectionReplan()
      modifies this`p
      ensures p == old(p).(appliedVersion := None)
    {
      p := p.(appliedVersion := None);
    }
  }

  /** A table of one row. */
  function Just(id: nat, r: Row): (t: Table)
    ensures forall r' :: t[id := r'] == map[id := r']
  {
    map[id := r]
  }

  /** What the transition system sees while the worker executes the op. */
  ghost function Desk(google: Google, account: Account, proj: ProjectionRecord, op: OpRecord, exec: Exec): Cell
    reads google, account, proj, op
  {
    Cell(proj.site, proj.p, Just(op.id, op.row), account.slots, google.tick, exec, proj.flags, account.event, proj.log)
  }
}
