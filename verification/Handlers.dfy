/** Executing one op (app/ledger/outbox.py:396-675 and 799-957, 1260-1300).  Every handler is
    proved to do exactly what the worker of the transition system does under the same weather. */
module Handlers {
  import opened Base
  import opened OutboxTable
  import opened GoogleModel
  import opened Protocol
  import opened Worker
  import opened WorkerSteps
  import opened Records

  datatype Outcome = Succeeded | Retried | FailedPermanent | WasSuperseded

  /** A handler records an outcome, or raises. */
  datatype Handled = Recorded(outcome: Outcome) | Raise(err: Err)

  function StatusOf(o: Outcome): Status {
    match o
    case Succeeded => Done
    case Retried => Pending
    case FailedPermanent => PermanentFailure
    case WasSuperseded => Superseded
  }

  function ExecAfter(h: Handled, id: nat, read: Row): Exec {
    if h.Recorded? then Idle else Raised(id, read, h.err)
  }

  /** Give the op up for a fresh one: mark it superseded and ask for a replan. */
  method SupersedeForReplan(google: Google, account: Account, proj: ProjectionRecord, op: OpRecord, read: Row,
                            error: string, http: nat, now: int, ghost s: Cell, ghost n: nat)
    returns (h: Handled)
    requires Continues(google.forecast, now, s, n,
                       Desk(google, account, proj, op, Superseding(op.id, read, error, http)), google.asked)
    modifies proj, op
    ensures Continues(google.forecast, now, s, n, Desk(google, account, proj, op, Idle), google.asked)
    ensures h == Recorded(WasSuperseded) && op.row.status == Superseded
  {
    SupersedeRecorded(google.forecast, now, s, n,
                      Desk(google, account, proj, op, Superseding(op.id, read, error, http)), google.asked);
    op.MarkSuperseded(error, http, now);
    proj.RequestProjectionReplan();
    h := Recorded(WasSuperseded);
  }

  /** Every id of the episode is burned. */
  method GiveUp(google: Google, account: Account, proj: ProjectionRecord, op: OpRecord, read: Row,
                generation: nat, now: int, ghost s: Cell, ghost n: nat)
    returns (h: Handled)
    requires Continues(google.forecast, now, s, n,
                       Desk(google, account, proj, op, GivingUp(op.id, read, generation)), google.asked)
    modifies proj, op
    ensures Continues(google.forecast, now, s, n, Desk(google, account, proj, op, Idle), google.asked)
    ensures h == Recorded(FailedPermanent) && op.row.status == PermanentFailure
  {
    GivenUp(google.forecast, now, s, n, Desk(google, account, proj, op, GivingUp(op.id, read, generation)), google.asked);
    proj.GiveUpBurnedIds(op, generation, now);
    h := Recorded(FailedPermanent);
  }

  /** A converged create ends the episode: the floor advances to the generation that landed. */
  method FinishCreate(google: Google, account: Account, proj: ProjectionRecord, op: OpRecord, read: Row,
                      generation: nat, etag: nat, now: int, ghost s: Cell, ghost n: nat)
    returns (h: Handled)
    requires Continues(google.forecast, now, s, n,
                       Desk(google, account, proj, op, Created(op.id, read, generation, etag)), google.asked)
    modifies proj, op
    ensures Continues(google.forecast, now, s, n, Desk(google, account, proj, op, Idle), google.asked)
    ensures h == Recorded(Succeeded) && op.row.status == Done
  {
    CreateRecorded(google.forecast, now, s, n,
                   Desk(google, account, proj, op, Created(op.id, read, generation, etag)), google.asked);
    proj.p := proj.p.(gen := generation, floor := generation);
    proj.RecordSuccess(op, read, generation, etag, now);
    h := Recorded(Succeeded);
  }

  /** A 412: refresh the stored etag as far as possible, then ask for a replan. */
  method RefreshEtag(google: Google, account: Account, proj: ProjectionRecord, op: OpRecord, read: Row,
                     gid: nat, now: int, ghost s: Cell, ghost n: nat)
    returns (h: Handled)
    requires account.calendar == proj.site.calendar
    requires Continues(google.forecast, now, s, n,
                       Desk(google, account, proj, op, Refreshing(op.id, read, gid)), google.asked)
    modifies google, account, proj, op
    ensures Continues(google.forecast, now, s, n, Desk(google, account, proj, op, Idle), google.asked)
    ensures h == Recorded(WasSuperseded) && op.row.status == Superseded
  {
    ghost var d := Disturb(account.slots, google.tick, google.forecast(google.asked).meanwhile);
    RefreshSent(google.forecast, now, s, n, Desk(google, account, proj, op, Refreshing(op.id, read, gid)), google.asked, d);
    var current := google.GetEvent(account, read.calendar, gid);
    if current.Event? {
      proj.p := proj.p.(etag := Some(current.etag));
    }
    h := SupersedeForReplan(google, account, proj, op, read, "etag_mismatch", 412, now, s, n);
  }

  datatype Conflict = IdBurned | Landed(etag: nat) | Ended(h: Handled)

  function ExecAfterConflict(r: Conflict, id: nat, read: Row, gen: nat, floor: nat, left: nat): Exec
    requires left > 0
  {
    match r
    case IdBurned =>
      if gen + 1 - floor >= MAX_TOTAL_ID_GENERATIONS then GivingUp(id, read, gen + 1)
      else Burned(id, read, gen + 1, floor, left - 1)
    case Landed(etag) => Created(id, read, gen, etag)
    case Ended(h) => ExecAfter(h, id, read)
  }

  /** What the reply to the restoring UPDATE means for the loop. */
  lemma RestoreMeans(id: nat, read: Row, gen: nat, floor: nat, left: nat, etag: nat, reply: Reply)
    requires left > 0
    ensures var e := AfterRestore(Restoring(id, read, gen, etag), reply);
            && (reply.Ok? ==> e == ExecAfterConflict(Landed(reply.etag), id, read, gen, floor, left))
            && (reply.Mismatch? ==> e == Superseding(id, read, "etag_mismatch_on_409", 412))
            && (reply.Error? ==> e == ExecAfterConflict(Ended(Raise(reply.e)), id, read, gen, floor, left))
            && (reply.Missing? ==> e == ExecAfterConflict(Ended(Raise(if reply.http == 410 then Transient else Denied)),
                                                          id, read, gen, floor, left))
            && (reply.Exists? ==> e == ExecAfterConflict(Ended(Raise(Transient)), id, read, gen, floor, left))
  {
  }

  /** `update_event` on the copy found at our id, conditional on its etag. */
  method AskRestore(google: Google, account: Account, proj: ProjectionRecord, op: OpRecord, read: Row,
                    gen: nat, etag: nat, now: int, ghost s: Cell, ghost n: nat)
    returns (reply: Reply)
    requires account.calendar == proj.site.calendar
    requires read.payload.Some?
    requires Continues(google.forecast, now, s, n,
                       Desk(google, account, proj, op, Restoring(op.id, read, gen, etag)), google.asked)
    modifies google, account
    ensures Continues(google.forecast, now, s, n,
                      Desk(google, account, proj, op, AfterRestore(Restoring(op.id, read, gen, etag), reply)), google.asked)
  {
    ghost var f := google.forecast;
    ghost var d := Disturb(account.slots, google.tick, f(google.asked).meanwhile);
    ghost var c, m := Desk(google, account, proj, op, Restoring(op.id, read, gen, etag)), google.asked;
    reply := google.UpdateEvent(account, read.calendar, gen, read.payload.value, Some(etag));
    RestoreSent(f, now, s, n, c, m, d, Answer(account.slots, google.tick, reply));
  }

  /** A live event sits at our id: restore our payload over it. */
  method RestoreCopy(google: Google, account: Account, proj: ProjectionRecord, op: OpRecord, read: Row,
                     gen: nat, floor: nat, left: nat, etag: nat, now: int, ghost s: Cell, ghost n: nat)
    returns (r: Conflict)
    requires account.calendar == proj.site.calendar
    requires left > 0 && read.payload.Some?
    requires Continues(google.forecast, now, s, n,
                       Desk(google, account, proj, op, Restoring(op.id, read, gen, etag)), google.asked)
    modifies google, account, proj, op
    ensures Continues(google.forecast, now, s, n,
                      Desk(google, account, proj, op, ExecAfterConflict(r, op.id, read, gen, floor, left)), google.asked)
    ensures r.Ended? && r.h.Recorded? ==> op.row.status == StatusOf(r.h.outcome)
    ensures !(r.Ended? && r.h.Recorded?) ==> op.row == old(op.row)
  {
    var reply := AskRestore(google, account, proj, op, read, gen, etag, now, s, n);
    RestoreMeans(op.id, read, gen, floor, left, etag, reply);
    match reply {
      case Ok(tag) => return Landed(tag);
      case Mismatch =>
        var h := SupersedeForReplan(google, account, proj, op, read, "etag_mismatch_on_409", 412, now, s, n);
        return Ended(h);
      case Error(err) => return Ended(Raise(err));
      case Missing(http) => return Ended(Raise(if http == 410 then Transient else Denied));
      case Exists => return Ended(Raise(Transient));
    }
  }

  /** What the confirming GET means for the loop. */
  lemma ConfirmMeans(id: nat, read: Row, gen: nat, floor: nat, left: nat, found: Found)
    requires left > 0
    ensures var e := AfterConfirm(Conflicted(id, read, gen, floor, left), found);
            && (found.Failed? ==> e == ExecAfterConflict(Ended(Raise(found.e)), id, read, gen, floor, left))
            && (found.NotThere? || (found.Event? && !found.live) ==> e == ExecAfterConflict(IdBurned, id, read, gen, floor, left))
            && (found.Event? && found.live ==> e == Restoring(id, read, gen, found.etag))
  {
  }

  /** The id is taken: a burned id is to be skipped, our own live copy is restored. */
  method ResolveConflict(google: Google, account: Account, proj: ProjectionRecord, op: OpRecord, read: Row,
                         gen: nat, floor: nat, left: nat, now: int, ghost s: Cell, ghost n: nat)
    returns (r: Conflict)
    requires account.calendar == proj.site.calendar
    requires left > 0 && read.payload.Some?
    requires Continues(google.forecast, now, s, n,
                       Desk(google, account, proj, op, Conflicted(op.id, read, gen, floor, left)), google.asked)
    modifies google, account, proj, op
    ensures Continues(google.forecast, now, s, n,
                      Desk(google, account, proj, op, ExecAfterConflict(r, op.id, read, gen, floor, left)), google.asked)
    ensures r.Ended? && r.h.Recorded? ==> op.row.status == StatusOf(r.h.outcome)
    ensures !(r.Ended? && r.h.Recorded?) ==> op.row == old(op.row)
  {
    ghost var f := google.forecast;
    ghost var d := Disturb(account.slots, google.tick, f(google.asked).meanwhile);
    ConfirmSent(f, now, s, n, Desk(google, account, proj, op, Conflicted(op.id, read, gen, floor, left)), google.asked, d);
    var existing := google.GetEvent(account, read.calendar, gen);
    ConfirmMeans(op.id, read, gen, floor, left, existing);
    if existing.Failed? {
      return Ended(Raise(existing.e));
    }
    if existing.NotThere? || !existing.live {
      return IdBurned;
    }
    r := RestoreCopy(google, account, proj, op, read, gen, floor, left, existing.etag, now, s, n);
  }

  /** `UPDATE ledger_projections SET google_id_generation = ?`. */
  method PersistGeneration(google: Google, account: Account, proj: ProjectionRecord, op: OpRecord, read: Row,
                           gen: nat, floor: nat, left: nat, now: int, ghost s: Cell, ghost n: nat)
    requires Continues(google.forecast, now, s, n,
                       Desk(google, account, proj, op, Burned(op.id, read, gen, floor, left)), google.asked)
    modifies proj`p
    ensures Continues(google.forecast, now, s, n,
                      Desk(google, account, proj, op, Creating(op.id, read, gen, floor, left)), google.asked)
    ensures proj.p == old(proj.p).(gen := gen)
  {
    BurnRecorded(google.forecast, now, s, n,
                 Desk(google, account, proj, op, Burned(op.id, read, gen, floor, left)), google.asked);
    proj.p := proj.p.(gen := gen);
  }

  /** Move past a burned id, unless it was the last one of the episode. */
  method SkipBurnedId(google: Google, account: Account, proj: ProjectionRecord, op: OpRecord, read: Row,
                      gen: nat, floor: nat, left: nat, now: int, ghost s: Cell, ghost n: nat)
    returns (ended: Option<Handled>)
    requires left > 0
    requires Continues(google.forecast, now, s, n,
                       Desk(google, account, proj, op, ExecAfterConflict(IdBurned, op.id, read, gen, floor, left)), google.asked)
    modifies proj, op
    ensures Continues(google.forecast, now, s, n,
                      Desk(google, account, proj, op,
                           if ended.Some? then Idle else Creating(op.id, read, gen + 1, floor, left - 1)), google.asked)
    ensures if ended.Some? then ended == Some(Recorded(FailedPermanent)) && op.row.status == PermanentFailure
            else op.row == old(op.row)
  {
    if gen + 1 - floor >= MAX_TOTAL_ID_GENERATIONS {
      var h := GiveUp(google, account, proj, op, read, gen + 1, now, s, n);
      return Some(h);
    }
    PersistGeneration(google, account, proj, op, read, gen + 1, floor, left - 1, now, s, n);
    ended := None;
  }

  /** One try of the create loop: insert under this generation's id. */
  method TryGeneration(google: Google, account: Account, proj: ProjectionRecord, op: OpRecord, read: Row,
                       gen: nat, floor: nat, left: nat, now: int, ghost s: Cell, ghost n: nat)
    returns (r: Conflict)
    requires account.calendar == proj.site.calendar
    requires left > 0 && read.payload.Some?
    requires Continues(google.forecast, now, s, n,
                       Desk(google, account, proj, op, Creating(op.id, read, gen, floor, left)), google.asked)
    modifies google, account, proj, op
    ensures Continues(google.forecast, now, s, n,
                      Desk(google, account, proj, op, ExecAfterConflict(r, op.id, read, gen, floor, left)), google.asked)
    ensures r.Ended? && r.h.Recorded? ==> op.row.status == StatusOf(r.h.outcome)
    ensures !(r.Ended? && r.h.Recorded?) ==> op.row == old(op.row)
  {
    ghost var f := google.forecast;
    ghost var d := Disturb(account.slots, google.tick, f(google.asked).meanwhile);
    ghost var c, m := Desk(google, account, proj, op, Creating(op.id, read, gen, floor, left)), google.asked;
    var reply := google.InsertEvent(account, read.calendar, gen, read.payload.value);
    InsertSent(f, now, s, n, c, m, d, Answer(account.slots, google.tick, reply));
    match reply {
      case Ok(etag) => return Landed(etag);
      case Error(err) => return Ended(Raise(err));
      case _ => r := ResolveConflict(google, account, proj, op, read, gen, floor, left, now, s, n);
    }
  }

  /** Insert with a deterministic id, treating a 409 as success; burned ids are skipped. */
  method DoCreate(google: Google, account: Account, proj: ProjectionRecord, op: OpRecord, read: Row, now: int)
    returns (h: Handled)
    requires account.calendar == proj.site.calendar
    requires read.kind == Create
    modifies google, account, proj, op
    ensures Continues(google.forecast, now, old(Desk(google, account, proj, op, Ready(op.id, read))), old(google.asked),
                      Desk(google, account, proj, op, ExecAfter(h, op.id, read)), google.asked)
    ensures h.Recorded? ==> op.row.status == StatusOf(h.outcome)
    ensures h.Raise? ==> op.row == old(op.row)
  {
    ghost var f, s, n := google.forecast, Desk(google, account, proj, op, Ready(op.id, read)), google.asked;
    Begun(f, now, s, n);
    if read.payload.None? {
      return Raise(Local);
    }
    var generation: nat, floor: nat := proj.p.gen, proj.p.floor;
    if generation - floor >= MAX_TOTAL_ID_GENERATIONS {
      h := GiveUp(google, account, proj, op, read, generation, now, s, n);
      return;
    }
    var tries := 0;
    while tries < MAX_ID_GENERATIONS
      invariant tries <= MAX_ID_GENERATIONS && op.row == old(op.row)
      invariant Continues(f, now, s, n,
        Desk(google, account, proj, op, Creating(op.id, read, generation, floor, MAX_ID_GENERATIONS - tries)), google.asked)
    {
      var r := TryGeneration(google, account, proj, op, read, generation, floor, MAX_ID_GENERATIONS - tries, now, s, n);
      match r {
        case Ended(outcome) => return outcome;
        case Landed(etag) =>
          h := FinishCreate(google, account, proj, op, read, generation, etag, now, s, n);
          return;
        case IdBurned =>
          var ended := SkipBurnedId(google, account, proj, op, read, generation, floor, MAX_ID_GENERATIONS - tries, now, s, n);
          if ended.Some? {
            return ended.value;
          }
          generation, tries := generation + 1, tries + 1;
      }
    }
    TriesExhausted(f, now, s, n, Desk(google, account, proj, op, Creating(op.id, read, generation, floor, 0)), google.asked);
    return Raise(Transient);
  }

  /** Etag-gated update; a 412 refreshes the etag, a 404/410 resets the projection, and both ask
      for a replan. */
  method DoUpdate(google: Google, account: Account, proj: ProjectionRecord, op: OpRecord, read: Row, now: int)
    returns (h: Handled)
    requires account.calendar == proj.site.calendar
    requires read.kind == OpKind.Update
    modifies google, account, proj, op
    ensures Continues(google.forecast, now, old(Desk(google, account, proj, op, Ready(op.id, read))), old(google.asked),
                      Desk(google, account, proj, op, ExecAfter(h, op.id, read)), google.asked)
    ensures h.Recorded? ==> op.row.status == StatusOf(h.outcome)
    ensures h.Raise? ==> op.row == old(op.row)
  {
    ghost var f, s, n := google.forecast, Desk(google, account, proj, op, Ready(op.id, read)), google.asked;
    Begun(f, now, s, n);
    if read.payload.None? || proj.p.gid.None? {
      return Raise(Local);
    }
    var gid := proj.p.gid.value;
    ghost var d := Disturb(account.slots, google.tick, f(n).meanwhile);
    ghost var c := Desk(google, account, proj, op, Updating(op.id, read, gid, proj.p.etag));
    var reply := google.UpdateEvent(account, read.calendar, gid, read.payload.value, proj.p.etag);
    UpdateSent(f, now, s, n, c, n, d, Answer(account.slots, google.tick, reply));
    match reply {
      case Ok(etag) =>
        UpdateRecorded(f, now, s, n, Desk(google, account, proj, op, Updated(op.id, read, gid, etag)), google.asked);
        proj.RecordSuccess(op, read, gid, etag, now);
        return Recorded(Succeeded);
      case Mismatch =>
        h := RefreshEtag(google, account, proj, op, read, gid, now, s, n);
      case Missing(http) =>
        GoneRecorded(f, now, s, n, Desk(google, account, proj, op, Vanished(op.id, read, gid, http)), google.asked);
        proj.p := ResetGone(proj.p);
        h := SupersedeForReplan(google, account, proj, op, read, "target_event_gone", http, now, s, n);
      case Error(err) => return Raise(err);
      case Exists => return Raise(Transient);
    }
  }

  /** Idempotent, unconditional delete. */
  method DoDelete(google: Google, account: Account, proj: ProjectionRecord, op: OpRecord, read: Row, now: int)
    returns (h: Handled)
    requires account.calendar == proj.site.calendar
    requires read.kind == OpKind.Delete
    modifies google, account, proj, op
    ensures Continues(google.forecast, now, old(Desk(google, account, proj, op, Ready(op.id, read))), old(google.asked),
                      Desk(google, account, proj, op, ExecAfter(h, op.id, read)), google.asked)
    ensures h.Recorded? ==> op.row.status == StatusOf(h.outcome)
    ensures h.Raise? ==> op.row == old(op.row)
  {
    ghost var f, s, n := google.forecast, Desk(google, account, proj, op, Ready(op.id, read)), google.asked;
    Begun(f, now, s, n);
    var gid := proj.p.gid;
    if gid.Some? {
      ghost var d := Disturb(account.slots, google.tick, f(n).meanwhile);
      ghost var c := Desk(google, account, proj, op, Deleting(op.id, read, gid.value));
      var reply := google.DeleteEvent(account, read.calendar, gid.value);
      DeleteSent(f, now, s, n, c, n, d, Answer(account.slots, google.tick, reply));
      if reply.Error? {
        return Raise(reply.e);
      }
    }
    AbsenceRecorded(f, now, s, n, Desk(google, account, proj, op, Deleted(op.id, read)), google.asked);
    proj.RecordAbsent(op, read, now);
    return Recorded(Succeeded);
  }

  /** Write the user's edits back onto the source event; personal sources are read-only. */
  method DoPatch(google: Google, account: Account, proj: ProjectionRecord, op: OpRecord, read: Row, now: int)
    returns (h: Handled)
    requires account.calendar == proj.site.calendar
    requires read.kind == Patch
    modifies google, account, proj, op
    ensures Continues(google.forecast, now, old(Desk(google, account, proj, op, Ready(op.id, read))), old(google.asked),
                      Desk(google, account, proj, op, ExecAfter(h, op.id, read)), google.asked)
    ensures h.Recorded? && read.calendar == account.calendar && proj.site.sourceType != FromPersonal && proj.flags.hasId ==>
              && !proj.flags.patchArmed && read.payload.Some?
              && account.event == if old(account.event.alive)
                   then old(account.event).(writes := old(account.event.writes) + [Patched(read.payload.value)])
                   else old(account.event)
    ensures h.Recorded? ==> op.row.status == StatusOf(h.outcome)
    ensures h.Raise? ==> op.row == old(op.row)
  {
    ghost var f, s, n := google.forecast, Desk(google, account, proj, op, Ready(op.id, read)), google.asked;
    Begun(f, now, s, n);
    if read.payload.None? {
      return Raise(Local);
    }
    if proj.site.sourceType != FromPersonal && proj.flags.hasId {
      ghost var d := Disturb(account.slots, google.tick, f(n).meanwhile);
      PatchSourceSent(f, now, s, n, Desk(google, account, proj, op, Patching(op.id, read)), n, d);
      var error := google.PatchSourceEvent(account, read.calendar, read.payload.value);
      if error.Some? {
        return Raise(error.value);
      }
    }
    WritebackRecorded(f, now, s, n, Desk(google, account, proj, op, PatchSent(op.id, read)), google.asked);
    proj.RecordOriginWritebackApplied(op, read, now);
    return Recorded(Succeeded);
  }

  /** Delete on the user's source calendar. */
  method DoDeleteSource(google: Google, account: Account, proj: ProjectionRecord, op: OpRecord, read: Row, now: int)
    returns (h: Handled)
    requires account.calendar == proj.site.calendar
    requires read.kind == DeleteSource
    modifies google, account, proj, op
    ensures Continues(google.forecast, now, old(Desk(google, account, proj, op, Ready(op.id, read))), old(google.asked),
                      Desk(google, account, proj, op, ExecAfter(h, op.id, read)), google.asked)
    ensures h.Recorded? && read.calendar == account.calendar && proj.site.sourceType != FromPersonal && proj.flags.hasId ==>
              && !proj.flags.deleteArmed && !account.event.alive
              && (old(account.event.alive) ==> account.event.writes == old(account.event.writes) + [Removed])
    ensures h.Recorded? ==> op.row.status == StatusOf(h.outcome)
    ensures h.Raise? ==> op.row == old(op.row)
  {
    ghost var f, s, n := google.forecast, Desk(google, account, proj, op, Ready(op.id, read)), google.asked;
    Begun(f, now, s, n);
    if proj.site.sourceType != FromPersonal && proj.flags.hasId {
      ghost var d := Disturb(account.slots, google.tick, f(n).meanwhile);
      RemoveSourceSent(f, now, s, n, Desk(google, account, proj, op, Removing(op.id, read)), n, d);
      var error := google.DeleteSourceEvent(account, read.calendar);
      if error.Some? {
        return Raise(error.value);
      }
    }
    RemovalRecorded(f, now, s, n, Desk(google, account, proj, op, RemoveSent(op.id, read)), google.asked);
    proj.flags := proj.flags.(deleteArmed := false);
    proj.RecordAbsent(op, read, now);
    return Recorded(Succeeded);
  }

  /** Retry for ever, or give up after five tries of a failure no retry can fix. */
  method ClassifyAndRetry(proj: ProjectionRecord, op: OpRecord, read: Row, err: Err, now: int) returns (outcome: Outcome)
    modifies proj, op
    ensures op.row.status == StatusOf(outcome)
    ensures if Poisoned(read, err)
            then && op.row == FailedRow(old(op.row), "failed", None, now) && outcome == FailedPermanent
                 && proj.p == old(proj.p).(current := Errored, failed := true)
                 && proj.log == old(proj.log).(everFailed := true)
            else && op.row == RetryRow(old(op.row), read.attempts, "retry", None, now) && outcome == Retried
                 && proj.p == old(proj.p) && proj.log == old(proj.log)
    ensures proj.flags == old(proj.flags)
  {
    if (err == Denied || err == Local) && read.attempts >= POISON_PILL_THRESHOLD {
      proj.MarkPermanentFailure(op, now);
      return FailedPermanent;
    }
    op.MarkRetry(read, now);
    return Retried;
  }

  method Dispatch(google: Google, account: Account, proj: ProjectionRecord, op: OpRecord, read: Row, now: int)
    returns (h: Handled)
    requires account.calendar == proj.site.calendar
    modifies google, account, proj, op
    ensures Continues(google.forecast, now, old(Desk(google, account, proj, op, Ready(op.id, read))), old(google.asked),
                      Desk(google, account, proj, op, ExecAfter(h, op.id, read)), google.asked)
    ensures h.Recorded? ==> op.row.status == StatusOf(h.outcome)
    ensures h.Raise? ==> op.row == old(op.row)
  {
    match read.kind
    case Create => h := DoCreate(google, account, proj, op, read, now);
    case Update => h := DoUpdate(google, account, proj, op, read, now);
    case Delete => h := DoDelete(google, account, proj, op, read, now);
    case Patch => h := DoPatch(google, account, proj, op, read, now);
    case DeleteSource => h := DoDeleteSource(google, account, proj, op, read, now);
  }

  /** One op against Google: the records end exactly where the worker of the transition system
      ends, and the outcome reported is the one recorded. */
  method ExecuteOp(google: Google, account: Account, proj: ProjectionRecord, op: OpRecord, read: Row, now: int)
    returns (outcome: Outcome)
    requires account.calendar == proj.site.calendar
    modifies google, account, proj, op
    ensures (Desk(google, account, proj, op, Idle), google.asked) ==
            Perform(old(Desk(google, account, proj, op, Ready(op.id, read))), google.forecast, old(google.asked), now)
    ensures op.row.status == StatusOf(outcome)
  {
    ghost var f, s, n := google.forecast, Desk(google, account, proj, op, Ready(op.id, read)), google.asked;
    var h := Dispatch(google, account, proj, op, read, now);
    if h.Recorded? {
      ContinuesToTheEnd(f, now, s, n, Desk(google, account, proj, op, Idle), google.asked);
      return h.outcome;
    }
    ErrorRecorded(f, now, s, n, Desk(google, account, proj, op, Raised(op.id, read, h.err)), google.asked);
    outcome := ClassifyAndRetry(proj, op, read, h.err, now);
    ContinuesToTheEnd(f, now, s, n, Desk(google, account, proj, op, Idle), google.asked);
  }
}
