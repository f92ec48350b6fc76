/** Google Calendar as the write pipeline sees it: one slot per id, permanent tombstones, a fresh
    etag per write, and calls that may fail, or take effect and lose their reply.

    Assumed of Google: an id that was used stays reserved for ever; a 409 on insert tells the
    truth; a GET answers 404 or 410, or a cancelled event, exactly for dead ids; a write to a
    dead id is answered 404, 410 or, when conditional, 412. */
module GoogleModel {
  import opened Base

  datatype Slot = Live(body: Content, etag: nat) | Tombstone(etag: nat)

  /** What Google holds at the ids of one projection; an id never used is missing. */
  type Slots = map<nat, Slot>

  /** Classes of errors `_classify_and_retry` distinguishes: statuses 400/401/403/404, quota
      answers, deterministic local errors (`ValueError`), and everything else. */
  datatype Err = Denied | RateLimited | Local | Transient

  /** How the network treats one call: it goes through, it never reaches Google, or it takes
      effect and the reply is lost. */
  datatype Net = Fine | Down(e: Err) | Lost(e: Err)

  /** What Google answers to a conditional write on a tombstone. */
  datatype GoneReply = NotFound | WasGone | PreconditionFailed

  /** Reply to a write: 200, 409, 412, 404 or 410, or any other failure. */
  datatype Reply = Ok(etag: nat) | Exists | Mismatch | Missing(http: nat) | Error(e: Err)

  datatype Found = Event(live: bool, etag: nat) | NotThere | Failed(e: Err)

  datatype Answer = Answer(slots: Slots, tick: nat, reply: Reply)

  function Insert(slots: Slots, tick: nat, gen: nat, body: Content, net: Net): Answer {
    if net.Down? then Answer(slots, tick, Error(net.e))
    else if gen in slots then Answer(slots, tick, if net.Lost? then Error(net.e) else Exists)
    else Answer(slots[gen := Live(body, tick)], tick + 1, if net.Lost? then Error(net.e) else Ok(tick))
  }

  function Get(slots: Slots, gen: nat, net: Net): Found {
    if !net.Fine? then Failed(net.e)
    else if gen in slots then Event(slots[gen].Live?, slots[gen].etag)
    else NotThere
  }

  function Update(slots: Slots, tick: nat, gen: nat, body: Content, ifMatch: Option<nat>, net: Net, gone: GoneReply): Answer {
    if net.Down? then Answer(slots, tick, Error(net.e))
    else if gen in slots && slots[gen].Live? && (ifMatch.None? || ifMatch.value == slots[gen].etag) then
      Answer(slots[gen := Live(body, tick)], tick + 1, if net.Lost? then Error(net.e) else Ok(tick))
    else if net.Lost? then Answer(slots, tick, Error(net.e))
    else if gen in slots && (slots[gen].Live? || (gone.PreconditionFailed? && ifMatch.Some? && ifMatch.value != slots[gen].etag)) then
      Answer(slots, tick, Mismatch)
    else Answer(slots, tick, Missing(if gone.WasGone? then 410 else 404))
  }

  /** Deleting a dead id is answered 404, 410 or 200; all three count as success. */
  function Delete(slots: Slots, tick: nat, gen: nat, net: Net): Answer {
    if net.Down? then Answer(slots, tick, Error(net.e))
    else
      var reply := if net.Lost? then Error(net.e) else Ok(tick);
      if gen in slots && slots[gen].Live? then Answer(slots[gen := Tombstone(tick)], tick + 1, reply)
      else Answer(slots, tick, reply)
  }

  // ---------------------------------------------------------------------------
  // Calls to the right calendar, and to another one
  // ---------------------------------------------------------------------------

  /** What a call sees: the slots are those of one calendar, and another one holds none of them. */
  function SeenFrom(home: bool, slots: Slots): Slots {
    if home then slots else map[]
  }

  /** What a call leaves: whatever it does to another calendar, the slots stay as they are. */
  function LeftBy(home: bool, slots: Slots, a: Answer): Answer {
    if home then a else a.(slots := slots)
  }

  function InsertAt(home: bool, slots: Slots, tick: nat, gen: nat, body: Content, net: Net): Answer {
    LeftBy(home, slots, Insert(SeenFrom(home, slots), tick, gen, body, net))
  }

  function GetAt(home: bool, slots: Slots, gen: nat, net: Net): Found {
    Get(SeenFrom(home, slots), gen, net)
  }

  function UpdateAt(home: bool, slots: Slots, tick: nat, gen: nat, body: Content, ifMatch: Option<nat>, net: Net, gone: GoneReply): Answer {
    LeftBy(home, slots, Update(SeenFrom(home, slots), tick, gen, body, ifMatch, net, gone))
  }

  function DeleteAt(home: bool, slots: Slots, tick: nat, gen: nat, net: Net): Answer {
    LeftBy(home, slots, Delete(SeenFrom(home, slots), tick, gen, net))
  }

  // ---------------------------------------------------------------------------
  // Users of the calendar
  // ---------------------------------------------------------------------------

  /** What a user did to our copies since the last call. */
  datatype Meanwhile = Quiet | EditsCopy(gen: nat, body: Content) | DeletesCopy(gen: nat)

  function Disturb(slots: Slots, tick: nat, m: Meanwhile): (Slots, nat) {
    if m.Quiet? || m.gen !in slots || slots[m.gen].Tombstone? then (slots, tick)
    else (slots[m.gen := if m.EditsCopy? then Live(m.body, tick) else Tombstone(tick)], tick + 1)
  }

  // ---------------------------------------------------------------------------
  // The user's own source event
  // ---------------------------------------------------------------------------

  datatype SourceWrite = Patched(body: Content) | Removed

  datatype SourceEvent = SourceEvent(alive: bool, writes: seq<SourceWrite>)

  /** `events.patch`; 404/410 count as success. */
  function PatchSource(ev: SourceEvent, body: Content, net: Net): SourceEvent {
    if !net.Down? && ev.alive then ev.(writes := ev.writes + [Patched(body)]) else ev
  }

  function RemoveSource(ev: SourceEvent, net: Net): SourceEvent {
    if !net.Down? && ev.alive then SourceEvent(false, ev.writes + [Removed]) else ev
  }

  /** The same calls, addressed to the calendar of the source event or to another one. */
  function PatchSourceAt(home: bool, ev: SourceEvent, body: Content, net: Net): SourceEvent {
    if home then PatchSource(ev, body, net) else ev
  }

  function RemoveSourceAt(home: bool, ev: SourceEvent, net: Net): SourceEvent {
    if home then RemoveSource(ev, net) else ev
  }
}
