/** What comes back from a rendered body: the reader of main ingest applied to our own copy
    (app/ledger/payload.py:155-308 and 579-600, app/ledger/ingest/main.py:719-749 and 1063-1092). */
module ReadBack {
  import opened Base
  import opened Strings
  import opened Payload
  import R = Renderer
  import P = Planner
  import Protocol

  // ---------------------------------------------------------------------------
  // Time
  // ---------------------------------------------------------------------------

  datatype Slot = Slot(allDay: bool, startAt: string, endAt: string, startZone: Option<string>, endZone: Option<string>)

  /** `_extract_start_end`. */
  function ReadSlot(b: R.Body): Option<Slot> {
    if R.StartTime !in b || R.EndTime !in b then None
    else if b[R.StartTime].Day? && b[R.EndTime].Day? then
      Some(Slot(true, b[R.StartTime].date, b[R.EndTime].date, None, None))
    else if b[R.StartTime].Moment? && b[R.EndTime].Moment? then
      Some(Slot(false, b[R.StartTime].dateTime, b[R.EndTime].dateTime, Some(b[R.StartTime].zone), Some(b[R.EndTime].zone)))
    else None
  }

  function ReadRule(b: R.Body): Option<string> {
    if R.Recurrence in b && b[R.Recurrence].Rules? then Some(b[R.Recurrence].rule) else None
  }

  /** A zone that is missing or empty is UTC. */
  function ZoneOf(z: Option<string>): string {
    if Text(z) == [] then "UTC" else Text(z)
  }

  /** When the event is; an all-day event has no zone. */
  function SlotOf(t: R.Timing): Slot {
    if t.allDay then Slot(true, t.startAt, t.endAt, None, None)
    else Slot(false, t.startAt, t.endAt, Some(ZoneOf(t.startZone)), Some(ZoneOf(t.endZone)))
  }

  /** How often; an empty rule is none. */
  function RuleOf(t: R.Timing): Option<string> {
    if Text(t.rule) == [] then None else t.rule
  }

  /** The states whose bodies say when the event is. */
  predicate SaysWhen(state: R.State, row: R.Row) {
    state == R.Full || state == R.Busy || state == R.PersonalBusy || (state == R.RsvpOnly && row.canEdit)
  }

  /** Whatever kind of copy it is: the time read back is the event's, and so is the rule, which a writeback
      never carries. */
  lemma TimeIsReadBack(state: R.State, row: R.Row, target: R.Target, c: R.Settings)
    requires SaysWhen(state, row)
    ensures R.Render(state, row, target, c).Some?
    ensures var b := R.Render(state, row, target, c).value;
            && ReadSlot(b) == Some(SlotOf(row.timing))
            && ReadRule(b) == if state == R.RsvpOnly then None else RuleOf(row.timing)
  {
    match state {
      case Full =>
        FullTimeIsReadBack(row, target, c);
        StampsChangeNothing(R.RenderFull(row, target, c), target);
      case Busy =>
        BlockIsReadBack(c.busyTitle, c.tag, row.timing);
        StampsChangeNothing(R.RenderBlock(c.busyTitle, c.tag, row.timing), target);
      case PersonalBusy =>
        BlockIsReadBack(c.personalTitle, c.tag, row.timing);
        StampsChangeNothing(R.RenderBlock(c.personalTitle, c.tag, row.timing), target);
      case RsvpOnly => WritebackCarriesTheLedger(row);
    }
  }

  lemma FullTimeIsReadBack(row: R.Row, target: R.Target, c: R.Settings)
    ensures var b := R.RenderFull(row, target, c); ReadSlot(b) == Some(SlotOf(row.timing)) && ReadRule(b) == RuleOf(row.timing)
  {
    var h := R.FullCopyFields(row, target, c);
    SlotIsRead(R.RenderFull(row, target, c), row.timing);
    TailRuleIsReadBack(h, row, target, c);
  }

  lemma SlotIsRead(b: R.Body, t: R.Timing)
    requires R.FieldOf(b, R.StartTime) == Some(R.Start(t)) && R.FieldOf(b, R.EndTime) == Some(R.End(t))
    ensures ReadSlot(b) == Some(SlotOf(t))
  {
  }

  lemma TailRuleIsReadBack(b: R.Body, row: R.Row, target: R.Target, c: R.Settings)
    requires R.Recurrence !in b
    ensures ReadRule(R.FullTail(b, row, target, c)) == RuleOf(row.timing)
  {
  }

  lemma StampsChangeNothing(b: R.Body, target: R.Target)
    ensures var stamped := b[R.ExtendedProperties := R.Stamps(if target == R.OnMain then "main" else "client")];
            ReadSlot(stamped) == ReadSlot(b) && ReadRule(stamped) == ReadRule(b)
  {
  }

  /** Two busy blocks are the same exactly if the events are at the same time, equally often. */
  lemma BlocksAgreeExactly(title: string, tag: string, a: R.Timing, b: R.Timing)
    ensures R.RenderBlock(title, tag, a) == R.RenderBlock(title, tag, b) <==> SlotOf(a) == SlotOf(b) && RuleOf(a) == RuleOf(b)
  {
    var x, y := R.RenderBlock(title, tag, a), R.RenderBlock(title, tag, b);
    BlockIsReadBack(title, tag, a);
    BlockIsReadBack(title, tag, b);
  }

  lemma BlockIsReadBack(title: string, tag: string, t: R.Timing)
    ensures var b := R.RenderBlock(title, tag, t); ReadSlot(b) == Some(SlotOf(t)) && ReadRule(b) == RuleOf(t)
  {
  }

  /** So an event that is moved, prolonged, or repeated otherwise is visited by the next diff on every
      calendar that shows when it is; `digest` need only tell the two bodies apart. */
  lemma RescheduleIsVisited(p: Protocol.Projection, state: R.State, a: R.Row, b: R.Row, target: R.Target, c: R.Settings,
                            digest: (R.State, R.Body) -> nat, armed: bool)
    requires SaysWhen(state, a) && SaysWhen(state, b)
    requires SlotOf(a.timing) != SlotOf(b.timing) || (state != R.RsvpOnly && RuleOf(a.timing) != RuleOf(b.timing))
    requires p.desired == P.WantOf(state, a, target, c, digest) && p.applied == Some(p.desired)
    requires var x, y := R.Render(state, a, target, c), R.Render(state, b, target, c);
             x != y && x.Some? && y.Some? ==> digest(state, x.value) != digest(state, y.value)
    ensures Protocol.Diverged(Protocol.Replan(p, P.WantOf(state, b, target, c, digest), b.version, armed))
  {
    TimeIsReadBack(state, a, target, c);
    TimeIsReadBack(state, b, target, c);
  }

  // ---------------------------------------------------------------------------
  // Everything else a full copy shows
  // ---------------------------------------------------------------------------

  function ReadText(b: R.Body, key: R.Field): Option<string> {
    if key in b && b[key].Str? then Some(b[key].text) else None
  }

  /** `_extract_self_rsvp`. */
  function ReadRsvp(b: R.Body): Option<string> {
    if R.Attendees in b && b[R.Attendees].People? then SelfResponse(b[R.Attendees].guests) else None
  }

  function SelfResponse(guests: seq<R.Guest>): Option<string> {
    if guests == [] then None
    else if guests[0].self then guests[0].response
    else SelfResponse(guests[1..])
  }

  /** A text field that is not empty. */
  function Shown(s: Option<string>): Option<string> {
    if Text(s) == [] then None else s
  }

  /** Place, colour, free or busy, call and response of a full copy are the event's own, the colour of its
      calendar going before its own, and the response shown on main only. */
  lemma DetailsAreReadBack(row: R.Row, target: R.Target, c: R.Settings)
    ensures var b := R.RenderFull(row, target, c);
            && ReadText(b, R.Location) == Shown(row.location)
            && ReadText(b, R.ColorId) == (if Shown(row.calendarColor).Some? then row.calendarColor else Shown(row.color))
            && (R.ConferenceData in b <==> Shown(row.conference).Some?)
            && (R.ConferenceData in b ==> b[R.ConferenceData] == R.Data(row.conference.value))
            && ReadRsvp(b) == if target.OnMain? then Shown(row.rsvp) else None
  {
    var h := R.FullCopyFields(row, target, c);
    TailIsReadBack(h, row, target, c);
  }

  lemma TailIsReadBack(h: R.Body, row: R.Row, target: R.Target, c: R.Settings)
    requires R.ColorId !in h && R.ConferenceData !in h && R.Attendees !in h
    ensures var b := R.FullTail(h, row, target, c);
            && ReadText(b, R.ColorId) == (if Shown(row.calendarColor).Some? then row.calendarColor else Shown(row.color))
            && (R.ConferenceData in b <==> Shown(row.conference).Some?)
            && (R.ConferenceData in b ==> b[R.ConferenceData] == R.Data(row.conference.value))
            && ReadRsvp(b) == if target.OnMain? then Shown(row.rsvp) else None
  {
  }

  /** An editable client event is written back with the ledger's own title, description and place; a field
      the ledger has not is cleared, not left alone. */
  lemma WritebackCarriesTheLedger(row: R.Row)
    requires row.canEdit
    ensures var b := R.RenderWriteback(row);
            && ReadSlot(b) == Some(SlotOf(row.timing))
            && (row.source == R.ClientEvent ==>
                  && R.Summary in b && R.Description in b && R.Location in b
                  && (if row.summary.Some? then ReadText(b, R.Summary) == row.summary else b[R.Summary] == R.Null)
                  && (if row.description.Some? then ReadText(b, R.Description) == row.description else b[R.Description] == R.Null)
                  && (if row.location.Some? then ReadText(b, R.Location) == row.location else b[R.Location] == R.Null))
            && ReadRule(b).None? && (R.Attendees in b <==> R.Set(row.rsvp))
            && (R.Attendees in b ==> b[R.Attendees] == R.People(R.RsvpGuests(row)))
            && (row.source != R.ClientEvent ==> R.Summary !in b && R.Description !in b && R.Location !in b)
  {
  }

  // ---------------------------------------------------------------------------
  // Titles
  // ---------------------------------------------------------------------------

  /** No decoration of ours in front. */
  predicate Plain(tag: string, s: string) {
    !StartsWith(s, LOCK_PREFIX) && (tag == [] || !StartsWith(s, tag))
  }

  lemma PlainIsUndecorated(tag: string, s: string)
    ensures Undecorated(tag, s) == s <==> Plain(tag, s)
  {
  }

  /** The title of a copy that is not a feed's, stripped, is the event's title exactly if that has no
      decoration of its own, whether it was locked or not. */
  lemma TitleIsReadBack(tag: string, row: R.Row)
    requires row.source != R.WebcalEvent && R.Set(row.summary)
    ensures Undecorated(tag, R.Title(row)) == row.summary.value <==> Plain(tag, row.summary.value)
  {
    if row.canEdit { PlainIsUndecorated(tag, row.summary.value); } else { LockIsUndone(tag, row.summary.value); }
  }

  /** The title of a feed's copy opens with the feed's prefix, behind the lock; stripping both leaves what
      stripping leaves of the event's own title, left-trimmed. */
  lemma FeedTitleIsReadBack(prefix: string, row: R.Row)
    requires row.source == R.WebcalEvent && R.Set(row.summary) && Strip(Text(row.sourceLabel)) == prefix && prefix != []
    requires !StartsWith(prefix + " ", LOCK_PREFIX)
    ensures Undecorated(prefix, R.Title(row)) == Undecorated(prefix, Lstrip(row.summary.value))
  {
    TaggedTitleIsStripped(prefix, row.summary.value);
    LockIsStripped(prefix, prefix + " " + row.summary.value);
  }

  lemma LockIsStripped(tag: string, s: string)
    requires tag != [] && StartsWith(s, tag)
    ensures Undecorated(tag, LOCK_PREFIX + s) == Undecorated(tag, Lstrip(s[|tag|..]))
  {
    assert (LOCK_PREFIX + s)[|LOCK_PREFIX|..] == s;
    assert StartsWith(LOCK_PREFIX + s, LOCK_PREFIX);
  }

  lemma TaggedTitleIsStripped(prefix: string, s: string)
    requires prefix != [] && !StartsWith(prefix + " ", LOCK_PREFIX)
    ensures var t := prefix + " " + s;
            && StartsWith(t, prefix) && Lstrip(t[|prefix|..]) == Lstrip(s) && Undecorated(prefix, t) == Undecorated(prefix, Lstrip(s))
  {
    var t := prefix + " " + s;
    assert StartsWith(t, prefix) && t[|prefix|..] == " " + s;
    assert (" " + s)[1..] == s;
    assert forall i :: 0 <= i < |prefix + " "| ==> t[i] == (prefix + " ")[i];
  }

  // ---------------------------------------------------------------------------
  // Our own copy is not an edit
  // ---------------------------------------------------------------------------

  /** `(a or "") != (b or "")`. */
  predicate Differs(a: Option<string>, b: Option<string>) {
    Text(a) != Text(b)
  }

  function ReadSummary(tag: string, b: R.Body): Option<string> {
    var s := ReadText(b, R.Summary);
    if s.None? then None else Some(Undecorated(tag, s.value))
  }

  function ReadDescription(tag: string, b: R.Body): Option<string> {
    StripFullCopyMetadata(tag, ReadText(b, R.Description))
  }

  /** The test a managed copy read from main has to pass to count as edited. */
  predicate LooksEdited(tag: string, b: R.Body, row: R.Row) {
    var slot := ReadSlot(b);
    || (ReadRsvp(b).Some? && ReadRsvp(b) != row.rsvp)
    || (slot.Some? && (slot.value.allDay != row.timing.allDay || slot.value.startAt != row.timing.startAt
                       || slot.value.endAt != row.timing.endAt))
    || Differs(ReadSummary(tag, b), row.summary)
    || Differs(ReadDescription(tag, b), row.description)
    || Differs(ReadText(b, R.Location), row.location)
  }

  /** The metadata of a row's copy. */
  function MetaOf(row: R.Row): string {
    FullCopyMetadata(row.guestBlock, Text(row.sourceLabel), Text(row.placementLabel), Text(row.link))
  }

  lemma DetailsLookUnedited(row: R.Row, c: R.Settings)
    requires row.source != R.WebcalEvent && IsTag(c.tag) && (row.guestBlock.Some? ==> StartsWith(row.guestBlock.value, ATTENDEES))
    ensures var b := R.RenderFull(row, R.OnMain, c);
            && ReadSummary(c.tag, b) == Some(Undecorated(c.tag, R.Title(row)))
            && (!Differs(ReadDescription(c.tag, b), row.description) <==>
                  Rstrip(Text(row.description)) == Text(row.description) && Recoverable(c.tag, Text(row.description), MetaOf(row)))
            && !Differs(ReadText(b, R.Location), row.location)
  {
    var b := R.RenderFull(row, R.OnMain, c);
    var _ := R.FullCopyFields(row, R.OnMain, c);
    MetadataOpensWithMarker(row.guestBlock, Text(row.sourceLabel), Text(row.placementLabel), Text(row.link));
    DescriptionReadsBack(c.tag, row.description, MetaOf(row));
    EmptyDescriptionIsNone(c.tag, R.Described(row, c.tag));
    assert ReadText(b, R.Description) == Shown(R.Described(row, c.tag));
  }

  lemma EmptyDescriptionIsNone(tag: string, d: Option<string>)
    ensures Text(StripFullCopyMetadata(tag, Shown(d))) == Text(StripFullCopyMetadata(tag, d))
  {
  }

  lemma RestLooksUnedited(row: R.Row, c: R.Settings)
    ensures var b := R.RenderFull(row, R.OnMain, c);
            && (ReadRsvp(b).Some? ==> ReadRsvp(b) == row.rsvp)
            && ReadSlot(b) == Some(SlotOf(row.timing))
  {
    DetailsAreReadBack(row, R.OnMain, c);
    FullTimeIsReadBack(row, R.OnMain, c);
  }

  /** No echo: our own copy of a titled client meeting, read back from main untouched, counts as unedited if
      and only if its title has no decoration of ours, its description ends in no white space, and the
      description is recoverable from under the footer. */
  lemma UntouchedCopyIsNoEdit(row: R.Row, c: R.Settings)
    requires row.source == R.ClientEvent && R.Set(row.summary)
    requires IsTag(c.tag) && (row.guestBlock.Some? ==> StartsWith(row.guestBlock.value, ATTENDEES))
    ensures !LooksEdited(c.tag, R.RenderFull(row, R.OnMain, c), row) <==>
            && Plain(c.tag, row.summary.value)
            && Rstrip(Text(row.description)) == Text(row.description)
            && Recoverable(c.tag, Text(row.description), MetaOf(row))
  {
    DetailsLookUnedited(row, c);
    RestLooksUnedited(row, c);
    OnlyTextsCanDiffer(c.tag, R.RenderFull(row, R.OnMain, c), row);
    TitleIsReadBack(c.tag, row);
  }

  lemma OnlyTextsCanDiffer(tag: string, b: R.Body, row: R.Row)
    requires (ReadRsvp(b).Some? ==> ReadRsvp(b) == row.rsvp) && ReadSlot(b) == Some(SlotOf(row.timing))
    requires !Differs(ReadText(b, R.Location), row.location)
    ensures LooksEdited(tag, b, row) <==> Differs(ReadSummary(tag, b), row.summary) || Differs(ReadDescription(tag, b), row.description)
  {
  }

  /** The copy of an untitled meeting always counts as edited: the stand-in title is taken for the user's. */
  lemma UntitledCopyLooksEdited(row: R.Row, c: R.Settings)
    requires row.source == R.ClientEvent && !R.Set(row.summary)
    requires IsTag(c.tag) && (row.guestBlock.Some? ==> StartsWith(row.guestBlock.value, ATTENDEES))
    requires Plain(c.tag, "(no title)")
    ensures LooksEdited(c.tag, R.RenderFull(row, R.OnMain, c), row)
  {
    DetailsLookUnedited(row, c);
    StandInTitleStays(c.tag, row);
    OtherTitleLooksEdited(c.tag, R.RenderFull(row, R.OnMain, c), row);
  }

  lemma StandInTitleStays(tag: string, row: R.Row)
    requires row.source != R.WebcalEvent && !R.Set(row.summary) && Plain(tag, "(no title)")
    ensures Undecorated(tag, R.Title(row)) == "(no title)"
  {
    if row.canEdit { PlainIsUndecorated(tag, "(no title)"); } else { LockIsUndone(tag, "(no title)"); }
  }

  lemma OtherTitleLooksEdited(tag: string, b: R.Body, row: R.Row)
    requires ReadSummary(tag, b) == Some("(no title)") && !R.Set(row.summary)
    ensures LooksEdited(tag, b, row)
  {
    assert |Text(Some("(no title)"))| == 10;
  }
}
