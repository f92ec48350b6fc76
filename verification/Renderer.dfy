/** What is sent to Google for one projection (app/ledger/payload.py:80-345, 579-634). */
module Renderer {
  import opened Base
  import opened Strings
  import opened Payload

  datatype State = Absent | Full | Busy | PersonalBusy | RsvpOnly

  datatype Source = MainNative | ClientEvent | PersonalEvent | WebcalEvent | Unknown

  datatype Status = Active | Cancelled | Released

  datatype Target = OnMain | OnClient(id: nat)

  /** `guests` is the event's attendee list; `self` marks the user's own entry. */
  datatype Guest = Guest(self: bool, name: string, response: Option<string>)

  /** When and how often: all a busy block shows. */
  datatype Timing = Timing(
    allDay: bool,
    startAt: string,
    endAt: string,
    startZone: Option<string>,
    endZone: Option<string>,
    rule: Option<string>)

  /** A ledger row with its joined columns. */
  datatype Row = Row(
    uid: nat,
    parent: Option<nat>,
    isRecurring: bool,
    version: nat,
    status: Status,
    deleted: bool,
    source: Source,
    sourceCalendar: Option<nat>,
    placementKind: Option<string>,
    placementResolved: Option<nat>,
    icalUid: Option<string>,
    showAs: Option<string>,
    rsvp: Option<string>,
    canEdit: bool,
    writebackPending: bool,
    timing: Timing,
    summary: Option<string>,
    description: Option<string>,
    location: Option<string>,
    guests: seq<Guest>,
    guestBlock: Option<string>,
    sourceLabel: Option<string>,
    placementLabel: Option<string>,
    link: Option<string>,
    calendarColor: Option<string>,
    color: Option<string>,
    conference: Option<string>)

  datatype Settings = Settings(
    tag: string,
    busyTitle: string,
    personalTitle: string,
    declinedFreesSlot: bool,
    syncPersonalAllDay: bool)

  datatype Value =
    | Str(text: string)
    | Null
    | Day(date: string)
    | Moment(dateTime: string, zone: string)
    | Rules(rule: string)
    | Data(json: string)
    | People(guests: seq<Guest>)
    | Stamps(kind: string)

  /** The keys of a body. */
  datatype Field =
    | Summary | Description | Location | StartTime | EndTime | Recurrence | Transparency | Visibility
    | ColorId | ConferenceData | Attendees | ExtendedProperties

  type Body = map<Field, Value>

  /** A value that is set and not empty. */
  predicate Set(s: Option<string>) {
    s.Some? && s.value != []
  }

  function Start(t: Timing): Value {
    if t.allDay then Day(t.startAt) else Moment(t.startAt, if Set(t.startZone) then t.startZone.value else "UTC")
  }

  function End(t: Timing): Value {
    if t.allDay then Day(t.endAt) else Moment(t.endAt, if Set(t.endZone) then t.endZone.value else "UTC")
  }

  function With(b: Body, key: Field, v: Option<Value>): Body {
    if v.Some? then b[key := v.value] else b
  }

  function AsText(s: Option<string>): Option<Value> {
    if Set(s) then Some(Str(s.value)) else None
  }

  /** The two busy renderers differ in their title only. */
  function RenderBlock(title: string, tag: string, t: Timing): Body {
    var b: Body := map[Summary := Str(title), StartTime := Start(t), EndTime := End(t),
                       Transparency := Str("opaque"), Visibility := Str("private")];
    var b1 := With(b, Description, AsText(TagDescription(tag, None)));
    With(b1, Recurrence, if Set(t.rule) then Some(Rules(t.rule.value)) else None)
  }

  function Title(row: Row): string {
    var summary := if Set(row.summary) then row.summary.value else "(no title)";
    var prefix := Strip(Text(row.sourceLabel));
    var prefixed := if row.source == WebcalEvent && prefix != [] then prefix + " " + summary else summary;
    if row.canEdit then prefixed else LOCK_PREFIX + prefixed
  }

  /** Title, time, description and place. */
  function FullHead(title: string, t: Timing, description: Option<string>, location: Option<string>): Body {
    var b0: Body := map[Summary := Str(title), StartTime := Start(t), EndTime := End(t)];
    var b1 := With(b0, Description, AsText(description));
    With(b1, Location, AsText(location))
  }

  function Described(row: Row, tag: string): Option<string> {
    var meta := FullCopyMetadata(row.guestBlock, Text(row.sourceLabel), Text(row.placementLabel), Text(row.link));
    FullCopyDescription(tag, row.description, meta)
  }

  /** Colour, free or busy, rule, call and response. */
  function FullTail(b: Body, row: Row, target: Target, c: Settings): Body {
    var b3 := With(b, ColorId, AsText(if Set(row.calendarColor) then row.calendarColor else row.color));
    var free := row.showAs == Some("free") || (c.declinedFreesSlot && row.rsvp == Some("declined"));
    var b4 := With(b3, Transparency, if free then Some(Str("transparent")) else None);
    var b5 := With(b4, Recurrence, if Set(row.timing.rule) then Some(Rules(row.timing.rule.value)) else None);
    var b6 := With(b5, ConferenceData, if Set(row.conference) then Some(Data(row.conference.value)) else None);
    With(b6, Attendees,
         if target == OnMain && Set(row.rsvp) then Some(People([Guest(true, "", row.rsvp)])) else None)
  }

  function RenderFull(row: Row, target: Target, c: Settings): Body {
    FullTail(FullHead(Title(row), row.timing, Described(row, c.tag), row.location), row, target, c)
  }

  function FieldOf(b: Body, key: Field): Option<Value> {
    if key in b then Some(b[key]) else None
  }

  /** The tail of a full copy leaves its head alone. */
  lemma TailKeepsHead(h: Body, row: Row, target: Target, c: Settings)
    ensures var b := FullTail(h, row, target, c);
            && FieldOf(b, Summary) == FieldOf(h, Summary) && FieldOf(b, Description) == FieldOf(h, Description)
            && FieldOf(b, Location) == FieldOf(h, Location)
            && FieldOf(b, StartTime) == FieldOf(h, StartTime) && FieldOf(b, EndTime) == FieldOf(h, EndTime)
  {
  }

  lemma HeadFields(title: string, t: Timing, description: Option<string>, location: Option<string>)
    ensures var h := FullHead(title, t, description, location);
            && FieldOf(h, Summary) == Some(Str(title)) && FieldOf(h, Description) == AsText(description)
            && FieldOf(h, Location) == AsText(location)
            && FieldOf(h, StartTime) == Some(Start(t)) && FieldOf(h, EndTime) == Some(End(t))
            && h.Keys <= {Summary, StartTime, EndTime, Description, Location}
  {
  }

  /** What is where in a full copy. */
  lemma FullCopyFields(row: Row, target: Target, c: Settings) returns (h: Body)
    ensures RenderFull(row, target, c) == FullTail(h, row, target, c)
    ensures h.Keys <= {Summary, StartTime, EndTime, Description, Location}
    ensures var b := RenderFull(row, target, c);
            && FieldOf(b, Summary) == Some(Str(Title(row))) && FieldOf(b, Description) == AsText(Described(row, c.tag))
            && FieldOf(b, Location) == AsText(row.location)
            && FieldOf(b, StartTime) == Some(Start(row.timing)) && FieldOf(b, EndTime) == Some(End(row.timing))
  {
    h := FullHead(Title(row), row.timing, Described(row, c.tag), row.location);
    HeadFields(Title(row), row.timing, Described(row, c.tag), row.location);
    TailKeepsHead(h, row, target, c);
  }

  /** The guest list with the user's own response set, or the user added. */
  function RsvpGuests(row: Row): seq<Guest> {
    var response := if Set(row.rsvp) then row.rsvp else Some("needsAction");
    var out := seq(|row.guests|, i requires 0 <= i < |row.guests| =>
                     if row.guests[i].self then row.guests[i].(response := response) else row.guests[i]);
    if exists i :: 0 <= i < |row.guests| && row.guests[i].self then out else out + [Guest(true, "", response)]
  }

  function OrNull(s: Option<string>): Value {
    if s.Some? then Str(s.value) else Null
  }

  function RenderWriteback(row: Row): Body {
    var people := if Set(row.rsvp) then Some(People(RsvpGuests(row))) else None;
    if !row.canEdit then With(map[], Attendees, people)
    else
      var b := With(map[StartTime := Start(row.timing), EndTime := End(row.timing)], Attendees, people);
      if row.source == ClientEvent
      then b[Summary := OrNull(row.summary)][Description := OrNull(row.description)][Location := OrNull(row.location)]
      else b
  }

  /** `render_payload` as the planner calls it: no projection id, no address. */
  function Render(state: State, row: Row, target: Target, c: Settings): Option<Body> {
    var stamps := Stamps(if target == OnMain then "main" else "client");
    match state
    case Absent => None
    case RsvpOnly => Some(RenderWriteback(row))
    case Full => Some(RenderFull(row, target, c)[ExtendedProperties := stamps])
    case Busy => Some(RenderBlock(c.busyTitle, c.tag, row.timing)[ExtendedProperties := stamps])
    case PersonalBusy => Some(RenderBlock(c.personalTitle, c.tag, row.timing)[ExtendedProperties := stamps])
  }

  /** A busy block of whichever kind. */
  predicate AtMostBusy(state: State) {
    state == Absent || state == Busy || state == PersonalBusy
  }

  /** A non-editable source receives nothing but the user's own response. */
  lemma LockedSourceGetsOnlyTheRsvp(row: Row)
    requires !row.canEdit
    ensures var b := RenderWriteback(row);
            && b.Keys == (if Set(row.rsvp) then {Attendees} else {})
            && forall i :: Attendees in b && 0 <= i < |row.guests| && !row.guests[i].self ==> b[Attendees].guests[i] == row.guests[i]
  {
  }

  lemma TailTakesTime(h: Body, row: Row, target: Target, c: Settings)
    requires Transparency !in h
    ensures FieldOf(FullTail(h, row, target, c), Transparency) ==
            if row.showAs == Some("free") || (c.declinedFreesSlot && row.rsvp == Some("declined"))
            then Some(Str("transparent")) else None
  {
  }

  /** A full copy is transparent exactly if the event is free or declined. */
  lemma FullCopyTakesTime(row: Row, target: Target, c: Settings)
    ensures FieldOf(Render(Full, row, target, c).value, Transparency) ==
            if row.showAs == Some("free") || (c.declinedFreesSlot && row.rsvp == Some("declined"))
            then Some(Str("transparent")) else None
  {
    var h := FullCopyFields(row, target, c);
    TailTakesTime(h, row, target, c);
  }

  /** A busy block shows its fixed title and nothing else of the event than when it is: it is private, takes
      the time, and its description is the tag at most. */
  lemma BusyBlockShowsNothingElse(state: State, row: Row, target: Target, c: Settings)
    requires state == Busy || state == PersonalBusy
    ensures Render(state, row, target, c).Some?
    ensures var b := Render(state, row, target, c).value;
            && FieldOf(b, Summary) == Some(Str(if state == Busy then c.busyTitle else c.personalTitle))
            && FieldOf(b, Visibility) == Some(Str("private")) && FieldOf(b, Transparency) == Some(Str("opaque"))
            && FieldOf(b, Description) == (if c.tag == [] then None else Some(Str(c.tag)))
            && b.Keys <= {Summary, StartTime, EndTime, Recurrence, Transparency, Visibility, Description, ExtendedProperties}
  {
  }

  /** Every copy is stamped with the kind of its calendar, so that the orphan scan knows it; what is written
      to the user's own source event never is. */
  lemma CopiesAreStamped(state: State, row: Row, target: Target, c: Settings)
    requires state != Absent
    ensures Render(state, row, target, c).Some?
    ensures FieldOf(Render(state, row, target, c).value, ExtendedProperties) ==
            if state == RsvpOnly then None else Some(Stamps(if target.OnMain? then "main" else "client"))
  {
  }

  /** The lock tells whether the user may edit the original. */
  lemma LockShowsWhoMayEdit(row: Row)
    requires row.source != WebcalEvent && !StartsWith(Text(row.summary), LOCK_PREFIX)
    ensures StartsWith(Title(row), LOCK_PREFIX) <==> !row.canEdit
  {
    assert "(no title)"[0] != LOCK_PREFIX[0];
    var s := if Set(row.summary) then row.summary.value else "(no title)";
    assert (LOCK_PREFIX + s)[..|LOCK_PREFIX|] == LOCK_PREFIX;
  }

  /** The writeback keeps every other guest and always carries the user's response. */
  lemma RsvpKeepsOtherGuests(row: Row)
    requires Set(row.rsvp)
    ensures var out := RsvpGuests(row);
            && |row.guests| <= |out| <= |row.guests| + 1
            && (forall i :: 0 <= i < |row.guests| ==>
                  out[i] == if row.guests[i].self then row.guests[i].(response := row.rsvp) else row.guests[i])
            && (exists i :: 0 <= i < |out| && out[i].self && out[i].response == row.rsvp)
  {
    var out := RsvpGuests(row);
    if i :| 0 <= i < |row.guests| && row.guests[i].self {
      assert out[i].self && out[i].response == row.rsvp;
    } else {
      assert out[|row.guests|].self;
    }
  }
}
