/** The footer and tag BusyBridge appends to a description, and their stripper
    (app/ledger/payload.py:440-577). */
module Payload {
  import opened Base
  import opened Strings

  const LOCK_PREFIX := "\U{1F512} "
  const FOOTER_DELIM := "\n\n---\n"
  const LABEL_LIMIT := 80

  const ATTENDEES := "Attendees ("
  const SOURCE := "Source:"
  const PLACEMENT := "Placement:"
  const ORIGINAL := "Original event:"

  /** `.startswith(_FOOTER_MARKERS)`. */
  predicate StartsWithMarker(s: string) {
    StartsWith(s, ATTENDEES) || StartsWith(s, SOURCE) || StartsWith(s, PLACEMENT) || StartsWith(s, ORIGINAL)
  }

  /** `s or None`. */
  function OrNone(s: string): Option<string> {
    if s == [] then None else Some(s)
  }

  function Text(s: Option<string>): string {
    if s.Some? then s.value else []
  }

  // ---------------------------------------------------------------------------
  // Printer
  // ---------------------------------------------------------------------------

  function Shorten(name: string): string {
    if |name| > LABEL_LIMIT then name[..LABEL_LIMIT - 3] + "..." else name
  }

  function Join(parts: seq<string>, sep: string): string {
    if parts == [] then []
    else if |parts| == 1 then parts[0]
    else parts[0] + sep + Join(parts[1..], sep)
  }

  function Trailer(name: string, placement: string, link: string): seq<string> {
    (if name != [] then [SOURCE + " " + Shorten(name)] else []) +
    (if placement != [] then [PLACEMENT + " " + Shorten(placement)] else []) +
    (if link != [] then [ORIGINAL + " " + link] else [])
  }

  /** `_full_copy_metadata`; `guests` is the attendee block, if any guest survives filtering. */
  function FullCopyMetadata(guests: Option<string>, name: string, placement: string, link: string): string {
    var trailer := Trailer(Strip(name), Strip(placement), Strip(link));
    var sections := (if guests.Some? && guests.value != [] then [guests.value] else []) +
                    (if trailer != [] then [Join(trailer, "\n")] else []);
    Join(sections, "\n\n")
  }

  /** `_tag_description`; the tag is trimmed and empty when tagging is off. */
  function TagDescription(tag: string, description: Option<string>): Option<string> {
    if tag == [] then description
    else
      var base := Rstrip(Text(description));
      Some(if base != [] then base + "\n\n" + tag else tag)
  }

  /** `_full_copy_description`. */
  function FullCopyDescription(tag: string, description: Option<string>, meta: string): Option<string> {
    var base := Rstrip(Text(description));
    var body := if meta != [] then Some(if base != [] then base + FOOTER_DELIM + meta else meta) else OrNone(base);
    TagDescription(tag, body)
  }

  // ---------------------------------------------------------------------------
  // Stripper
  // ---------------------------------------------------------------------------

  /** `strip_managed_tag`. */
  function StripManagedTag(tag: string, description: Option<string>): Option<string> {
    if tag == [] || Text(description) == [] then description
    else
      var stripped := Rstrip(description.value);
      if stripped == tag then None
      else if EndsWith(stripped, tag) then OrNone(Rstrip(stripped[..|stripped| - |tag|]))
      else description
  }

  /** `strip_full_copy_metadata`. */
  function StripFullCopyMetadata(tag: string, description: Option<string>): Option<string> {
    var desc := StripManagedTag(tag, description);
    if Text(desc) == [] then desc
    else StripFooter(desc.value)
  }

  function StripFooter(desc: string): Option<string>
    requires desc != []
  {
    CutFooter(desc, RFind(desc, FOOTER_DELIM))
  }

  function CutFooter(desc: string, idx: int): Option<string>
    requires idx == -1 || 0 <= idx <= |desc| - |FOOTER_DELIM|
  {
    Cut(desc, idx, StartsWithMarker(Lstrip(desc)), idx != -1 && StartsWithMarker(Lstrip(desc[idx + |FOOTER_DELIM|..])))
  }

  function Cut(desc: string, idx: int, opens: bool, footer: bool): Option<string>
    requires -1 <= idx <= |desc| && (footer ==> idx >= 0)
  {
    if opens then None else if footer then OrNone(desc[..idx]) else Some(desc)
  }

  // ---------------------------------------------------------------------------
  // What the printer writes
  // ---------------------------------------------------------------------------

  predicate IsTag(tag: string) {
    Strip(tag) == tag
  }

  lemma TagIsTight(tag: string)
    requires IsTag(tag) && tag != []
    ensures !IsSpace(tag[|tag| - 1]) && Rstrip(tag) == tag
  {
    var r := Rstrip(tag);
    assert |Lstrip(r)| <= |r| <= |tag|;
    assert r == tag;
    LstripIsSuffix(r);
  }

  lemma JoinOpens(parts: seq<string>, sep: string)
    requires parts != []
    ensures parts[0] <= Join(parts, sep)
  {
  }

  lemma PrefixOfPrefix(s: string, t: string)
    requires StartsWithMarker(s) && s <= t
    ensures StartsWithMarker(t)
  {
  }

  lemma TrailerOpens(name: string, placement: string, link: string)
    ensures var t := Trailer(name, placement, link); t != [] ==> StartsWithMarker(t[0])
  {
    var t := Trailer(name, placement, link);
    if name != [] { assert t[0] == SOURCE + " " + Shorten(name); assert SOURCE <= t[0]; }
    else if placement != [] { assert t[0] == PLACEMENT + " " + Shorten(placement); assert PLACEMENT <= t[0]; }
    else if link != [] { assert t[0] == ORIGINAL + " " + link; assert ORIGINAL <= t[0]; }
  }

  /** The metadata is empty or opens with a marker, whatever the labels. */
  lemma MetadataOpensWithMarker(guests: Option<string>, name: string, placement: string, link: string)
    requires guests.Some? ==> StartsWith(guests.value, ATTENDEES)
    ensures var meta := FullCopyMetadata(guests, name, placement, link); meta == [] || StartsWithMarker(meta)
  {
    var trailer := Trailer(Strip(name), Strip(placement), Strip(link));
    TrailerOpens(Strip(name), Strip(placement), Strip(link));
    var tail := if trailer != [] then [Join(trailer, "\n")] else [];
    if trailer != [] {
      JoinOpens(trailer, "\n");
      PrefixOfPrefix(trailer[0], tail[0]);
    }
    var sections := (if guests.Some? && guests.value != [] then [guests.value] else []) + tail;
    if sections != [] {
      JoinOpens(sections, "\n\n");
      PrefixOfPrefix(sections[0], Join(sections, "\n\n"));
    }
  }

  /** The text comes first and the tag last, on its own line. */
  lemma TagComesLast(tag: string, description: Option<string>)
    requires tag != []
    ensures var t := TagDescription(tag, description);
            && t.Some? && Rstrip(Text(description)) <= t.value && EndsWith(t.value, tag)
            && (Rstrip(Text(description)) != [] ==> EndsWith(t.value, "\n\n" + tag))
  {
    var base := Rstrip(Text(description));
    if base != [] {
      assert base + "\n\n" + tag == base + ("\n\n" + tag);
      assert (base + ("\n\n" + tag))[|base|..] == "\n\n" + tag;
      assert (base + "\n\n" + tag)[|base + "\n\n"|..] == tag;
    }
  }

  lemma TagKeepsText(tag: string, d: Option<string>)
    ensures Rstrip(Text(d)) <= Text(TagDescription(tag, d))
  {
    if tag != [] { TagComesLast(tag, d); }
  }

  lemma PrefixOccurs(s: string, t: string, u: string)
    requires s + t <= u
    ensures s <= u && OccursAt(u, t, |s|)
  {
    assert u[|s|..|s| + |t|] == (s + t)[|s|..] == t;
    assert u[..|s|] == (s + t)[..|s|] == s;
  }

  /** What stands before the metadata. */
  function Front(base: string): string {
    if base == [] then [] else base + FOOTER_DELIM
  }

  lemma CopyIsFrontAndMeta(tag: string, description: Option<string>, meta: string)
    requires meta != []
    ensures FullCopyDescription(tag, description, meta) == TagDescription(tag, Some(Front(Rstrip(Text(description))) + meta))
  {
    assert [] + meta == meta;
  }

  lemma FrontOpens(base: string, t: string)
    requires Front(base) <= t
    ensures base <= t
  {
    if base != [] { assert base <= base + FOOTER_DELIM; }
  }

  /** A copy's description opens with the event's own and holds the metadata. */
  lemma CopyDescriptionShowsBoth(tag: string, description: Option<string>, meta: string)
    requires StartsWithMarker(meta)
    ensures Rstrip(Text(description)) <= Text(FullCopyDescription(tag, description, meta))
    ensures Contains(Text(FullCopyDescription(tag, description, meta)), Rstrip(meta))
  {
    var base := Rstrip(Text(description));
    CopyIsFrontAndMeta(tag, description, meta);
    TextHoldsMeta(tag, Front(base), meta);
    FrontOpens(base, Text(TagDescription(tag, Some(Front(base) + meta))));
  }

  lemma TextHoldsMeta(tag: string, front: string, meta: string)
    requires StartsWithMarker(meta)
    ensures var t := Text(TagDescription(tag, Some(front + meta))); front <= t && Contains(t, Rstrip(meta))
  {
    TagKeepsText(tag, Some(front + meta));
    MarkerIsVisible(meta);
    RstripOfSum(front, meta);
    PrefixOccurs(front, Rstrip(meta), Text(TagDescription(tag, Some(front + meta))));
  }

  /** A label is cut to eighty characters. */
  lemma ShortenedLabel(name: string)
    ensures |Shorten(name)| <= 80 && (|name| <= 80 ==> Shorten(name) == name)
    ensures |name| > 80 ==> Shorten(name) == name[..77] + "..."
  {
  }

  lemma {:induction false} JoinContains(parts: seq<string>, sep: string, i: nat)
    requires i < |parts|
    ensures Contains(Join(parts, sep), parts[i])
    decreases |parts|
  {
    var s := Join(parts, sep);
    if i == 0 {
      assert OccursAt(s, parts[0], 0);
    } else {
      JoinContains(parts[1..], sep, i - 1);
      assert parts[1..][i - 1] == parts[i];
      var rest := Join(parts[1..], sep);
      var k :| OccursAt(rest, parts[i], k);
      var shift := |parts[0] + sep|;
      assert s == (parts[0] + sep) + rest;
      assert s[shift + k..shift + k + |parts[i]|] == rest[k..k + |parts[i]|];
      assert OccursAt(s, parts[i], shift + k);
    }
  }

  lemma ContainsIsTransitive(a: string, b: string, c: string)
    requires Contains(a, b) && Contains(b, c)
    ensures Contains(a, c)
  {
    var i :| OccursAt(a, b, i);
    var j :| OccursAt(b, c, j);
    assert a[i..i + |b|] == b && b[j..j + |c|] == c;
    forall k | 0 <= k < |c| ensures a[i + j + k] == c[k] {
      assert a[i + j + k] == a[i..i + |b|][j + k] == b[j + k] == b[j..j + |c|][k];
    }
    assert a[i + j..i + j + |c|] == c;
    assert OccursAt(a, c, i + j);
  }

  /** The metadata names the source, the placement and the original event, each behind its own label, and
      holds the guest list. */
  lemma MetadataNamesItsSource(guests: Option<string>, name: string, placement: string, link: string)
    ensures var meta := FullCopyMetadata(guests, name, placement, link);
            && (Text(guests) != [] ==> Contains(meta, Text(guests)))
            && (Strip(name) != [] ==> Contains(meta, "Source: " + Shorten(Strip(name))))
            && (Strip(placement) != [] ==> Contains(meta, "Placement: " + Shorten(Strip(placement))))
            && (Strip(link) != [] ==> Contains(meta, "Original event: " + Strip(link)))
  {
    var meta := FullCopyMetadata(guests, name, placement, link);
    var trailer := Trailer(Strip(name), Strip(placement), Strip(link));
    var head := if Text(guests) != [] then [Text(guests)] else [];
    var tail := if trailer != [] then [Join(trailer, "\n")] else [];
    assert meta == Join(head + tail, "\n\n");
    if Text(guests) != [] { JoinContains(head + tail, "\n\n", 0); }
    forall i | 0 <= i < |trailer| ensures Contains(meta, trailer[i]) {
      JoinContains(trailer, "\n", i);
      JoinContains(head + tail, "\n\n", |head|);
      ContainsIsTransitive(meta, tail[0], trailer[i]);
    }
    TrailerNames(Strip(name), Strip(placement), Strip(link));
  }

  lemma TrailerNames(name: string, placement: string, link: string)
    ensures var t := Trailer(name, placement, link);
            && (name != [] ==> |t| > 0 && t[0] == "Source: " + Shorten(name))
            && (placement != [] ==> exists i :: 0 <= i < |t| && t[i] == "Placement: " + Shorten(placement))
            && (link != [] ==> exists i :: 0 <= i < |t| && t[i] == "Original event: " + link)
  {
    var t := Trailer(name, placement, link);
    assert SOURCE + " " == "Source: " && PLACEMENT + " " == "Placement: " && ORIGINAL + " " == "Original event: ";
    if placement != [] { assert t[if name != [] then 1 else 0] == "Placement: " + Shorten(placement); }
    if link != [] { assert t[|t| - 1] == "Original event: " + link; }
  }

  /** A marker: visible at both ends, on one line. */
  predicate Solid(m: string) {
    m != [] && !IsSpace(m[0]) && !IsSpace(m[|m| - 1]) && '\n' !in m
  }

  lemma PrefixSurvivesTrim(s: string, m: string)
    requires m <= s && Solid(m)
    ensures m <= Rstrip(s) && Lstrip(s) == s && s[0] != '\n' && Rstrip(s) != [] && !IsSpace(Rstrip(s)[0])
  {
    assert s[|m| - 1] == m[|m| - 1] && s[0] == m[0];
  }

  function MarkerOf(s: string): (m: string)
    requires StartsWithMarker(s)
    ensures m <= s && Solid(m) && StartsWithMarker(m)
  {
    if StartsWith(s, ATTENDEES) then ATTENDEES else if StartsWith(s, SOURCE) then SOURCE
    else if StartsWith(s, PLACEMENT) then PLACEMENT else ORIGINAL
  }

  lemma MarkerIsVisible(s: string)
    requires StartsWithMarker(s)
    ensures StartsWithMarker(Rstrip(s)) && Rstrip(s) != [] && !IsSpace(Rstrip(s)[0]) && Lstrip(s) == s && s[0] != '\n'
  {
    var m := MarkerOf(s);
    PrefixSurvivesTrim(s, m);
    PrefixOfPrefix(m, Rstrip(s));
  }

  lemma SolidStopsAtLineBreak(s: string, t: string, m: string)
    requires Solid(m) && m <= s + t && t != [] && t[0] == '\n'
    ensures m <= s
  {
    assert (s + t)[|s|] == t[0];
    forall i | 0 <= i < |m| ensures m[i] != '\n' && m[i] == (s + t)[i] {}
  }

  /** No marker can run over the end of a text into a line break. */
  lemma MarkerStopsAtLineBreak(s: string, t: string)
    requires t != [] && t[0] == '\n'
    ensures StartsWithMarker(s + t) <==> StartsWithMarker(s)
  {
    if StartsWithMarker(s) { PrefixOfPrefix(s, s + t); }
    if StartsWithMarker(s + t) {
      SolidStopsAtLineBreak(s, t, MarkerOf(s + t));
      PrefixOfPrefix(MarkerOf(s + t), s);
    }
  }

  // ---------------------------------------------------------------------------
  // The round trip
  // ---------------------------------------------------------------------------

  /** What the tag stripper leaves of a full copy: the body, right-trimmed if it was tagged. */
  lemma TagRoundTrip(tag: string, body: Option<string>)
    requires IsTag(tag)
    ensures StripManagedTag(tag, TagDescription(tag, body)) == if tag == [] then body else OrNone(Rstrip(Text(body)))
  {
    if tag != [] {
      TagIsTight(tag);
      var base := Rstrip(Text(body));
      if base != [] {
        var s := base + "\n\n" + tag;
        assert s == (base + "\n\n") + tag;
        RstripIsTrimmed(s);
        assert s[|s| - |tag|..] == tag;
        assert |s| != |tag|;
        assert s[..|s| - |tag|] == base + "\n\n";
        RstripDropsSpaces(base, "\n\n");
      }
    }
  }

  /** The metadata as the stripper sees it. */
  function SeenMeta(tag: string, meta: string): string {
    if tag == [] then meta else Rstrip(meta)
  }

  lemma DelimiterDoesNotOverlapMeta(base: string, meta: string, i: int)
    requires StartsWithMarker(meta) && OccursAt(base + FOOTER_DELIM + meta, FOOTER_DELIM, i) && i > |base|
    ensures i >= |base| + |FOOTER_DELIM| && OccursAt(meta, FOOTER_DELIM, i - |base| - |FOOTER_DELIM|)
  {
    var s := base + FOOTER_DELIM + meta;
    MarkerIsVisible(meta);
    var d := s[i..i + |FOOTER_DELIM|];
    assert d[0] == s[i] && d[1] == s[i + 1];
    forall j | 0 <= j < |FOOTER_DELIM| ensures s[|base| + j] == FOOTER_DELIM[j] {}
    assert s[|base| + |FOOTER_DELIM|] == meta[0];
    assert i >= |base| + |FOOTER_DELIM|;
    var k := i - |base| - |FOOTER_DELIM|;
    assert meta[k..k + |FOOTER_DELIM|] == d;
  }

  lemma OccursBehind(front: string, t: string, d: string, k: int)
    requires OccursAt(t, d, k)
    ensures OccursAt(front + t, d, |front| + k)
  {
    assert t[k..k + |d|] == d;
    forall i | 0 <= i < |d| ensures (front + t)[|front| + k + i] == d[i] {
      assert t[k..k + |d|][i] == t[k + i];
    }
    assert (front + t)[|front| + k..|front| + k + |d|] == d;
  }

  /** Where the last delimiter of a copy with a footer is. */
  lemma LastDelimiter(base: string, meta: string)
    requires StartsWithMarker(meta)
    ensures var s := base + FOOTER_DELIM + meta;
            RFind(s, FOOTER_DELIM) == |base| <==> !Contains(meta, FOOTER_DELIM)
    ensures RFind(base + FOOTER_DELIM + meta, FOOTER_DELIM) >= |base|
  {
    var s := base + FOOTER_DELIM + meta;
    assert OccursAt(s, FOOTER_DELIM, |base|);
    var r := RFind(s, FOOTER_DELIM);
    if r > |base| {
      DelimiterDoesNotOverlapMeta(base, meta, r);
    } else if k :| OccursAt(meta, FOOTER_DELIM, k) {
      OccursBehind(base + FOOTER_DELIM, meta, FOOTER_DELIM, k);
    }
  }

  /** The user's own text contains a footer of its own: a last delimiter with a marker behind it. */
  predicate HasOwnFooter(base: string) {
    var idx := RFind(base, FOOTER_DELIM);
    idx != -1 && StartsWithMarker(Lstrip(base[idx + |FOOTER_DELIM|..]))
  }

  /** The exact condition of the round trip. */
  ghost predicate Recoverable(tag: string, base: string, meta: string) {
    base == [] ||
    (!StartsWithMarker(Lstrip(base)) &&
     if meta == [] then !HasOwnFooter(base) else !Contains(SeenMeta(tag, meta), FOOTER_DELIM))
  }

  lemma FooterOpens(base: string, meta: string)
    requires base != [] && !IsSpace(base[|base| - 1]) && StartsWithMarker(meta)
    ensures StartsWithMarker(Lstrip(base + FOOTER_DELIM + meta)) <==> StartsWithMarker(Lstrip(base))
  {
    var rest := FOOTER_DELIM + meta;
    assert base + FOOTER_DELIM + meta == base + rest;
    LastVisible(base);
    LstripOfSum(base, rest);
    MarkerStopsAtLineBreak(Lstrip(base), rest);
  }

  lemma StripWithFooter(base: string, meta: string)
    requires base != [] && !IsSpace(base[|base| - 1]) && StartsWithMarker(meta)
    ensures StripFooter(base + FOOTER_DELIM + meta) == Some(base) <==>
            !StartsWithMarker(Lstrip(base)) && !Contains(meta, FOOTER_DELIM)
  {
    var s := base + FOOTER_DELIM + meta;
    var idx := RFind(s, FOOTER_DELIM);
    FooterOpens(base, meta);
    LastDelimiter(base, meta);
    MetaBehind(base, meta);
    CutCases(s, |base|, idx, StartsWithMarker(Lstrip(s)), StartsWithMarker(Lstrip(s[idx + |FOOTER_DELIM|..])));
  }

  lemma MetaBehind(base: string, meta: string)
    requires StartsWithMarker(meta)
    ensures var s := base + FOOTER_DELIM + meta;
            s[..|base|] == base && StartsWithMarker(Lstrip(s[|base| + |FOOTER_DELIM|..]))
  {
    MarkerIsVisible(meta);
    assert (base + FOOTER_DELIM + meta)[|base| + |FOOTER_DELIM|..] == meta;
  }

  /** What the stripper keeps is the text before the delimiter it found, or everything. */
  lemma CutCases(s: string, k: nat, idx: int, opens: bool, footer: bool)
    requires 0 < k <= idx < |s| && (idx == k ==> footer)
    ensures Cut(s, idx, opens, footer) == Some(s[..k]) <==> !opens && idx == k
  {
    assert |s[..idx]| == idx && |s[..k]| == k;
  }

  /** A non-empty right-trimmed text is not blank, and keeps its last character when left-trimmed. */
  lemma LastVisible(s: string)
    requires s != [] && !IsSpace(s[|s| - 1])
    ensures Lstrip(s) != [] && !IsSpace(Lstrip(s)[|Lstrip(s)| - 1])
  {
    LstripIsSuffix(s);
  }

  /** Stripping a rendered full copy returns the right-trimmed original, None if empty, if and only
      if the description is recoverable. */
  lemma FooterRoundTrip(tag: string, description: Option<string>, meta: string)
    requires IsTag(tag) && (meta == [] || StartsWithMarker(meta))
    ensures var base := Rstrip(Text(description));
            StripFullCopyMetadata(tag, FullCopyDescription(tag, description, meta)) == OrNone(base)
            <==> Recoverable(tag, base, meta)
  {
    var base := Rstrip(Text(description));
    if meta == [] { RoundTripWithoutFooter(tag, base); }
    else if base == [] { RoundTripOfFooterAlone(tag, meta); }
    else { RoundTripWithFooter(tag, base, meta); }
  }

  lemma RoundTripWithoutFooter(tag: string, base: string)
    requires IsTag(tag) && (base == [] || !IsSpace(base[|base| - 1]))
    ensures StripFullCopyMetadata(tag, TagDescription(tag, OrNone(base))) == OrNone(base) <==> Recoverable(tag, base, [])
  {
    TagRoundTrip(tag, OrNone(base));
    RstripIsTrimmed(base);
    if base != [] { StripPlain(base); }
  }

  lemma RoundTripOfFooterAlone(tag: string, meta: string)
    requires IsTag(tag) && StartsWithMarker(meta)
    ensures StripFullCopyMetadata(tag, TagDescription(tag, Some(meta))).None?
  {
    TagRoundTrip(tag, Some(meta));
    MarkerIsVisible(meta);
    MarkerIsVisible(Rstrip(meta));
  }

  lemma RoundTripWithFooter(tag: string, base: string, meta: string)
    requires IsTag(tag) && StartsWithMarker(meta) && base != [] && !IsSpace(base[|base| - 1])
    ensures StripFullCopyMetadata(tag, TagDescription(tag, Some(base + FOOTER_DELIM + meta))) == Some(base)
            <==> Recoverable(tag, base, meta)
  {
    TagRoundTrip(tag, Some(base + FOOTER_DELIM + meta));
    MarkerIsVisible(meta);
    RstripOfSum(base + FOOTER_DELIM, meta);
    var seen := SeenMeta(tag, meta);
    StripWithFooter(base, seen);
    assert base + FOOTER_DELIM + seen != [];
  }

  lemma StripPlain(base: string)
    requires base != []
    ensures StripFooter(base) == Some(base) <==> !StartsWithMarker(Lstrip(base)) && !HasOwnFooter(base)
  {
  }

  /** The same for the metadata the renderer composes. */
  lemma FullCopyRoundTrip(tag: string, description: Option<string>, guests: Option<string>, name: string, placement: string, link: string)
    requires IsTag(tag) && (guests.Some? ==> StartsWith(guests.value, ATTENDEES))
    ensures var meta := FullCopyMetadata(guests, name, placement, link);
            var base := Rstrip(Text(description));
            StripFullCopyMetadata(tag, FullCopyDescription(tag, description, meta)) == OrNone(base)
            <==> Recoverable(tag, base, meta)
  {
    MetadataOpensWithMarker(guests, name, placement, link);
    FooterRoundTrip(tag, description, FullCopyMetadata(guests, name, placement, link));
  }

  /** A text that shows the delimiter where the original has white space is not the original. */
  lemma DelimiterIsNoSpace(base: string, meta: string, cut: int, d: string)
    requires |base| < cut <= |base + FOOTER_DELIM + meta| && cut >= |base| + |FOOTER_DELIM|
    requires |base| < |d| && forall i :: |base| <= i < |d| ==> IsSpace(d[i])
    ensures (base + FOOTER_DELIM + meta)[..cut] != d
  {
    var s := base + FOOTER_DELIM + meta;
    assert s[..cut][|base| + 2] == s[|base| + 2] == FOOTER_DELIM[2] == '-';
    assert |d| == cut ==> IsSpace(d[|base| + 2]);
  }

  /** White space at the end of a description never comes back. */
  lemma UntrimmedIsNotRecovered(tag: string, description: Option<string>, meta: string)
    requires IsTag(tag) && (meta == [] || StartsWithMarker(meta)) && Rstrip(Text(description)) != Text(description)
    ensures Text(StripFullCopyMetadata(tag, FullCopyDescription(tag, description, meta))) != Text(description)
  {
    var d, base := Text(description), Rstrip(Text(description));
    if meta == [] { PlainKeepsNoSpace(tag, base, d); }
    else if base == [] { RoundTripOfFooterAlone(tag, meta); }
    else { CopyKeepsNoSpace(tag, base, meta, d); }
  }

  lemma PlainKeepsNoSpace(tag: string, base: string, d: string)
    requires IsTag(tag) && (base == [] || !IsSpace(base[|base| - 1])) && |base| < |d|
    ensures Text(StripFullCopyMetadata(tag, TagDescription(tag, OrNone(base)))) != d
  {
    TagRoundTrip(tag, OrNone(base));
    RstripIsTrimmed(base);
  }

  lemma CopyKeepsNoSpace(tag: string, base: string, meta: string, d: string)
    requires IsTag(tag) && StartsWithMarker(meta) && base != []
    requires |base| < |d| && forall i :: |base| <= i < |d| ==> IsSpace(d[i])
    ensures Text(StripFullCopyMetadata(tag, TagDescription(tag, Some(base + FOOTER_DELIM + meta)))) != d
  {
    TagRoundTrip(tag, Some(base + FOOTER_DELIM + meta));
    MarkerIsVisible(meta);
    RstripOfSum(base + FOOTER_DELIM, meta);
    FooterKeepsNoSpace(base, SeenMeta(tag, meta), d);
  }

  lemma FooterKeepsNoSpace(base: string, meta: string, d: string)
    requires base != [] && StartsWithMarker(meta)
    requires |base| < |d| && forall i :: |base| <= i < |d| ==> IsSpace(d[i])
    ensures Text(StripFooter(base + FOOTER_DELIM + meta)) != d
  {
    var s := base + FOOTER_DELIM + meta;
    var idx := RFind(s, FOOTER_DELIM);
    LastDelimiter(base, meta);
    if idx > |base| {
      DelimiterDoesNotOverlapMeta(base, meta, idx);
      DelimiterIsNoSpace(base, meta, idx, d);
    }
    DelimiterIsNoSpace(base, meta, |s|, d);
    assert s[..|s|] == s;
  }

  /** What main ingest compares, `None` and the empty text being the same: the description of our own copy
      reads back as the original if and only if it ends in no white space and is recoverable. */
  lemma DescriptionReadsBack(tag: string, description: Option<string>, meta: string)
    requires IsTag(tag) && (meta == [] || StartsWithMarker(meta))
    ensures Text(StripFullCopyMetadata(tag, FullCopyDescription(tag, description, meta))) == Text(description) <==>
            Rstrip(Text(description)) == Text(description) && Recoverable(tag, Text(description), meta)
  {
    if Rstrip(Text(description)) != Text(description) { UntrimmedIsNotRecovered(tag, description, meta); }
    else { FooterRoundTrip(tag, description, meta); }
  }

  // ---------------------------------------------------------------------------
  // Summary prefixes
  // ---------------------------------------------------------------------------

  /** One turn of the loop: at most one lock, then at most one tag. */
  function StripOnce(tag: string, s: string): (r: string)
    ensures |r| <= |s| && (|r| == |s| ==> r == s)
    ensures r == s <==> !StartsWith(s, LOCK_PREFIX) && (tag == [] || !StartsWith(s, tag))
  {
    var a := if StartsWith(s, LOCK_PREFIX) then s[|LOCK_PREFIX|..] else s;
    if tag != [] && StartsWith(a, tag) then Lstrip(a[|tag|..]) else a
  }

  /** What `strip_copy_summary_prefixes` computes: neither decoration is left in front. */
  function Undecorated(tag: string, s: string): (r: string)
    ensures |r| <= |s|
    ensures !StartsWith(r, LOCK_PREFIX) && (tag == [] || !StartsWith(r, tag))
    decreases |s|
  {
    var t := StripOnce(tag, s);
    if t == s then s else Undecorated(tag, t)
  }

  method StripCopySummaryPrefixes(tag: string, summary: Option<string>) returns (r: Option<string>)
    ensures r == if summary.None? then None else Some(Undecorated(tag, summary.value))
  {
    if summary.None? || summary.value == [] {
      return summary;
    }
    var out := summary.value;
    var changed := true;
    while changed
      invariant Undecorated(tag, out) == Undecorated(tag, summary.value)
      invariant !changed ==> StripOnce(tag, out) == out
      decreases |out|, changed
    {
      ghost var was := out;
      changed := false;
      if StartsWith(out, LOCK_PREFIX) {
        out := out[|LOCK_PREFIX|..];
        changed := true;
      }
      if tag != [] && StartsWith(out, tag) {
        out := Lstrip(out[|tag|..]);
        changed := true;
      }
      assert out == StripOnce(tag, was);
    }
    r := Some(out);
  }

  /** Stripping is idempotent. */
  lemma UndecoratedIsIdempotent(tag: string, s: string)
    ensures Undecorated(tag, Undecorated(tag, s)) == Undecorated(tag, s)
  {
  }

  /** Stripping undoes the lock the renderer prepends, exactly when the title has no decoration of
      its own. */
  lemma LockIsUndone(tag: string, s: string)
    ensures Undecorated(tag, LOCK_PREFIX + s) == s <==> !StartsWith(s, LOCK_PREFIX) && (tag == [] || !StartsWith(s, tag))
  {
    assert (LOCK_PREFIX + s)[|LOCK_PREFIX|..] == s;
    assert StartsWith(LOCK_PREFIX + s, LOCK_PREFIX);
  }
}
