/** The calendar-file printer of the backup export (app/sync/ics_export.py:33-76, 476-490) against the
    reader of RFC 5545, sections 3.1 (folded lines) and 3.3.11 (text values). */
module Ics {
  import opened Strings

  const CRLF := "\r\n"

  // ---------------------------------------------------------------------------
  // Text values
  // ---------------------------------------------------------------------------

  /** `s.replace(c, with)` for a single character. */
  function Replace(s: string, c: char, with: string): string {
    if s == [] then [] else (if s[0] == c then with else [s[0]]) + Replace(s[1..], c, with)
  }

  /** `s.replace("\r\n", "\n")`. */
  function ReplaceCrLf(s: string): string {
    if s == [] then []
    else if StartsWith(s, CRLF) then "\n" + ReplaceCrLf(s[2..])
    else [s[0]] + ReplaceCrLf(s[1..])
  }

  /** The three replacements that come first. */
  function Guard(s: string): string {
    Replace(Replace(Replace(s, '\\', "\\\\"), ';', "\\;"), ',', "\\,")
  }

  /** The three replacements of line breaks. */
  function Breaks(s: string): string {
    Replace(Replace(ReplaceCrLf(s), '\r', "\n"), '\n', "\\n")
  }

  /** `_escape_ics`: the chain of replacements, in its order. */
  function Escape(text: string): string {
    Breaks(Guard(text))
  }

  /** A text with each line break (CRLF, CR or LF) as one LF. */
  function Normalised(text: string): string {
    if text == [] then []
    else if StartsWith(text, CRLF) then "\n" + Normalised(text[2..])
    else [if text[0] == '\r' then '\n' else text[0]] + Normalised(text[1..])
  }

  /** What a reader makes of a text value (section 3.3.11). */
  function Unescape(s: string): string {
    if s == [] then []
    else if s[0] != '\\' || |s| == 1 then [s[0]] + Unescape(s[1..])
    else [if s[1] in "nN" then '\n' else s[1]] + Unescape(s[2..])
  }

  /** The grammar of a text value (section 3.3.11), as far as it concerns delimiters and line breaks. */
  predicate IsTextValue(s: string) {
    if s == [] then true
    else if s[0] == '\\' then |s| >= 2 && s[1] in "\\;,nN" && IsTextValue(s[2..])
    else s[0] !in ";,\r\n" && IsTextValue(s[1..])
  }

  function Guarded(c: char): string {
    if c in "\\;," then ['\\', c] else [c]
  }

  lemma Regroup(a: string, b: string, c: string)
    ensures a + (b + c) == a + b + c
  {
  }

  lemma {:induction false} ReplaceDistributes(s: string, t: string, c: char, with: string)
    ensures Replace(s + t, c, with) == Replace(s, c, with) + Replace(t, c, with)
    decreases |s|
  {
    if s == [] {
      assert s + t == t;
    } else {
      ReplaceDistributes(s[1..], t, c, with);
      assert (s + t)[1..] == s[1..] + t && (s + t)[0] == s[0];
      Regroup(if s[0] == c then with else [s[0]], Replace(s[1..], c, with), Replace(t, c, with));
    }
  }

  lemma ReplaceOne(c: char, d: char, with: string)
    ensures Replace([c], d, with) == if c == d then with else [c]
  {
    assert Replace([c][1..], d, with) == [];
  }

  lemma ReplaceCons(c: char, t: string, d: char, with: string)
    ensures c == d ==> Replace([c] + t, d, with) == with + Replace(t, d, with)
    ensures c != d ==> Replace([c] + t, d, with) == [c] + Replace(t, d, with)
  {
    ReplaceDistributes([c], t, d, with);
    ReplaceOne(c, d, with);
  }

  lemma ReplaceTwo(c: char, e: char, t: string, d: char, with: string)
    requires c != d && e != d
    ensures Replace([c, e] + t, d, with) == [c, e] + Replace(t, d, with)
  {
    assert [c, e] + t == [c] + ([e] + t);
    ReplaceCons(c, [e] + t, d, with);
    ReplaceCons(e, t, d, with);
    assert [c] + ([e] + Replace(t, d, with)) == [c, e] + Replace(t, d, with);
  }

  /** The chain guards one character at a time. */
  lemma GuardStep(s: string)
    requires s != []
    ensures Guard(s) == Guarded(s[0]) + Guard(s[1..])
  {
    var c, t := s[0], s[1..];
    var t1 := Replace(t, '\\', "\\\\");
    var t2 := Replace(t1, ';', "\\;");
    assert s == [c] + t;
    ReplaceCons(c, t, '\\', "\\\\");
    if c == '\\' {
      ReplaceTwo(c, c, t1, ';', "\\;");
      ReplaceTwo(c, c, t2, ',', "\\,");
    } else {
      ReplaceCons(c, t1, ';', "\\;");
      if c == ';' {
        ReplaceTwo('\\', c, t2, ',', "\\,");
      } else {
        ReplaceCons(c, t2, ',', "\\,");
      }
    }
  }

  /** A character that is neither CR nor LF passes the line-break replacements. */
  lemma BreaksStep(c: char, t: string)
    requires c != '\r' && c != '\n'
    ensures Breaks([c] + t) == [c] + Breaks(t)
  {
    var s := [c] + t;
    assert s[1..] == t;
    var u := [c] + ReplaceCrLf(t);
    assert u[1..] == ReplaceCrLf(t);
    var v := [c] + Replace(ReplaceCrLf(t), '\r', "\n");
    assert v[1..] == Replace(ReplaceCrLf(t), '\r', "\n");
  }

  /** A line break, however it is written, becomes `\n`. */
  lemma BreaksOfBreak(s: string)
    requires s != [] && s[0] in CRLF
    ensures Breaks(s) == "\\n" + Breaks(s[if StartsWith(s, CRLF) then 2 else 1..])
  {
    var t := s[if StartsWith(s, CRLF) then 2 else 1..];
    var head := ReplaceCrLf(s)[..1];
    assert ReplaceCrLf(s) == head + ReplaceCrLf(t);
    ReplaceDistributes(head, ReplaceCrLf(t), '\r', "\n");
    assert head == [head[0]];
    ReplaceOne(head[0], '\r', "\n");
    ReplaceDistributes("\n", Replace(ReplaceCrLf(t), '\r', "\n"), '\n', "\\n");
    ReplaceOne('\n', '\n', "\\n");
  }

  /** The chain as one pass over the text: a character that is no line break. */
  lemma EscapeStep(s: string)
    requires s != [] && s[0] !in CRLF
    ensures Escape(s) == Guarded(s[0]) + Escape(s[1..])
  {
    GuardStep(s);
    var t := Guard(s[1..]);
    BreaksStep(s[0], t);
    if s[0] in "\\;," {
      assert Guarded(s[0]) + t == ['\\'] + ([s[0]] + t);
      BreaksStep('\\', [s[0]] + t);
    }
  }

  /** How much of the text a line break takes. */
  function BreakLength(s: string): (k: nat)
    requires s != []
    ensures 1 <= k <= |s|
  {
    if StartsWith(s, CRLF) then 2 else 1
  }

  /** The chain as one pass over the text: a line break. */
  lemma EscapeBreak(s: string)
    requires s != [] && s[0] in CRLF
    ensures Escape(s) == "\\n" + Escape(s[BreakLength(s)..])
  {
    GuardStep(s);
    if |s| > 1 {
      GuardStep(s[1..]);
      assert s[1..][1..] == s[2..];
    }
    assert StartsWith(Guard(s), CRLF) <==> StartsWith(s, CRLF);
    assert Guard(s)[BreakLength(s)..] == Guard(s[BreakLength(s)..]);
    BreaksOfBreak(Guard(s));
  }

  lemma ReadOne(c: char, t: string)
    ensures c !in CRLF ==> Unescape(Guarded(c) + t) == [c] + Unescape(t)
    ensures c !in CRLF && IsTextValue(t) ==> IsTextValue(Guarded(c) + t)
  {
    var s := Guarded(c) + t;
    assert s[|Guarded(c)|..] == t;
  }

  lemma ReadBreak(t: string)
    ensures Unescape("\\n" + t) == "\n" + Unescape(t)
    ensures IsTextValue(t) ==> IsTextValue("\\n" + t)
  {
    var s := "\\n" + t;
    assert s[2..] == t;
  }

  /** An escaped text is a text value, with no raw line break or delimiter, and a reader gets the
      text back with its line breaks normalised. */
  lemma {:induction false} EscapeRoundTrip(text: string)
    ensures Unescape(Escape(text)) == Normalised(text)
    ensures IsTextValue(Escape(text))
    decreases |text|
  {
    if text != [] {
      if text[0] in CRLF {
        var t := text[BreakLength(text)..];
        EscapeBreak(text);
        EscapeRoundTrip(t);
        ReadBreak(Escape(t));
      } else {
        EscapeStep(text);
        EscapeRoundTrip(text[1..]);
        ReadOne(text[0], Escape(text[1..]));
      }
    }
  }

  lemma {:induction false} EscapeOfNormalised(text: string)
    ensures Escape(Normalised(text)) == Escape(text)
    decreases |text|
  {
    if text != [] {
      var k := BreakLength(text);
      EscapeOfNormalised(text[k..]);
      assert Normalised(text)[1..] == Normalised(text[k..]);
      if text[0] in CRLF {
        EscapeBreak(text);
        EscapeBreak(Normalised(text));
      } else {
        EscapeStep(text);
        EscapeStep(Normalised(text));
      }
    }
  }

  /** Two texts are written alike exactly when they differ in nothing but their line breaks. */
  lemma EscapeForgetsOnlyLineBreaks(a: string, b: string)
    ensures Escape(a) == Escape(b) <==> Normalised(a) == Normalised(b)
  {
    EscapeRoundTrip(a);
    EscapeRoundTrip(b);
    EscapeOfNormalised(a);
    EscapeOfNormalised(b);
  }

  predicate HasNoBreaks(s: string) {
    '\r' !in s && '\n' !in s
  }

  lemma {:induction false} TextValuesHaveNoBreaks(s: string)
    requires IsTextValue(s)
    ensures HasNoBreaks(s)
    decreases |s|
  {
    if s != [] {
      var k := if s[0] == '\\' then 2 else 1;
      TextValuesHaveNoBreaks(s[k..]);
      assert s == s[..k] + s[k..];
    }
  }

  // ---------------------------------------------------------------------------
  // Folded lines
  // ---------------------------------------------------------------------------

  const LINE_OCTETS := 75

  /** Octets of a character in UTF-8. */
  function Width(c: char): (n: nat)
    ensures 1 <= n <= 4
  {
    if c < '\U{80}' then 1 else if c < '\U{800}' then 2 else if c < '\U{10000}' then 3 else 4
  }

  /** The encoding itself (section 3 of RFC 3629). */
  function Utf8(c: char): (bytes: seq<int>)
    ensures forall i :: 0 <= i < |bytes| ==> 0 <= bytes[i] < 256
  {
    var n := c as int;
    if n < 0x80 then [n]
    else if n < 0x800 then [0xC0 + n / 64, 0x80 + n % 64]
    else if n < 0x10000 then [0xE0 + n / 64 / 64, 0x80 + n / 64 % 64, 0x80 + n % 64]
    else [0xF0 + n / 64 / 64 / 64, 0x80 + n / 64 / 64 % 64, 0x80 + n / 64 % 64, 0x80 + n % 64]
  }

  /** What a decoder reads: the lead byte tells how many bytes follow. */
  function FromUtf8(bytes: seq<int>): int {
    if |bytes| == 1 && bytes[0] < 0x80 then bytes[0]
    else if |bytes| == 2 && 0xC0 <= bytes[0] < 0xE0 then (bytes[0] - 0xC0) * 64 + (bytes[1] - 0x80)
    else if |bytes| == 3 && 0xE0 <= bytes[0] < 0xF0 then
      ((bytes[0] - 0xE0) * 64 + (bytes[1] - 0x80)) * 64 + (bytes[2] - 0x80)
    else if |bytes| == 4 && 0xF0 <= bytes[0] then
      (((bytes[0] - 0xF0) * 64 + (bytes[1] - 0x80)) * 64 + (bytes[2] - 0x80)) * 64 + (bytes[3] - 0x80)
    else -1
  }

  /** A character takes as many octets as its encoding, which can be read back. */
  lemma WidthOfEncoding(c: char)
    ensures |Utf8(c)| == Width(c) && FromUtf8(Utf8(c)) == c as int
  {
    var n := c as int;
    assert n == n / 64 * 64 + n % 64;
    assert n / 64 == n / 64 / 64 * 64 + n / 64 % 64;
    assert n / 64 / 64 == n / 64 / 64 / 64 * 64 + n / 64 / 64 % 64;
  }

  function Octets(s: string): nat {
    if s == [] then 0 else Octets(s[..|s| - 1]) + Width(s[|s| - 1])
  }

  lemma {:induction false} OctetsAddUp(s: string, t: string)
    ensures Octets(s + t) == Octets(s) + Octets(t)
    decreases |t|
  {
    if t == [] {
      assert s + t == s;
    } else {
      OctetsAddUp(s, t[..|t| - 1]);
      assert (s + t)[..|s + t| - 1] == s + t[..|t| - 1];
    }
  }

  function Join(parts: seq<string>): string {
    if parts == [] then []
    else if |parts| == 1 then parts[0]
    else parts[0] + CRLF + Join(parts[1..])
  }

  /** The physical lines still to come, with `current` begun and `rest` unread. */
  function Folded(rest: string, current: string): seq<string> {
    if rest == [] then (if current == [] then [] else [current])
    else if Octets(current + [rest[0]]) > LINE_OCTETS then [current] + Folded(rest[1..], [' ', rest[0]])
    else Folded(rest[1..], current + [rest[0]])
  }

  /** `_fold_line`. */
  method FoldLine(line: string) returns (folded: string)
    ensures folded == Join(Folded(line, []))
  {
    if Octets(line) <= LINE_OCTETS {
      assert [] + line == line;
      ShortLinesStay(line, []);
      return line;
    }
    var parts: seq<string>, current := [], [];
    var i := 0;
    while i < |line|
      invariant 0 <= i <= |line|
      invariant parts + Folded(line[i..], current) == Folded(line, [])
    {
      var candidate := current + [line[i]];
      assert line[i..][0] == line[i] && line[i..][1..] == line[i + 1..];
      if Octets(candidate) > LINE_OCTETS {
        assert parts + ([current] + Folded(line[i + 1..], [' ', line[i]])) == (parts + [current]) + Folded(line[i + 1..], [' ', line[i]]);
        parts := parts + [current];
        current := [' ', line[i]];
      } else {
        current := candidate;
      }
      i := i + 1;
    }
    if current != [] {
      parts := parts + [current];
    }
    assert parts == Folded(line, []);
    return Join(parts);
  }

  lemma {:induction false} ShortLinesStay(rest: string, current: string)
    requires Octets(current + rest) <= LINE_OCTETS
    ensures Join(Folded(rest, current)) == current + rest
    decreases |rest|
  {
    if rest != [] {
      var next := current + [rest[0]];
      assert next + rest[1..] == current + rest;
      OctetsAddUp(next, rest[1..]);
      ShortLinesStay(rest[1..], next);
    }
  }

  /** A reader's unfolding (section 3.1): a line break followed by a blank is no line break. */
  function Unfold(s: string): string {
    if s == [] then []
    else if |s| >= 3 && s[..2] == CRLF && s[2] in " \t" then Unfold(s[3..])
    else [s[0]] + Unfold(s[1..])
  }

  lemma {:induction false} UnfoldKeeps(s: string, t: string)
    requires HasNoBreaks(s)
    ensures Unfold(s + t) == s + Unfold(t)
    decreases |s|
  {
    if s == [] {
      assert s + t == t;
    } else {
      assert (s + t)[1..] == s[1..] + t && (s + t)[0] == s[0] != '\r';
      UnfoldKeeps(s[1..], t);
    }
  }

  lemma {:induction false} FoldedStarts(rest: string, current: string)
    requires current != []
    ensures Folded(rest, current) != [] && current <= Folded(rest, current)[0]
    decreases |rest|
  {
    if rest != [] && Octets(current + [rest[0]]) <= LINE_OCTETS {
      FoldedStarts(rest[1..], current + [rest[0]]);
    }
  }

  lemma {:induction false} UnfoldsToLine(rest: string, current: string)
    requires HasNoBreaks(rest) && HasNoBreaks(current)
    ensures Unfold(Join(Folded(rest, current))) == current + rest
    decreases |rest|
  {
    if rest == [] {
      UnfoldKeeps(current, []);
      assert current + [] == current;
    } else if Octets(current + [rest[0]]) > LINE_OCTETS {
      var next := [' ', rest[0]];
      var more := Folded(rest[1..], next);
      UnfoldsToLine(rest[1..], next);
      FoldedStarts(rest[1..], next);
      assert ([current] + more)[1..] == more;
      var tail := Join(more);
      assert tail[0] == ' ';
      assert Join([current] + more) == current + (CRLF + tail);
      UnfoldKeeps(current, CRLF + tail);
      assert (CRLF + tail)[3..] == tail[1..];
      assert Unfold(tail) == [' '] + Unfold(tail[1..]);
      assert Unfold(tail)[1..] == rest;
    } else {
      UnfoldsToLine(rest[1..], current + [rest[0]]);
      assert current + [rest[0]] + rest[1..] == current + rest;
    }
  }

  /** The physical lines of a file, with the one being read. */
  function Lines(s: string, current: string): seq<string> {
    if s == [] then [current]
    else if StartsWith(s, CRLF) then [current] + Lines(s[2..], [])
    else Lines(s[1..], current + [s[0]])
  }

  lemma {:induction false} LinesOfPart(part: string, t: string, current: string)
    requires HasNoBreaks(part) && (t == [] || StartsWith(t, CRLF))
    ensures Lines(part + t, current) == [current + part] + if t == [] then [] else Lines(t[2..], [])
    decreases |part|
  {
    if part == [] {
      assert part + t == t && current + part == current;
    } else {
      assert (part + t)[1..] == part[1..] + t;
      LinesOfPart(part[1..], t, current + [part[0]]);
      assert current + [part[0]] + part[1..] == current + part;
    }
  }

  lemma {:induction false} LinesOfJoin(parts: seq<string>)
    requires parts != [] && forall p :: p in parts ==> HasNoBreaks(p)
    ensures Lines(Join(parts), []) == parts
    decreases |parts|
  {
    assert [] + parts[0] == parts[0];
    if |parts| == 1 {
      assert parts[0] + [] == parts[0];
      LinesOfPart(parts[0], [], []);
    } else {
      var t := CRLF + Join(parts[1..]);
      assert Join(parts) == parts[0] + t && t[2..] == Join(parts[1..]);
      LinesOfPart(parts[0], t, []);
      LinesOfJoin(parts[1..]);
    }
  }

  /** Every physical line fits, and every one after the first begins with the blank that marks it. */
  lemma {:induction false} FoldedFits(rest: string, current: string)
    requires HasNoBreaks(rest) && HasNoBreaks(current) && Octets(current) <= LINE_OCTETS
    ensures forall p :: p in Folded(rest, current) ==> HasNoBreaks(p) && Octets(p) <= LINE_OCTETS
    ensures forall k :: 0 < k < |Folded(rest, current)| ==> StartsWith(Folded(rest, current)[k], " ")
    decreases |rest|
  {
    if rest == [] {
    } else if Octets(current + [rest[0]]) > LINE_OCTETS {
      var next := [' ', rest[0]];
      assert next == [' '] + [rest[0]];
      OctetsAddUp([' '], [rest[0]]);
      OctetsAddUp([], [' ']);
      OctetsAddUp([], [rest[0]]);
      FoldedFits(rest[1..], next);
      FoldedStarts(rest[1..], next);
    } else {
      FoldedFits(rest[1..], current + [rest[0]]);
    }
  }

  /** Unfolding a folded line gives it back, and no physical line is longer than 75 octets. */
  lemma FoldRoundTrip(line: string)
    requires HasNoBreaks(line)
    ensures Unfold(Join(Folded(line, []))) == line
    ensures forall p :: p in Lines(Join(Folded(line, [])), []) ==> Octets(p) <= 75
  {
    UnfoldsToLine(line, []);
    assert [] + line == line;
    FoldedFits(line, []);
    if Folded(line, []) != [] { LinesOfJoin(Folded(line, [])); }
  }

  /** A text property, printed, folded, unfolded and read again. */
  lemma PropertyRoundTrip(name: string, text: string)
    requires HasNoBreaks(name)
    ensures var line := Unfold(Join(Folded(name + ":" + Escape(text), [])));
            name + ":" <= line && Unescape(line[|name| + 1..]) == Normalised(text)
  {
    EscapeRoundTrip(text);
    TextValuesHaveNoBreaks(Escape(text));
    var line := name + ":" + Escape(text);
    FoldRoundTrip(line);
    assert line[|name| + 1..] == Escape(text);
  }

  // ---------------------------------------------------------------------------
  // Folding no more than needed
  // ---------------------------------------------------------------------------

  /** What physical lines say, when the first `skip` characters of the first one are the marking blank. */
  function Said(lines: seq<string>, skip: nat): string
    requires forall k :: 0 <= k < |lines| ==> (if k == 0 then skip else 1) <= |lines[k]|
  {
    if lines == [] then [] else lines[0][skip..] + Said(lines[1..], 1)
  }

  /** Physical lines that fit, each marked as a continuation (the first one if `skip` is 1). */
  predicate Fit(lines: seq<string>, skip: nat) {
    && skip <= 1
    && (forall p :: p in lines ==> Octets(p) <= 75)
    && forall k :: 0 <= k < |lines| && (k > 0 || skip == 1) ==> StartsWith(lines[k], " ")
  }

  lemma PartIsNoWider(x: string, piece: string, text: string)
    requires x + piece <= text
    ensures Octets(piece) <= Octets(text)
  {
    var more := text[|x + piece|..];
    OctetsAddUp(x + piece, more);
    OctetsAddUp(x, piece);
    assert text == x + piece + more;
  }

  lemma PrefixesNest(a: string, b: string, whole: string)
    requires a <= whole && b <= whole && |a| <= |b|
    ensures a <= b
  {
    assert b[..|a|] == whole[..|a|];
  }

  /** No longer piece of the text fits after the same blank. */
  lemma PieceIsShorter(blank: string, text: string, x: string, kept: string, next: char, tail: string)
    requires Octets(blank + text) <= LINE_OCTETS < Octets(blank + (kept + [next]))
    requires text <= (x + (kept + [next])) + tail
    ensures |text| <= |x| + |kept|
  {
    OctetsAddUp(blank, text);
    OctetsAddUp(blank, kept + [next]);
    if |text| > |x| + |kept| {
      PrefixesNest(x + (kept + [next]), text, (x + (kept + [next])) + tail);
      PartIsNoWider(x, kept + [next], text);
    }
  }

  /** The folder is never behind any other way of folding. */
  lemma {:induction false} NeverBehind(rest: string, current: string, skip: nat, x: string, others: seq<string>)
    requires Fit(others, skip) && skip <= |current| && current[..skip] == " "[..skip]
    requires current[skip..] + rest != []
    requires Said(others, skip) == x + current[skip..] + rest
    ensures |Folded(rest, current)| <= |others|
    decreases |rest|
  {
    if rest == [] {
    } else {
      var c := rest[0];
      if Octets(current + [c]) <= LINE_OCTETS {
        assert (current + [c])[skip..] + rest[1..] == current[skip..] + rest;
        assert x + (current + [c])[skip..] + rest[1..] == x + current[skip..] + rest;
        NeverBehind(rest[1..], current + [c], skip, x, others);
      } else {
        var left := Overflow(rest, current, skip, x, others);
        var next := [' ', c];
        assert next[1..] == [c];
        assert left + next[1..] + rest[1..] == left + rest;
        NeverBehind(rest[1..], next, 1, left, others[1..]);
      }
    }
  }

  /** When the next character does not fit, the other way has not passed it either. */
  lemma Overflow(rest: string, current: string, skip: nat, x: string, others: seq<string>) returns (left: string)
    requires Fit(others, skip) && skip <= |current| && current[..skip] == " "[..skip]
    requires rest != [] && Octets(current + [rest[0]]) > LINE_OCTETS
    requires Said(others, skip) == x + current[skip..] + rest
    ensures others != [] && Fit(others[1..], 1) && Said(others[1..], 1) == left + rest
  {
    var said, first := others[0][skip..], x + current[skip..];
    assert first + rest == (x + (current[skip..] + [rest[0]])) + rest[1..];
    assert said <= first + rest;
    assert others[0] == current[..skip] + said;
    assert current + [rest[0]] == current[..skip] + (current[skip..] + [rest[0]]);
    PieceIsShorter(current[..skip], said, x, current[skip..], rest[0], rest[1..]);
    left := first[|said|..];
    assert Said(others[1..], 1) == (first + rest)[|said|..] == left + rest;
  }

  /** Of all ways to fold a line into fitting physical lines, `_fold_line` uses the fewest. */
  lemma FoldsAreFewest(line: string, others: seq<string>)
    requires Fit(others, 0) && Said(others, 0) == line
    ensures |Folded(line, [])| <= |others|
  {
    if line != [] {
      assert [][0..] + line == line;
      assert [] + [][0..] + line == line;
      NeverBehind(line, [], 0, [], others);
    }
  }

  // ---------------------------------------------------------------------------
  // Entry names
  // ---------------------------------------------------------------------------

  /** `str(n)`. */
  function Decimal(n: nat): string {
    (if n < 10 then [] else Decimal(n / 10)) + ["0123456789"[n % 10]]
  }

  /** The number a row of digits spells. */
  function ValueOf(s: string): int {
    if s == [] then 0 else 10 * ValueOf(s[..|s| - 1]) + (s[|s| - 1] as int - '0' as int)
  }

  lemma {:induction false} DecimalSpellsItsNumber(n: nat)
    ensures ValueOf(Decimal(n)) == n
    decreases n
  {
    var s := Decimal(n);
    assert s[|s| - 1] == "0123456789"[n % 10];
    assert s[..|s| - 1] == if n < 10 then [] else Decimal(n / 10);
    if n >= 10 {
      DecimalSpellsItsNumber(n / 10);
    }
  }

  lemma DecimalIsInjective(m: nat, n: nat)
    requires Decimal(m) == Decimal(n)
    ensures m == n
  {
    DecimalSpellsItsNumber(m);
    DecimalSpellsItsNumber(n);
  }

  /** The name tried at `counter`; the first try carries no number. */
  function Entry(name: string, counter: nat): string {
    if counter < 2 then name + ".ics" else name + "-" + Decimal(counter) + ".ics"
  }

  lemma EntriesDiffer(name: string, j: nat, k: nat)
    requires 1 <= j < k
    ensures Entry(name, j) != Entry(name, k)
  {
    var b := "-" + Decimal(k) + ".ics";
    assert Entry(name, k) == name + b;
    if j == 1 {
      assert Entry(name, j)[|name|] == '.' && (name + b)[|name|] == '-';
    } else {
      var a := "-" + Decimal(j) + ".ics";
      assert Entry(name, j) == name + a;
      if name + a == name + b {
        assert (name + a)[|name|..] == a && (name + b)[|name|..] == b;
        assert a[1..|a| - 4] == Decimal(j) && b[1..|b| - 4] == Decimal(k);
        DecimalIsInjective(j, k);
      }
    }
  }

  /** The first `k` tries for a name are all taken. */
  predicate AllTaken(name: string, k: nat, used: set<string>) {
    forall j :: 1 <= j <= k ==> Entry(name, j) in used
  }

  /** A set of names runs out of tries for any one name. */
  lemma {:induction false} TriesRunOut(name: string, k: nat, used: set<string>)
    requires AllTaken(name, k, used)
    ensures k <= |used|
    decreases k
  {
    if k > 0 {
      var last := Entry(name, k);
      forall j | 1 <= j <= k - 1 ensures Entry(name, j) in used - {last} {
        EntriesDiffer(name, j, k);
      }
      assert last in used;
      TriesRunOut(name, k - 1, used - {last});
    }
  }

  /** The names already given to entries of an archive. */
  class EntryNames {
    var used: set<string>

    constructor ()
      ensures used == {}
    {
      used := {};
    }

    /** `_unique_entry_name`: the first free name in the order of counting. */
    method Unique(name: string) returns (candidate: string, ghost counter: nat)
      modifies this
      ensures candidate !in old(used) && used == old(used) + {candidate}
      ensures counter >= 1 && candidate == Entry(name, counter)
      ensures AllTaken(name, counter - 1, old(used))
    {
      candidate := name + ".ics";
      var next: nat := 2;
      while candidate in used
        invariant next >= 2 && candidate == Entry(name, next - 1) && used == old(used)
        invariant AllTaken(name, next - 2, old(used))
        decreases |old(used)| + 2 - next
      {
        TriesRunOut(name, next - 1, old(used));
        candidate := name + "-" + Decimal(next) + ".ics";
        next := next + 1;
      }
      used := used + {candidate};
      counter := next - 1;
    }
  }
}
