/**
 The /ics body: escaped, folded and joined as the service prints it, and read back by a
 parser written from RFC 5545, sections 3.1 (content lines) and 3.3.11 (text).
 */
module Ics {
  import opened Wrappers
  import opened Text
  import opened EventReads

  const CRLF := "\r\n"

  // ── escaping ──

  /** `str::replace` of one character. */
  function Replace(s: string, c: char, with: string): (r: string) {
    if s == "" then "" else (if s[0] == c then with else [s[0]]) + Replace(s[1..], c, with)
  }

  /** Four replacements, one after the other; the backslash first. */
  function IcsEscape(raw: string): (s: string) {
    Replace(Replace(Replace(Replace(raw, '\\', "\\\\"), ';', "\\;"), ',', "\\,"), '\n', "\\n")
  }

  function EscapeChar(c: char): (s: string) {
    if c == '\\' then "\\\\" else if c == ';' then "\\;" else if c == ',' then "\\,"
    else if c == '\n' then "\\n" else [c]
  }

  /** Every character on its own, in one pass. */
  function Escaped(raw: string): (s: string) {
    if raw == "" then "" else EscapeChar(raw[0]) + Escaped(raw[1..])
  }

  lemma {:induction false} ReplaceConcat(a: string, b: string, c: char, with: string)
    ensures Replace(a + b, c, with) == Replace(a, c, with) + Replace(b, c, with)
    decreases |a|
  {
    if a != "" {
      assert (a + b)[1..] == a[1..] + b;
      ReplaceConcat(a[1..], b, c, with);
    } else {
      assert a + b == b;
    }
  }

  lemma EscapeConcat(a: string, b: string)
    ensures IcsEscape(a + b) == IcsEscape(a) + IcsEscape(b)
  {
    hide Replace;
    var a1, b1 := Replace(a, '\\', "\\\\"), Replace(b, '\\', "\\\\");
    ReplaceConcat(a, b, '\\', "\\\\");
    ReplaceConcat(a1, b1, ';', "\\;");
    var a2, b2 := Replace(a1, ';', "\\;"), Replace(b1, ';', "\\;");
    ReplaceConcat(a2, b2, ',', "\\,");
    ReplaceConcat(Replace(a2, ',', "\\,"), Replace(b2, ',', "\\,"), '\n', "\\n");
  }

  lemma ReplaceTwo(x: char, y: char, c: char, with: string)
    ensures Replace([x], c, with) == (if x == c then with else [x])
    ensures x != c && y != c ==> Replace([x, y], c, with) == [x, y]
  {
    assert [x][1..] == "" && [x, y][1..] == [y] && [y][1..] == "";
    assert Replace([y], c, with) == if y == c then with else [y];
  }

  lemma EscapeOneChar(c: char)
    ensures IcsEscape([c]) == EscapeChar(c)
  {
    hide Replace;
    ReplaceTwo(c, c, '\\', "\\\\");
    ReplaceTwo(c, c, ';', "\\;");
    ReplaceTwo(c, c, ',', "\\,");
    ReplaceTwo(c, c, '\n', "\\n");
    ReplaceTwo('\\', '\\', ';', "\\;");
    ReplaceTwo('\\', '\\', ',', "\\,");
    ReplaceTwo('\\', '\\', '\n', "\\n");
    ReplaceTwo('\\', ';', ',', "\\,");
    ReplaceTwo('\\', ';', '\n', "\\n");
    ReplaceTwo('\\', ',', '\n', "\\n");
  }

  /** THE CHAIN IS ONE PASS: no replacement meets what an earlier one wrote. */
  lemma {:induction false} ChainIsOnePass(raw: string)
    ensures IcsEscape(raw) == Escaped(raw)
  {
    if raw != "" {
      hide EscapeChar, IcsEscape;
      ChainIsOnePass(raw[1..]);
      EscapeOneChar(raw[0]);
      EscapeConcat([raw[0]], raw[1..]);
      assert raw == [raw[0]] + raw[1..];
    }
  }

  /** Section 3.3.11: the escapes of a TEXT value read back, None where one is unknown or missing. */
  function Unescape(v: string): (r: Option<string>) {
    if v == "" then Some("")
    else if v[0] == '\\' then
      if |v| < 2 || v[1] !in "\\;,nN" then None
      else
        match Unescape(v[2..])
        case None => None
        case Some(rest) => Some([if v[1] == 'n' || v[1] == 'N' then '\n' else v[1]] + rest)
    else if v[0] in ";,\n" then None
    else
      match Unescape(v[1..])
      case None => None
      case Some(rest) => Some([v[0]] + rest)
  }

  lemma UnescapeEscape(c: char, rest: string)
    requires c in "\\;,"
    ensures Unescape(['\\', c] + rest) == (match Unescape(rest) case None => None case Some(r) => Some([c] + r))
  {
    assert (['\\', c] + rest)[2..] == rest;
  }

  lemma UnescapeNewline(rest: string)
    ensures Unescape("\\n" + rest) == (match Unescape(rest) case None => None case Some(r) => Some("\n" + r))
  {
    assert ("\\n" + rest)[2..] == rest;
  }

  lemma UnescapePlain(c: char, rest: string)
    requires c !in "\\;,\n"
    ensures Unescape([c] + rest) == (match Unescape(rest) case None => None case Some(r) => Some([c] + r))
  {
    assert ([c] + rest)[1..] == rest;
  }

  lemma {:induction false} UnescapeEscaped(raw: string)
    ensures Unescape(Escaped(raw)) == Some(raw)
  {
    if raw != "" {
      hide Unescape;
      UnescapeEscaped(raw[1..]);
      var rest := Escaped(raw[1..]);
      if raw[0] in "\\;," {
        UnescapeEscape(raw[0], rest);
      } else if raw[0] == '\n' {
        UnescapeNewline(rest);
      } else {
        UnescapePlain(raw[0], rest);
      }
      assert raw == [raw[0]] + raw[1..];
    } else {
      UnescapeNothing();
    }
  }

  lemma UnescapeNothing()
    ensures Unescape("") == Some("")
  {
  }

  /** ESCAPING IS INVERTIBLE. */
  lemma EscapeReadsBack(raw: string)
    ensures Unescape(IcsEscape(raw)) == Some(raw)
  {
    ChainIsOnePass(raw);
    UnescapeEscaped(raw);
    hide IcsEscape;
  }

  lemma {:induction false} EscapedHasNoNewline(raw: string)
    ensures '\n' !in Escaped(raw)
  {
    if raw != "" {
      EscapedHasNoNewline(raw[1..]);
    }
  }

  /** CONTROL of section 3.1: all but the horizontal tab. */
  predicate Control(c: char) {
    (c < ' ' && c != '\t') || c == '\U{7F}'
  }

  /** The TEXT grammar of section 3.3.11: safe characters, colons, quotes and the five escapes. */
  predicate IsText(v: string) {
    v == ""
    || (if v[0] == '\\' then |v| >= 2 && v[1] in "\\;,nN" && IsText(v[2..])
        else v[0] !in ";," && !Control(v[0]) && IsText(v[1..]))
  }

  /** No control character but line feeds, which are escaped. */
  ghost predicate Nameable(raw: string) {
    forall i :: 0 <= i < |raw| && Control(raw[i]) ==> raw[i] == '\n'
  }

  lemma TextStep(c: char, rest: string)
    ensures IsText(EscapeChar(c) + rest) <==> (Control(c) ==> c == '\n') && IsText(rest)
  {
    var e := EscapeChar(c);
    assert (e + rest)[|e|..] == rest && (e + rest)[0] == e[0] && (|e| == 2 ==> (e + rest)[1] == e[1]);
  }

  lemma {:induction false} EscapedIsTextIff(raw: string)
    ensures IsText(Escaped(raw)) <==> Nameable(raw)
  {
    if raw != "" {
      hide IsText, EscapeChar, Control;
      TextStep(raw[0], Escaped(raw[1..]));
      EscapedIsTextIff(raw[1..]);
      assert raw == [raw[0]] + raw[1..];
    } else {
      assert IsText("");
    }
  }

  /** WHEN IT IS A TEXT VALUE: what the escaping writes is in the grammar if and only if the name holds no
      control character but line feeds and tabs; a carriage return goes through as it is. */
  lemma EscapeIsTextIff(raw: string)
    ensures IsText(IcsEscape(raw)) <==> Nameable(raw)
  {
    ChainIsOnePass(raw);
    EscapedIsTextIff(raw);
    hide IcsEscape, IsText;
  }

  // ── octets ──

  function Utf8Len(c: char): (n: nat)
    ensures 1 <= n <= 4
  {
    if c < '\U{80}' then 1 else if c < '\U{800}' then 2 else if c < '\U{10000}' then 3 else 4
  }

  /** `line.len()`. */
  function Octets(s: string): (n: nat)
    ensures |s| <= n <= 4 * |s|
  {
    if s == "" then 0 else Utf8Len(s[0]) + Octets(s[1..])
  }

  ghost predicate Ascii(s: string) {
    forall i :: 0 <= i < |s| ==> s[i] < '\U{80}'
  }

  lemma {:induction false} AsciiOctets(s: string)
    requires Ascii(s)
    ensures Octets(s) == |s|
  {
    if s != "" { AsciiOctets(s[1..]); }
  }

  // ── folding ──

  /** `join`. */
  function Join(sep: string, parts: seq<string>): (s: string) {
    if parts == [] then ""
    else if |parts| == 1 then parts[0]
    else parts[0] + sep + Join(sep, parts[1..])
  }

  /** Pieces of 74 characters and a last one of 1 to 74. */
  function Wrap(s: string): (pieces: seq<string>)
    ensures pieces != [] && pieces[0] == (if |s| <= 74 then s else s[..74])
    ensures forall i :: 0 <= i < |pieces| ==> |pieces[i]| <= 74
    decreases |s|
  {
    if |s| <= 74 then [s] else [s[..74]] + Wrap(s[74..])
  }

  function Fold(line: string): (s: string) {
    if Octets(line) <= 75 then line else Join("\r\n ", Wrap(line))
  }

  /** What the loop still has to write after `count` characters of the current piece. */
  function Continued(count: nat, s: string): (r: string)
    requires count <= 74
  {
    if |s| <= 74 - count then s
    else s[..74 - count] + "\r\n " + Join("\r\n ", Wrap(s[74 - count..]))
  }

  lemma ContinueFull(s: string)
    requires s != ""
    ensures Continued(74, s) == "\r\n " + Continued(0, s)
  {
    hide Wrap;
    WrapIsContinued(s);
    assert s[..0] == "" && s[0..] == s;
  }

  lemma WrapIsContinued(s: string)
    ensures Join("\r\n ", Wrap(s)) == Continued(0, s)
  {
    if |s| > 74 {
      assert Wrap(s)[1..] == Wrap(s[74..]);
    }
  }

  lemma ContinueOne(count: nat, s: string)
    requires count < 74 && s != ""
    ensures Continued(count, s) == [s[0]] + Continued(count + 1, s[1..])
  {
    hide Wrap, Join;
    if |s| > 74 - count {
      assert s[..74 - count] == [s[0]] + s[1..][..73 - count];
      assert s[74 - count..] == s[1..][73 - count..];
    } else {
      assert s == [s[0]] + s[1..];
    }
  }

  /** The loop as written: octets decide whether to fold, characters where. */
  method IcsFold(line: string) returns (out: string)
    ensures out == Fold(line)
  {
    hide Wrap, Join, Continued, Octets;
    if Octets(line) <= 75 { return line; }
    out := "";
    var count := 0;
    WrapIsContinued(line);
    assert line[0..] == line;
    for i := 0 to |line|
      invariant count <= 74
      invariant out + Continued(count, line[i..]) == Join("\r\n ", Wrap(line))
    {
      var rest := line[i..];
      assert rest[0] == line[i] && rest[1..] == line[i + 1..];
      if count >= 74 {
        ContinueFull(rest);
        out := out + "\r\n ";
        count := 0;
        assert out + Continued(0, rest) == Join("\r\n ", Wrap(line));
      }
      ContinueOne(count, rest);
      out := out + [line[i]];
      count := count + 1;
    }
    ContinueNothing(count);
    assert line[|line|..] == "";
  }

  lemma ContinueNothing(count: nat)
    requires count <= 74
    ensures Continued(count, "") == ""
  {
  }

  // ── the calendar ──

  datatype Printer = Printer(stamp: int -> string)

  /** `%Y%m%dT%H%M%SZ` writes only these characters. */
  predicate StampText(s: string) {
    forall i :: 0 <= i < |s| ==> '0' <= s[i] <= '9' || s[i] in "TZ+-"
  }

  ghost predicate Stamps(p: Printer) {
    forall t :: StampText(p.stamp(t))
  }

  function UidText(eventId: Uuid, slot: Option<Uuid>): (s: string) {
    if slot.Some? then "event-" + UuidText(eventId) + "-slot-" + UuidText(slot.value) + "@event.module"
    else "event-" + UuidText(eventId) + "@event.module"
  }

  const HEAD: seq<string> :=
    ["BEGIN:VCALENDAR", "VERSION:2.0", "PRODID:-//backbone-events//core//EN", "CALSCALE:GREGORIAN", "BEGIN:VEVENT"]

  const TAIL: seq<string> := ["END:VEVENT", "END:VCALENDAR"]

  function UidLine(e: Event, slot: Option<SlotWindow>): (s: string) {
    "UID:" + UidText(e.id, if slot.Some? then Some(slot.value.slotId) else None)
  }

  function SummaryLine(e: Event): (s: string) {
    "SUMMARY:" + IcsEscape(e.name)
  }

  function LogicalLines(e: Event, slot: Option<SlotWindow>, now: int, p: Printer): (ls: seq<string>)
    ensures |ls| == 12
  {
    var (begin, end) := if slot.Some? then (slot.value.begin, slot.value.end) else (e.begin, e.end);
    HEAD
    + [UidLine(e, slot), "DTSTAMP:" + p.stamp(now), "DTSTART:" + p.stamp(begin), "DTEND:" + p.stamp(end),
        SummaryLine(e)]
    + TAIL
  }

  function Folds(ls: seq<string>): (r: seq<string>)
    ensures |r| == |ls|
  {
    if ls == [] then [] else [Fold(ls[0])] + Folds(ls[1..])
  }

  function BuildIcs(e: Event, slot: Option<SlotWindow>, now: int, p: Printer): (body: string) {
    Join(CRLF, Folds(LogicalLines(e, slot, now, p)))
  }

  // ── the reader ──

  predicate StartsCrlf(s: string) {
    |s| >= 2 && s[0] == '\r' && s[1] == '\n'
  }

  /** Section 3.1: a CRLF and the one white space after it are removed together. */
  function Unfold(s: string): (r: string)
    decreases |s|
  {
    if s == "" then ""
    else if StartsCrlf(s) && |s| >= 3 && (s[2] == ' ' || s[2] == '\t') then Unfold(s[3..])
    else [s[0]] + Unfold(s[1..])
  }

  /** The pieces between CRLFs. */
  function Lines(s: string): (ls: seq<string>)
    ensures ls != []
    decreases |s|
  {
    if s == "" then [""]
    else if StartsCrlf(s) then [""] + Lines(s[2..])
    else
      var rest := Lines(s[1..]);
      [[s[0]] + rest[0]] + rest[1..]
  }

  function Parse(body: string): (ls: seq<string>) {
    Lines(Unfold(body))
  }

  // ── reading back ──

  /** What may follow a piece of a line: nothing, or a CRLF. */
  predicate AtBreak(s: string) {
    s == "" || StartsCrlf(s)
  }

  lemma {:induction false} LinesOfPiece(p: string, rest: string)
    requires '\n' !in p && AtBreak(rest)
    ensures Lines(p + rest) == if rest == "" then [p] else [p] + Lines(rest[2..])
    decreases |p|
  {
    if p != "" {
      assert (p + rest)[1..] == p[1..] + rest;
      LinesOfPiece(p[1..], rest);
      assert !StartsCrlf(p + rest);
      assert p == [p[0]] + p[1..];
    } else {
      assert p + rest == rest;
    }
  }

  ghost predicate NoNewlines(parts: seq<string>) {
    forall i :: 0 <= i < |parts| ==> '\n' !in parts[i]
  }

  /** Splitting at CRLF undoes joining with CRLF when no part holds a newline. */
  lemma {:induction false} LinesOfJoin(parts: seq<string>)
    requires parts != [] && NoNewlines(parts)
    ensures Lines(Join(CRLF, parts)) == parts
  {
    hide Lines;
    if |parts| == 1 {
      LinesOfPiece(parts[0], "");
      assert parts[0] + "" == parts[0];
    } else {
      var tail := Join(CRLF, parts[1..]);
      LinesOfJoin(parts[1..]);
      LinesOfPiece(parts[0], CRLF + tail);
      assert (CRLF + tail)[2..] == tail;
      assert parts[0] + CRLF + tail == parts[0] + (CRLF + tail);
      assert parts == [parts[0]] + parts[1..];
    }
  }

  lemma {:induction false} UnfoldPiece(p: string, rest: string)
    requires '\n' !in p && AtBreak(rest)
    ensures Unfold(p + rest) == p + Unfold(rest)
    decreases |p|
  {
    if p != "" {
      assert (p + rest)[1..] == p[1..] + rest;
      UnfoldPiece(p[1..], rest);
      assert !StartsCrlf(p + rest);
    } else {
      assert p + rest == rest;
    }
  }

  lemma UnfoldContinuation(s: string)
    ensures Unfold("\r\n " + s) == Unfold(s)
  {
    assert ("\r\n " + s)[3..] == s;
  }

  predicate StartsWhite(s: string) {
    s != "" && (s[0] == ' ' || s[0] == '\t')
  }

  lemma UnfoldBreak(s: string)
    requires !StartsWhite(s)
    ensures Unfold(CRLF + s) == CRLF + Unfold(s)
  {
    var t := CRLF + s;
    assert t[1..] == "\n" + s && ("\n" + s)[1..] == s;
  }

  lemma WrapMore(s: string)
    requires |s| > 74
    ensures Join("\r\n ", Wrap(s)) == s[..74] + "\r\n " + Join("\r\n ", Wrap(s[74..]))
  {
    assert Wrap(s)[1..] == Wrap(s[74..]);
  }

  lemma {:induction false} UnfoldWrapped(s: string, rest: string)
    requires '\n' !in s && AtBreak(rest)
    ensures Unfold(Join("\r\n ", Wrap(s)) + rest) == s + Unfold(rest)
    decreases |s|
  {
    hide Unfold;
    if |s| <= 74 {
      UnfoldPiece(s, rest);
    } else {
      hide Join, Wrap;
      var tail := Join("\r\n ", Wrap(s[74..])) + rest;
      WrapMore(s);
      assert Join("\r\n ", Wrap(s)) + rest == s[..74] + ("\r\n " + tail);
      UnfoldPiece(s[..74], "\r\n " + tail);
      UnfoldContinuation(tail);
      UnfoldWrapped(s[74..], rest);
      assert s == s[..74] + s[74..];
    }
  }

  lemma UnfoldFold(line: string, rest: string)
    requires '\n' !in line && AtBreak(rest)
    ensures Unfold(Fold(line) + rest) == line + Unfold(rest)
  {
    hide Unfold, Octets;
    UnfoldPiece(line, rest);
    UnfoldWrapped(line, rest);
  }

  /** Lines that survive: no newline inside, no white space up front. */
  ghost predicate Plain(ls: seq<string>) {
    NoNewlines(ls) && forall i :: 0 <= i < |ls| ==> !StartsWhite(ls[i])
  }

  lemma FoldStarts(line: string)
    requires !StartsWhite(line)
    ensures !StartsWhite(Fold(line))
  {
    var w := Wrap(line);
    assert Join("\r\n ", w) == w[0] || Join("\r\n ", w) == w[0] + "\r\n " + Join("\r\n ", w[1..]);
  }

  lemma JoinStarts(parts: seq<string>)
    requires parts != [] && !StartsWhite(parts[0])
    ensures !StartsWhite(Join(CRLF, parts))
  {
  }

  lemma {:induction false} UnfoldJoined(ls: seq<string>)
    requires ls != [] && Plain(ls)
    ensures Unfold(Join(CRLF, Folds(ls))) == Join(CRLF, ls)
  {
    hide Unfold, Fold, StartsWhite;
    var fs := Folds(ls);
    if |ls| == 1 {
      UnfoldFold(ls[0], "");
      assert Fold(ls[0]) + "" == Fold(ls[0]) && ls[0] + "" == ls[0];
      UnfoldNothing();
    } else {
      var tail := Join(CRLF, fs[1..]);
      assert fs[1..] == Folds(ls[1..]);
      UnfoldJoined(ls[1..]);
      UnfoldFold(ls[0], CRLF + tail);
      FoldStarts(ls[1]);
      JoinStarts(fs[1..]);
      UnfoldBreak(tail);
      assert Join(CRLF, fs) == fs[0] + CRLF + tail == fs[0] + (CRLF + tail);
      assert Join(CRLF, ls) == ls[0] + CRLF + Join(CRLF, ls[1..]) == ls[0] + (CRLF + Join(CRLF, ls[1..]));
    }
  }

  lemma UnfoldNothing()
    ensures Unfold("") == ""
  {
  }

  // ── the twelve lines ──

  /** Printable ASCII and no control character. */
  ghost predicate Printable(s: string) {
    forall i :: 0 <= i < |s| ==> ' ' <= s[i] < '\U{80}'
  }

  lemma PrintableConcat(a: string, b: string)
    requires Printable(a) && Printable(b)
    ensures Printable(a + b)
  {
  }

  lemma {:induction false} HexIsPrintable(n: nat, width: nat)
    ensures Printable(Hex(n, width))
  {
    if width > 0 {
      HexIsPrintable(n / 16, width - 1);
      var digits := "0123456789abcdef";
      assert forall d :: 0 <= d < 16 ==> ' ' <= digits[d] < '\U{80}';
    }
  }

  lemma UuidIsPrintable(u: Uuid)
    ensures Printable(UuidText(u))
  {
    HexIsPrintable(u, 32);
    hide Hex;
  }

  lemma LiteralsArePrintable()
    ensures Printable("UID:") && Printable("event-") && Printable("-slot-") && Printable("@event.module")
    ensures Printable("DTSTAMP:") && Printable("DTSTART:") && Printable("DTEND:") && Printable("SUMMARY:")
  {
  }

  lemma HeadAndTailArePrintable()
    ensures forall i :: 0 <= i < |HEAD| ==> Printable(HEAD[i])
    ensures forall i :: 0 <= i < |TAIL| ==> Printable(TAIL[i])
  {
  }

  lemma UidIsPrintable(eventId: Uuid, slot: Option<Uuid>)
    ensures Printable("UID:" + UidText(eventId, slot))
  {
    hide Printable, UuidText;
    LiteralsArePrintable();
    UuidIsPrintable(eventId);
    var a := "event-" + UuidText(eventId);
    PrintableConcat("event-", UuidText(eventId));
    if slot.Some? {
      UuidIsPrintable(slot.value);
      PrintableConcat(a, "-slot-");
      PrintableConcat(a + "-slot-", UuidText(slot.value));
      PrintableConcat(a + "-slot-" + UuidText(slot.value), "@event.module");
    } else {
      PrintableConcat(a, "@event.module");
    }
    PrintableConcat("UID:", UidText(eventId, slot));
  }

  lemma StampIsPrintable(p: Printer, name: string, t: int)
    requires Stamps(p) && Printable(name)
    ensures Printable(name + p.stamp(t))
  {
    assert StampText(p.stamp(t));
  }

  lemma SummaryHasNoNewline(name: string)
    ensures '\n' !in "SUMMARY:" + IcsEscape(name)
  {
    ChainIsOnePass(name);
    EscapedHasNoNewline(name);
    hide IcsEscape;
  }

  /** Every line but the summary is printable ASCII. */
  lemma LinesArePrintable(e: Event, slot: Option<SlotWindow>, now: int, p: Printer)
    requires Stamps(p)
    ensures var ls := LogicalLines(e, slot, now, p);
            ls[9] == SummaryLine(e) && forall i :: 0 <= i < 12 && i != 9 ==> Printable(ls[i])
  {
    hide UidText, Stamps, SummaryLine, Printable;
    LiteralsArePrintable();
    var (begin, end) := if slot.Some? then (slot.value.begin, slot.value.end) else (e.begin, e.end);
    UidIsPrintable(e.id, if slot.Some? then Some(slot.value.slotId) else None);
    StampIsPrintable(p, "DTSTAMP:", now);
    StampIsPrintable(p, "DTSTART:", begin);
    StampIsPrintable(p, "DTEND:", end);
    HeadAndTailArePrintable();
    assert |HEAD| == 5 && |TAIL| == 2;
    hide HEAD, TAIL;
  }

  lemma LinesArePlain(e: Event, slot: Option<SlotWindow>, now: int, p: Printer)
    requires Stamps(p)
    ensures Plain(LogicalLines(e, slot, now, p))
  {
    LinesArePrintable(e, slot, now, p);
    SummaryHasNoNewline(e.name);
    var ls := LogicalLines(e, slot, now, p);
    LinesStartWithALetter(e, slot, now, p);
    assert '\n' !in ls[9];
    hide LogicalLines, SummaryLine;
    forall i | 0 <= i < 12 ensures '\n' !in ls[i] {
      assert i != 9 ==> Printable(ls[i]);
    }
  }

  lemma LinesStartWithALetter(e: Event, slot: Option<SlotWindow>, now: int, p: Printer)
    ensures forall i :: 0 <= i < 12 ==> !StartsWhite(LogicalLines(e, slot, now, p)[i])
  {
    hide UidText, IcsEscape;
    HeadAndTailStart();
    assert !StartsWhite(UidLine(e, slot)) && !StartsWhite(SummaryLine(e));
    assert |HEAD| == 5 && |TAIL| == 2;
    hide HEAD, TAIL, UidLine, SummaryLine;
  }

  lemma HeadAndTailStart()
    ensures forall i :: 0 <= i < |HEAD| ==> !StartsWhite(HEAD[i])
    ensures forall i :: 0 <= i < |TAIL| ==> !StartsWhite(TAIL[i])
  {
  }

  lemma SummaryReadsBack(e: Event)
    ensures SummaryLine(e)[..8] == "SUMMARY:" && Unescape(SummaryLine(e)[8..]) == Some(e.name)
  {
    EscapeReadsBack(e.name);
    hide IcsEscape, Unescape;
    assert SummaryLine(e)[8..] == IcsEscape(e.name);
  }

  /** The SUMMARY line of a calendar read back to the name it carries. */
  ghost predicate Names(ls: seq<string>, name: string) {
    |ls| == 12 && |ls[9]| >= 8 && ls[9][..8] == "SUMMARY:" && Unescape(ls[9][8..]) == Some(name)
  }

  /**
   PRINT AND PARSE. For every event name and window, the reader recovers the twelve logical
   lines of the body, and unescaping the SUMMARY value gives back the exact name.
   */
  lemma IcsReadsBack(e: Event, slot: Option<SlotWindow>, now: int, p: Printer)
    requires Stamps(p)
    ensures Parse(BuildIcs(e, slot, now, p)) == LogicalLines(e, slot, now, p)
    ensures Names(Parse(BuildIcs(e, slot, now, p)), e.name)
  {
    LinesArePlain(e, slot, now, p);
    LinesArePrintable(e, slot, now, p);
    SummaryReadsBack(e);
    var ls := LogicalLines(e, slot, now, p);
    hide LogicalLines, SummaryLine, Unescape, Unfold, Printable;
    UnfoldJoined(ls);
    LinesOfJoin(ls);
  }

  /** A calendar of one event: its id and slot, its name and its hours, and when it was printed. */
  ghost predicate Calendar(ls: seq<string>, eventId: Uuid, slot: Option<Uuid>, name: string, begin: int, end: int,
                           now: int, p: Printer) {
    && |ls| == 12
    && ls[0] == "BEGIN:VCALENDAR" && ls[1] == "VERSION:2.0" && ls[2] == "PRODID:-//backbone-events//core//EN"
    && ls[3] == "CALSCALE:GREGORIAN" && ls[4] == "BEGIN:VEVENT"
    && (slot == None ==> ls[5] == "UID:event-" + UuidText(eventId) + "@event.module")
    && (slot.Some? ==> ls[5] == "UID:event-" + UuidText(eventId) + "-slot-" + UuidText(slot.value) + "@event.module")
    && ls[6] == "DTSTAMP:" + p.stamp(now)
    && ls[7] == "DTSTART:" + p.stamp(begin)
    && ls[8] == "DTEND:" + p.stamp(end)
    && Names(ls, name)
    && ls[10] == "END:VEVENT" && ls[11] == "END:VCALENDAR"
  }

  /** WHAT THE BODY SAYS, LINE BY LINE: it starts at the slot's beginning and ends at the slot's end if there is a
      slot, at the event's otherwise. */
  lemma BodyReadsAs(e: Event, slot: Option<SlotWindow>, now: int, p: Printer)
    requires Stamps(p)
    ensures var ls := Parse(BuildIcs(e, slot, now, p));
            match slot
            case Some(w) => Calendar(ls, e.id, Some(w.slotId), e.name, w.begin, w.end, now, p)
            case None => Calendar(ls, e.id, None, e.name, e.begin, e.end, now, p)
  {
    IcsReadsBack(e, slot, now, p);
    FixedLines(e, slot, now, p);
    UidIs(e, slot);
    hide Parse, BuildIcs, Names, UidLine, UuidText, LogicalLines, Stamps;
  }

  lemma UidIs(e: Event, slot: Option<SlotWindow>)
    ensures slot == None ==> UidLine(e, slot) == "UID:event-" + UuidText(e.id) + "@event.module"
    ensures slot.Some? ==>
              UidLine(e, slot) == "UID:event-" + UuidText(e.id) + "-slot-" + UuidText(slot.value.slotId)
                  + "@event.module"
  {
    hide UuidText;
    var id := UuidText(e.id);
    assert "UID:" + ("event-" + id + "@event.module") == "UID:event-" + id + "@event.module";
    if slot.Some? {
      var at := UuidText(slot.value.slotId);
      assert "UID:" + ("event-" + id + "-slot-" + at + "@event.module")
          == "UID:event-" + id + "-slot-" + at + "@event.module";
    }
  }

  lemma FixedLines(e: Event, slot: Option<SlotWindow>, now: int, p: Printer)
    ensures var ls := LogicalLines(e, slot, now, p);
            && ls[0] == "BEGIN:VCALENDAR" && ls[1] == "VERSION:2.0" && ls[2] == "PRODID:-//backbone-events//core//EN"
            && ls[3] == "CALSCALE:GREGORIAN" && ls[4] == "BEGIN:VEVENT" && ls[5] == UidLine(e, slot)
            && ls[6] == "DTSTAMP:" + p.stamp(now)
            && ls[7] == "DTSTART:" + p.stamp(if slot.Some? then slot.value.begin else e.begin)
            && ls[8] == "DTEND:" + p.stamp(if slot.Some? then slot.value.end else e.end)
            && ls[10] == "END:VEVENT" && ls[11] == "END:VCALENDAR"
  {
    hide UidLine, SummaryLine;
    var mid := LogicalLines(e, slot, now, p)[5..10];
    assert |HEAD| == 5 && |TAIL| == 2;
    assert LogicalLines(e, slot, now, p) == HEAD + mid + TAIL;
  }

  /** Bodies that agree name the event alike. */
  lemma BodyDeterminesName(e: Event, s: Option<SlotWindow>, f: Event, t: Option<SlotWindow>, now: int, later: int,
                           p: Printer)
    requires Stamps(p) && BuildIcs(e, s, now, p) == BuildIcs(f, t, later, p)
    ensures e.name == f.name && UidLine(e, s) == UidLine(f, t)
  {
    IcsReadsBack(e, s, now, p);
    IcsReadsBack(f, t, later, p);
    assert |HEAD| == 5;
    hide HEAD, TAIL, Parse, BuildIcs, Unescape, UidLine, SummaryLine;
    assert LogicalLines(e, s, now, p)[5] == UidLine(e, s) && LogicalLines(f, t, later, p)[5] == UidLine(f, t);
  }

  // ── physical lines ──

  function Indent(pieces: seq<string>): (r: seq<string>)
    ensures |r| == |pieces| && forall i :: 0 <= i < |r| ==> r[i] == " " + pieces[i]
  {
    if pieces == [] then [] else [" " + pieces[0]] + Indent(pieces[1..])
  }

  /** The physical lines one logical line is written as. */
  function Chunks(line: string): (r: seq<string>)
    ensures r != []
  {
    if Octets(line) <= 75 then [line] else [Wrap(line)[0]] + Indent(Wrap(line)[1..])
  }

  function AllChunks(ls: seq<string>): (r: seq<string>)
    ensures ls != [] ==> r != []
  {
    if ls == [] then [] else Chunks(ls[0]) + AllChunks(ls[1..])
  }

  lemma {:induction false} JoinIndented(first: string, pieces: seq<string>)
    ensures Join("\r\n ", [first] + pieces) == Join(CRLF, [first] + Indent(pieces))
    decreases |pieces|
  {
    if pieces != [] {
      JoinIndented(pieces[0], pieces[1..]);
      var a, b := [first] + pieces, [first] + Indent(pieces);
      assert a[1..] == pieces && b[1..] == Indent(pieces);
      assert pieces == [pieces[0]] + pieces[1..];
      JoinPrefixed(" ", pieces[0], Indent(pieces[1..]));
    }
  }

  lemma JoinPrefixed(prefix: string, first: string, rest: seq<string>)
    ensures Join(CRLF, [prefix + first] + rest) == prefix + Join(CRLF, [first] + rest)
  {
    var a, b := [prefix + first] + rest, [first] + rest;
    assert a[1..] == rest && b[1..] == rest;
    if rest != [] {
      assert prefix + first + CRLF + Join(CRLF, rest) == prefix + (first + CRLF + Join(CRLF, rest));
    }
  }

  lemma FoldJoinsChunks(line: string)
    ensures Fold(line) == Join(CRLF, Chunks(line))
  {
    var w := Wrap(line);
    assert w == [w[0]] + w[1..];
    JoinIndented(w[0], w[1..]);
    hide Octets, Wrap, Indent;
  }

  lemma {:induction false} JoinConcat(a: seq<string>, b: seq<string>)
    requires a != [] && b != []
    ensures Join(CRLF, a + b) == Join(CRLF, a) + CRLF + Join(CRLF, b)
    decreases |a|
  {
    assert (a + b)[1..] == a[1..] + b;
    if |a| > 1 {
      JoinConcat(a[1..], b);
      assert a[0] + CRLF + (Join(CRLF, a[1..]) + CRLF + Join(CRLF, b))
          == a[0] + CRLF + Join(CRLF, a[1..]) + CRLF + Join(CRLF, b);
    } else {
      assert a[1..] + b == b;
    }
  }

  lemma {:induction false} FoldsJoinAllChunks(ls: seq<string>)
    requires ls != []
    ensures Join(CRLF, Folds(ls)) == Join(CRLF, AllChunks(ls))
  {
    hide Fold, Chunks;
    FoldJoinsChunks(ls[0]);
    if |ls| > 1 {
      FoldsJoinAllChunks(ls[1..]);
      JoinConcat(Chunks(ls[0]), AllChunks(ls[1..]));
      assert Folds(ls)[1..] == Folds(ls[1..]);
    } else {
      assert AllChunks(ls[1..]) == [] && Folds(ls[1..]) == [];
      assert Chunks(ls[0]) + [] == Chunks(ls[0]);
    }
  }

  lemma {:induction false} WrapHasNoNewlines(s: string)
    requires '\n' !in s
    ensures NoNewlines(Wrap(s))
    decreases |s|
  {
    if |s| > 74 { WrapHasNoNewlines(s[74..]); }
  }

  lemma ChunksHaveNoNewlines(line: string)
    requires '\n' !in line
    ensures NoNewlines(Chunks(line))
  {
    hide Octets;
    WrapHasNoNewlines(line);
  }

  lemma {:induction false} AllChunksHaveNoNewlines(ls: seq<string>)
    requires NoNewlines(ls)
    ensures NoNewlines(AllChunks(ls))
  {
    if ls != [] {
      hide Chunks;
      ChunksHaveNoNewlines(ls[0]);
      AllChunksHaveNoNewlines(ls[1..]);
    }
  }

  /** How the body breaks into physical lines: the chunks, line by line. */
  lemma PhysicalLines(ls: seq<string>)
    requires ls != [] && NoNewlines(ls)
    ensures Lines(Join(CRLF, Folds(ls))) == AllChunks(ls)
  {
    FoldsJoinAllChunks(ls);
    AllChunksHaveNoNewlines(ls);
    LinesOfJoin(AllChunks(ls));
  }

  lemma ChunkIsShort(line: string, i: nat)
    requires i < |Chunks(line)|
    ensures |Chunks(line)[i]| <= 75
  {
    hide Octets;
  }

  lemma {:induction false} InAllChunks(ls: seq<string>, x: string)
    ensures x in AllChunks(ls) <==> exists i :: 0 <= i < |ls| && x in Chunks(ls[i])
  {
    if ls != [] {
      hide Chunks;
      InAllChunks(ls[1..], x);
      assert forall i :: 0 <= i < |ls[1..]| ==> ls[1..][i] == ls[i + 1];
      if i :| 0 <= i < |ls| && x in Chunks(ls[i]) {
        if i > 0 { assert ls[1..][i - 1] == ls[i]; }
      }
    }
  }

  /** EVERY PHYSICAL LINE has at most 75 characters. */
  lemma PhysicalLinesAreShort(e: Event, slot: Option<SlotWindow>, now: int, p: Printer, i: nat)
    requires Stamps(p) && i < |Lines(BuildIcs(e, slot, now, p))|
    ensures |Lines(BuildIcs(e, slot, now, p))[i]| <= 75
  {
    LinesArePlain(e, slot, now, p);
    var ls := LogicalLines(e, slot, now, p);
    hide LogicalLines, Plain;
    PhysicalLines(ls);
    hide Lines, Folds, AllChunks;
    AllChunksAreShort(ls, AllChunks(ls)[i]);
  }

  lemma AllChunksAreShort(ls: seq<string>, x: string)
    requires x in AllChunks(ls)
    ensures |x| <= 75
  {
    hide Chunks, AllChunks;
    InAllChunks(ls, x);
    var k :| 0 <= k < |ls| && x in Chunks(ls[k]);
    var j :| 0 <= j < |Chunks(ls[k])| && Chunks(ls[k])[j] == x;
    ChunkIsShort(ls[k], j);
  }

  // ── octets per physical line ──

  /** No physical line over 75 octets. */
  ghost predicate Light(physical: seq<string>) {
    forall x :: x in physical ==> Octets(x) <= 75
  }

  /** Whole at 75 octets or fewer; else every stretch of 74 characters is light enough for
      its physical line, the first for 75 octets and the indented others for 74. */
  ghost predicate Fits(line: string) {
    Octets(line) <= 75
    || forall k: nat :: 74 * k < |line| ==> Octets(Stretch(line, k)) <= if k == 0 then 75 else 74
  }

  function Stretch(line: string, k: nat): (s: string)
    requires 74 * k < |line|
  {
    line[74 * k..if 74 * k + 74 <= |line| then 74 * k + 74 else |line|]
  }

  lemma StretchOfRest(s: string, k: nat)
    requires k > 0 && 74 * k < |s|
    ensures 74 * (k - 1) < |s[74..]| && Stretch(s, k) == Stretch(s[74..], k - 1)
  {
    var lo, hi := 74 * k, if 74 * k + 74 <= |s| then 74 * k + 74 else |s|;
    assert 74 * (k - 1) == lo - 74;
    assert s[lo..hi] == s[74..][lo - 74..hi - 74];
  }

  lemma {:induction false} WrapIsStretches(s: string, k: nat)
    requires s != ""
    ensures k < |Wrap(s)| <==> 74 * k < |s|
    ensures k < |Wrap(s)| ==> Wrap(s)[k] == Stretch(s, k)
    decreases |s|
  {
    if |s| > 74 && k > 0 {
      WrapIsStretches(s[74..], k - 1);
      if 74 * k < |s| { StretchOfRest(s, k); }
    }
  }

  /** Past 75 octets, the k-th physical line is the k-th stretch, indented but for the first. */
  lemma ChunkIsStretch(line: string, k: nat)
    requires Octets(line) > 75
    ensures k < |Chunks(line)| <==> 74 * k < |line|
    ensures k < |Chunks(line)| ==> Octets(Chunks(line)[k]) == Octets(Stretch(line, k)) + if k == 0 then 0 else 1
  {
    WrapIsStretches(line, k);
    var w := Wrap(line);
    hide Wrap, Stretch;
    assert k < |w| <==> 74 * k < |line|;
    if 0 < k < |w| {
      assert Chunks(line)[k] == Indent(w[1..])[k - 1] == " " + w[k];
      assert (" " + w[k])[1..] == w[k];
    }
  }

  lemma ChunksFit(line: string)
    ensures Light(Chunks(line)) <==> Fits(line)
  {
    var c := Chunks(line);
    if Octets(line) <= 75 {
      hide Octets;
    } else {
      hide Octets, Chunks, Stretch;
      forall k: nat
        ensures k < |c| <==> 74 * k < |line|
        ensures k < |c| ==> Octets(c[k]) == Octets(Stretch(line, k)) + if k == 0 then 0 else 1
      {
        ChunkIsStretch(line, k);
      }
      assert (forall x :: x in c ==> Octets(x) <= 75) <==> forall k: nat :: k < |c| ==> Octets(c[k]) <= 75;
    }
  }

  lemma PrintableIsAscii(s: string)
    requires Printable(s)
    ensures Ascii(s)
  {
  }

  lemma AsciiFits(line: string)
    requires Ascii(line)
    ensures Fits(line)
  {
    hide Octets;
    forall k: nat | 74 * k < |line| ensures Octets(Stretch(line, k)) <= if k == 0 then 75 else 74 {
      AsciiOctets(Stretch(line, k));
    }
  }

  /**
   THE OCTET BOUND, exactly. The service folds by characters: every physical line of the
   body keeps to the 75 octets of section 3.1 if and only if the summary line fits.
   */
  lemma OctetBoundIff(e: Event, slot: Option<SlotWindow>, now: int, p: Printer)
    requires Stamps(p)
    ensures Light(Lines(BuildIcs(e, slot, now, p))) <==> Fits(SummaryLine(e))
  {
    LinesArePlain(e, slot, now, p);
    LinesArePrintable(e, slot, now, p);
    var ls := LogicalLines(e, slot, now, p);
    assert NoNewlines(ls);
    hide LogicalLines, Fits, Octets, Printable, Plain, Ascii, NoNewlines;
    PhysicalLines(ls);
    hide Lines, Folds, AllChunks, IcsEscape, Light;
    forall i | 0 <= i < 12 && i != 9 ensures Fits(ls[i]) {
      PrintableIsAscii(ls[i]);
      AsciiFits(ls[i]);
    }
    ChunksOfAllFit(ls);
  }

  lemma {:induction false} ChunksOfAllFit(ls: seq<string>)
    ensures Light(AllChunks(ls)) <==> forall i :: 0 <= i < |ls| ==> Fits(ls[i])
  {
    hide Fits, Octets, Chunks;
    if ls != [] {
      ChunksFit(ls[0]);
      ChunksOfAllFit(ls[1..]);
      assert ls == [ls[0]] + ls[1..];
      var a, b := Chunks(ls[0]), AllChunks(ls[1..]);
      assert Light(a + b) <==> Light(a) && Light(b);
    }
  }

  lemma {:induction false} EscapedIsAscii(raw: string)
    requires Ascii(raw)
    ensures Ascii(Escaped(raw))
  {
    if raw != "" {
      EscapedIsAscii(raw[1..]);
    }
  }

  /** An ASCII name keeps the octet bound. */
  lemma AsciiNameKeepsOctets(e: Event, slot: Option<SlotWindow>, now: int, p: Printer)
    requires Stamps(p) && Ascii(e.name)
    ensures Light(Lines(BuildIcs(e, slot, now, p)))
  {
    ChainIsOnePass(e.name);
    EscapedIsAscii(e.name);
    hide IcsEscape, Fits, Octets;
    AsciiFits("SUMMARY:" + IcsEscape(e.name));
    OctetBoundIff(e, slot, now, p);
  }

  function Repeat(c: char, n: nat): (s: string)
    ensures |s| == n
  {
    if n == 0 then "" else [c] + Repeat(c, n - 1)
  }

  lemma {:induction false} RepeatOctets(n: nat)
    ensures Octets(Repeat('\U{4E2D}', n)) == 3 * n && IcsEscape(Repeat('\U{4E2D}', n)) == Repeat('\U{4E2D}', n)
  {
    ChainIsOnePass(Repeat('\U{4E2D}', n));
    hide IcsEscape;
    if n > 0 {
      RepeatOctets(n - 1);
      ChainIsOnePass(Repeat('\U{4E2D}', n - 1));
    }
  }

  lemma {:induction false} OctetsConcat(a: string, b: string)
    ensures Octets(a + b) == Octets(a) + Octets(b)
    decreases |a|
  {
    if a != "" {
      assert (a + b)[1..] == a[1..] + b;
      OctetsConcat(a[1..], b);
    } else {
      assert a + b == b;
    }
  }

  /** Thirty CJK characters make a physical line of 98 octets. */
  lemma ThirtyIdeographsOverrun(e: Event, slot: Option<SlotWindow>, now: int, p: Printer)
    requires Stamps(p) && e.name == Repeat('\U{4E2D}', 30)
    ensures !Light(Lines(BuildIcs(e, slot, now, p)))
  {
    hide Octets, IcsEscape;
    RepeatOctets(30);
    OctetsConcat("SUMMARY:", e.name);
    StretchOfShort(SummaryLine(e));
    hide SummaryLine, Lines;
    OctetBoundIff(e, slot, now, p);
  }

  lemma StretchOfShort(line: string)
    requires 0 < |line| <= 74 && Octets(line) > 75
    ensures !Fits(line)
  {
    hide Octets;
    assert Stretch(line, 0) == line;
    assert 74 * 0 < |line|;
  }
}
