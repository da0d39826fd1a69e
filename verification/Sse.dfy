/**
 * The event stream on the wire: the printer of the chat route and the client's incremental parser.
 * The framing is a subset of section 9.2 (Server-sent events) of the WHATWG HTML Living Standard.
 */
module Sse {
  import opened Text

  datatype SseEvent = SseEvent(event: string, data: string)

  /** What the route writes: an event, or a heartbeat while there is none. */
  datatype Frame = EventFrame(ev: SseEvent) | Heartbeat

  /** Whitespace in the sense of JavaScript's `trim`. */
  predicate IsJsSpace(c: char) {
    || '\t' <= c <= '\r' || c == ' '
    || c == '\U{00A0}' || c == '\U{1680}'
    || '\U{2000}' <= c <= '\U{200A}'
    || c == '\U{2028}' || c == '\U{2029}' || c == '\U{202F}' || c == '\U{205F}' || c == '\U{3000}' || c == '\U{FEFF}'
  }

  function Trim(s: string): string { StripBy(IsJsSpace, s) }

  // --- the server's printer --------------------------------------------------

  function Print(f: Frame): string {
    match f
    case EventFrame(e) => "event: " + e.event + "\ndata: " + e.data + "\n\n"
    case Heartbeat => ": ping\n\n"
  }

  function PrintAll(fs: seq<Frame>): string {
    if fs == [] then "" else Print(fs[0]) + PrintAll(fs[1..])
  }

  function EventsOf(fs: seq<Frame>): seq<SseEvent> {
    if fs == [] then [] else (if fs[0].EventFrame? then [fs[0].ev] else []) + EventsOf(fs[1..])
  }

  // --- the client's parser ---------------------------------------------------

  datatype Fields = Fields(event: Option<string>, data: string)

  function DropReturn(raw: string): string {
    if raw != "" && raw[|raw| - 1] == '\r' then raw[..|raw| - 1] else raw
  }

  function ReadLine(fields: Fields, raw: string): Fields {
    var line := DropReturn(raw);
    if ":" <= line then fields
    else if "event:" <= line then fields.(event := Some(Trim(line[6..])))
    else if "data:" <= line then fields.(data := Trim(line[5..]))
    else fields
  }

  function ReadLines(fields: Fields, lines: seq<string>): Fields {
    if lines == [] then fields else ReadLine(ReadLines(fields, lines[..|lines| - 1]), lines[|lines| - 1])
  }

  function ParseFrame(frame: string): Option<SseEvent> {
    var fields := ReadLines(Fields(None, ""), Lines(frame));
    match fields.event
    case None => None
    case Some(event) => Some(SseEvent(event, fields.data))
  }

  /** The line carries the field: it starts with the field's name and a colon. */
  predicate HasField(raw: string, field: string) { field <= DropReturn(raw) }

  function FieldValue(raw: string, field: string): string
    requires HasField(raw, field)
  {
    Trim(DropReturn(raw)[|field|..])
  }

  /** The value of the last line that carries the field. */
  function LastValue(lines: seq<string>, field: string): Option<string> {
    if lines == [] then None
    else
      var n := |lines| - 1;
      if HasField(lines[n], field) then Some(FieldValue(lines[n], field)) else LastValue(lines[..n], field)
  }

  lemma {:induction false} OneLineReads(fields: Fields, raw: string)
    ensures ReadLine(fields, raw)
         == Fields(if HasField(raw, "event:") then Some(FieldValue(raw, "event:")) else fields.event,
                   if HasField(raw, "data:") then FieldValue(raw, "data:") else fields.data)
  {
    var line := DropReturn(raw);
    assert ":" <= line ==> line[0] == ':';
    assert "event:" <= line ==> line[0] == 'e';
    assert "data:" <= line ==> line[0] == 'd';
  }

  lemma {:induction false} FieldsAreLast(lines: seq<string>)
    ensures ReadLines(Fields(None, ""), lines)
        == Fields(LastValue(lines, "event:"), LastValue(lines, "data:").GetOr(""))
  {
    if lines != [] {
      var n := |lines| - 1;
      FieldsAreLast(lines[..n]);
      OneLineReads(ReadLines(Fields(None, ""), lines[..n]), lines[n]);
    }
  }

  /**
   * Any frame gives an event exactly if some line of it names one; of several lines with the same field
   * the last counts; data is empty if there is none; comments and all other lines count for nothing.
   */
  lemma {:induction false} FrameGivesLastFields(frame: string)
    ensures var event, data := LastValue(Lines(frame), "event:"), LastValue(Lines(frame), "data:");
            ParseFrame(frame) == if event.None? then None else Some(SseEvent(event.value, data.GetOr("")))
    ensures ParseFrame(frame).Some? <==>
      exists i :: 0 <= i < |Lines(frame)| && HasField(Lines(frame)[i], "event:")
  {
    FieldsAreLast(Lines(frame));
    LastValueIff(Lines(frame), "event:");
  }

  lemma {:induction false} LastValueIff(lines: seq<string>, field: string)
    ensures LastValue(lines, field).Some? <==> exists i :: 0 <= i < |lines| && HasField(lines[i], field)
  {
    if lines != [] {
      var n := |lines| - 1;
      LastValueIff(lines[..n], field);
      assert forall i | 0 <= i < n :: lines[..n][i] == lines[i];
    }
  }

  method ParseFrameLoop(frame: string) returns (r: Option<SseEvent>)
    ensures r == ParseFrame(frame)
  {
    var event: Option<string>, data := None, "";
    var lines := Lines(frame);
    for k := 0 to |lines|
      invariant Fields(event, data) == ReadLines(Fields(None, ""), lines[..k])
    {
      assert lines[..k + 1] == lines[..k] + [lines[k]];
      ReadLinesSnoc(Fields(None, ""), lines[..k], lines[k]);
      var line := DropReturn(lines[k]);
      if ":" <= line {
        continue;
      }
      if "event:" <= line {
        event := Some(Trim(line[6..]));
      } else if "data:" <= line {
        data := Trim(line[5..]);
      }
    }
    assert lines[..|lines|] == lines;
    r := match event case None => None case Some(e) => Some(SseEvent(e, data));
  }

  /** `indexOf('\n\n')`: where the first blank line starts, or the length if there is none. */
  function BlankLine(s: string, from: nat): (i: nat)
    requires from <= |s|
    ensures from <= i <= |s|
    decreases |s| - from
  {
    if from == |s| || (from + 1 < |s| && s[from] == '\n' && s[from + 1] == '\n') then from else BlankLine(s, from + 1)
  }

  /** The complete frames at the front of the buffer. */
  function Frames(buffer: string): seq<string>
    decreases |buffer|
  {
    var sep := BlankLine(buffer, 0);
    if sep == |buffer| then [] else BlankLineFound(buffer, 0); [buffer[..sep]] + Frames(buffer[sep + 2..])
  }

  /** What stays in the buffer after the complete frames. */
  function Rest(buffer: string): string
    decreases |buffer|
  {
    var sep := BlankLine(buffer, 0);
    if sep == |buffer| then buffer else BlankLineFound(buffer, 0); Rest(buffer[sep + 2..])
  }

  lemma {:induction false} BlankLineFound(s: string, from: nat)
    requires from <= |s|
    ensures var i := BlankLine(s, from);
            && (i < |s| ==> i + 1 < |s| && s[i] == '\n' && s[i + 1] == '\n')
            && forall j | from <= j < i && j + 1 < |s| :: !(s[j] == '\n' && s[j + 1] == '\n')
    decreases |s| - from
  {
    if from < |s| { BlankLineFound(s, from + 1); }
  }

  /** The first blank line is where it is, however it is found. */
  lemma {:induction false} BlankLineIs(s: string, i: nat)
    requires i + 1 < |s| && s[i] == '\n' && s[i + 1] == '\n'
    requires forall j | 0 <= j < i :: !(s[j] == '\n' && s[j + 1] == '\n')
    ensures BlankLine(s, 0) == i
  {
    BlankLineFound(s, 0);
  }

  type Parser = string -> Option<SseEvent>

  /** What a parser of single frames makes of many; frames without an event are passed over. */
  function ParseAll(p: Parser, frames: seq<string>): seq<SseEvent> {
    if frames == [] then []
    else
      var last := p(frames[|frames| - 1]);
      ParseAll(p, frames[..|frames| - 1]) + if last.Some? then [last.value] else []
  }

  /** The events of a text, read as a whole. */
  function Events(text: string): seq<SseEvent> { ParseAll(ParseFrame, Frames(text)) }

  lemma {:induction false} ParseAllAppend(p: Parser, a: seq<string>, b: seq<string>)
    ensures ParseAll(p, a + b) == ParseAll(p, a) + ParseAll(p, b)
  {
    if b == [] {
      assert a + b == a;
    } else {
      ParseAllAppend(p, a, b[..|b| - 1]);
      assert (a + b)[..|a| + |b| - 1] == a + b[..|b| - 1];
    }
  }

  lemma {:induction false} ParseAllOne(p: Parser, frame: string, others: seq<string>)
    ensures ParseAll(p, [frame] + others) == (if p(frame).Some? then [p(frame).value] else []) + ParseAll(p, others)
  {
    ParseAllAppend(p, [frame], others);
    assert [frame] == [] + [frame] && ([] + [frame])[..|[frame]| - 1] == [];
  }

  lemma {:induction false} ReadLinesSnoc(fields: Fields, lines: seq<string>, line: string)
    ensures ReadLines(fields, lines + [line]) == ReadLine(ReadLines(fields, lines), line)
  {
    assert (lines + [line])[..|lines|] == lines;
  }

  /** More text after the buffer does not change the frames already complete. */
  lemma {:induction false} FramesOfMore(a: string, b: string)
    ensures Frames(a + b) == Frames(a) + Frames(Rest(a) + b)
    ensures Rest(a + b) == Rest(Rest(a) + b)
    decreases |a|
  {
    BlankLineFound(a, 0);
    var sep := BlankLine(a, 0);
    if sep < |a| {
      assert (a + b)[sep] == a[sep] && (a + b)[sep + 1] == a[sep + 1];
      forall j | 0 <= j < sep ensures !((a + b)[j] == '\n' && (a + b)[j + 1] == '\n') {
        assert (a + b)[j] == a[j] && (a + b)[j + 1] == a[j + 1];
      }
      BlankLineIs(a + b, sep);
      assert (a + b)[..sep] == a[..sep] && (a + b)[sep + 2..] == a[sep + 2..] + b;
      FramesOfMore(a[sep + 2..], b);
    }
  }

  /** Taking the first complete frame off the buffer. */
  lemma {:induction false} FirstFrame(p: Parser, buffer: string)
    requires BlankLine(buffer, 0) != |buffer|
    ensures var sep := BlankLine(buffer, 0);
            && sep + 1 < |buffer|
            && Rest(buffer) == Rest(buffer[sep + 2..])
            && ParseAll(p, Frames(buffer))
               == (if p(buffer[..sep]).Some? then [p(buffer[..sep]).value] else [])
                   + ParseAll(p, Frames(buffer[sep + 2..]))
  {
    BlankLineFound(buffer, 0);
    var sep := BlankLine(buffer, 0);
    ParseAllOne(p, buffer[..sep], Frames(buffer[sep + 2..]));
  }

  /** One turn of the inner loop: the events taken so far, and those still in the buffer. */
  lemma {:induction false} FrameTaken(p: Parser, events: seq<SseEvent>, buffer: string)
    requires BlankLine(buffer, 0) != |buffer|
    ensures var sep := BlankLine(buffer, 0);
            && sep + 1 < |buffer| && Rest(buffer) == Rest(buffer[sep + 2..])
            && events + ParseAll(p, Frames(buffer))
               == (if p(buffer[..sep]).Some? then events + [p(buffer[..sep]).value] else events)
                   + ParseAll(p, Frames(buffer[sep + 2..]))
  {
    FirstFrame(p, buffer);
    var sep := BlankLine(buffer, 0);
    AfterTaken(events, p(buffer[..sep]), ParseAll(p, Frames(buffer[sep + 2..])));
  }

  lemma {:induction false} AfterTaken(events: seq<SseEvent>, taken: Option<SseEvent>, others: seq<SseEvent>)
    ensures events + ((if taken.Some? then [taken.value] else []) + others)
         == (if taken.Some? then events + [taken.value] else events) + others
  {
  }

  /** One read of the buffering loop. */
  lemma {:induction false} OneRead(p: Parser, received: seq<string>, k: nat)
    requires k < |received|
    ensures var text, total := Concat(received[..k]), Concat(received[..k + 1]);
            && ParseAll(p, Frames(total)) == ParseAll(p, Frames(text)) + ParseAll(p, Frames(Rest(text) + received[k]))
            && Rest(total) == Rest(Rest(text) + received[k])
  {
    var text := Concat(received[..k]);
    ConcatSnoc(received, k);
    FramesOfMore(text, received[k]);
    ParseAllAppend(p, Frames(text), Frames(Rest(text) + received[k]));
  }

  /** The inner loop: takes the complete frames off the buffer. */
  method TakeFrames(text: string) returns (events: seq<SseEvent>, buffer: string)
    ensures events == ParseAll(ParseFrame, Frames(text)) && buffer == Rest(text)
  {
    events, buffer := [], text;
    ghost var p := ParseFrame;
    var sep := BlankLine(buffer, 0);
    while sep != |buffer|
      invariant sep == BlankLine(buffer, 0)
      invariant events + ParseAll(p, Frames(buffer)) == ParseAll(p, Frames(text)) && Rest(buffer) == Rest(text)
      decreases |buffer|
    {
      FrameTaken(p, events, buffer);
      var ev := ParseFrameLoop(buffer[..sep]);
      buffer := buffer[sep + 2..];
      if ev.Some? {
        events := events + [ev.value];
      }
      sep := BlankLine(buffer, 0);
    }
  }

  /**
   * The buffering loop. However the text is cut into reads, the events are those of the whole text.
   */
  method StreamChat(received: seq<string>) returns (events: seq<SseEvent>)
    ensures events == Events(Concat(received))
  {
    events := [];
    var buffer := "";
    for k := 0 to |received|
      invariant events == ParseAll(ParseFrame, Frames(Concat(received[..k]))) && buffer == Rest(Concat(received[..k]))
    {
      OneRead(ParseFrame, received, k);
      var more;
      more, buffer := TakeFrames(buffer + received[k]);
      events := events + more;
    }
    assert received[..|received|] == received;
  }

  lemma {:induction false} ConcatSnoc(received: seq<string>, k: nat)
    requires k < |received|
    ensures Concat(received[..k + 1]) == Concat(received[..k]) + received[k]
  {
    assert received[..k + 1] == received[..k] + [received[k]];
    ConcatAppend(received[..k], [received[k]]);
    assert Concat([received[k]]) == received[k] + "" == received[k];
  }

  // --- round trip ------------------------------------------------------------

  /** One line, without blanks at either end: what a field must be to survive the wire. */
  predicate Clean(s: string) { '\n' !in s && Trim(s) == s }

  predicate CleanFrame(f: Frame) { f.EventFrame? ==> Clean(f.ev.event) && Clean(f.ev.data) }

  predicate AllClean(fs: seq<Frame>) { forall i | 0 <= i < |fs| :: CleanFrame(fs[i]) }

  lemma {:induction false} TrimmedEnds(s: string)
    requires Trim(s) == s && s != ""
    ensures !IsJsSpace(s[0]) && !IsJsSpace(s[|s| - 1])
  {
    var lo := SkipLeading(IsJsSpace, s, 0);
    var hi := SkipTrailing(IsJsSpace, s, lo, |s|);
    assert |s[lo..hi]| == |s|;
  }

  lemma {:induction false} TrimSpace(s: string)
    requires Trim(s) == s
    ensures Trim(" " + s) == s
  {
    var t := " " + s;
    if s != "" {
      TrimmedEnds(s);
      assert t[1] == s[0] && t[|t| - 1] == s[|s| - 1];
    }
    assert SkipLeading(IsJsSpace, t, 0) == SkipLeading(IsJsSpace, t, 1);
    assert SkipLeading(IsJsSpace, t, 1) == 1;
    assert SkipTrailing(IsJsSpace, t, 1, |t|) == |t|;
  }

  /** A printed field line carries its value. */
  lemma {:induction false} FieldLine(name: string, value: string)
    requires Trim(value) == value && name != ""
    ensures DropReturn(name + " " + value) == name + " " + value
    ensures name <= name + " " + value && Trim((name + " " + value)[|name|..]) == value
  {
    var line := name + " " + value;
    assert line[|name|..] == " " + value;
    TrimSpace(value);
    if value == "" {
      assert line[|line| - 1] == ' ';
    } else {
      TrimmedEnds(value);
      assert line[|line| - 1] == value[|value| - 1];
    }
  }

  function EventLine(e: SseEvent): string { "event:" + " " + e.event }

  function DataLine(e: SseEvent): string { "data:" + " " + e.data }

  lemma {:induction false} FieldIsOneLine(name: string, value: string)
    requires '\n' !in name && '\n' !in value
    ensures '\n' !in name + " " + value
  {
  }

  lemma {:induction false} EventLineReads(e: SseEvent)
    requires Clean(e.event)
    ensures ReadLine(Fields(None, ""), EventLine(e)) == Fields(Some(e.event), "") && '\n' !in EventLine(e)
  {
    FieldLine("event:", e.event);
    FieldIsOneLine("event:", e.event);
    OneLineReads(Fields(None, ""), EventLine(e));
    assert EventLine(e)[0] == 'e';
  }

  lemma {:induction false} DataLineReads(e: SseEvent)
    requires Clean(e.data)
    ensures ReadLine(Fields(Some(e.event), ""), DataLine(e)) == Fields(Some(e.event), e.data) && '\n' !in DataLine(e)
  {
    FieldLine("data:", e.data);
    FieldIsOneLine("data:", e.data);
    OneLineReads(Fields(Some(e.event), ""), DataLine(e));
    assert DataLine(e)[0] == 'd';
  }

  function Content(f: Frame): string {
    match f
    case EventFrame(e) => EventLine(e) + "\n" + DataLine(e)
    case Heartbeat => ": ping"
  }

  lemma {:induction false} PrintIsContent(f: Frame)
    ensures Print(f) == Content(f) + "\n\n"
  {
    if f.EventFrame? {
      var e := f.ev;
      assert "event: " == "event:" + " " && "\ndata: " == "\n" + "data:" + " ";
      assert Print(f) == "event:" + " " + e.event + ("\n" + "data:" + " ") + e.data + "\n\n";
    }
  }

  /** A clean frame's text reads back as its event. */
  lemma {:induction false} ContentReadsBack(f: Frame)
    requires CleanFrame(f)
    ensures ParseFrame(Content(f)) == if f.EventFrame? then Some(f.ev) else None
  {
    match f {
      case Heartbeat =>
        LinesOf(": ping", "");
        ReadOneLine(": ping");
      case EventFrame(e) =>
        EventLineReads(e);
        DataLineReads(e);
        LinesOf(EventLine(e), DataLine(e));
        LinesOf(DataLine(e), "");
        ReadTwoLines(EventLine(e), DataLine(e));
    }
  }

  lemma {:induction false} ReadOneLine(one: string)
    ensures ReadLines(Fields(None, ""), [one]) == ReadLine(Fields(None, ""), one)
  {
    ReadLinesSnoc(Fields(None, ""), [], one);
    assert [] + [one] == [one];
  }

  lemma {:induction false} ReadTwoLines(one: string, two: string)
    ensures ReadLines(Fields(None, ""), [one] + [two]) == ReadLine(ReadLine(Fields(None, ""), one), two)
  {
    ReadOneLine(one);
    ReadLinesSnoc(Fields(None, ""), [one], two);
  }

  /** A clean frame's text has no blank line, and does not end in a newline. */
  lemma {:induction false} NoBlankLineInside(f: Frame)
    requires CleanFrame(f)
    ensures Content(f) != "" && Content(f)[|Content(f)| - 1] != '\n'
    ensures forall i | 0 <= i && i + 1 < |Content(f)| :: !(Content(f)[i] == '\n' && Content(f)[i + 1] == '\n')
  {
    if f.EventFrame? {
      EventLineReads(f.ev);
      DataLineReads(f.ev);
      var one, two, all := EventLine(f.ev), DataLine(f.ev), Content(f);
      forall i | 0 <= i < |all| ensures all[i] == '\n' <==> i == |one| {
        if i < |one| {
          assert all[i] == one[i] && one[i] in one;
        } else if i > |one| {
          assert all[i] == two[i - |one| - 1] && two[i - |one| - 1] in two;
        }
      }
    }
  }

  lemma {:induction false} FrameComesFirst(f: Frame, rest: string)
    requires CleanFrame(f)
    ensures Frames(Print(f) + rest) == [Content(f)] + Frames(rest) && Rest(Print(f) + rest) == Rest(rest)
  {
    PrintIsContent(f);
    NoBlankLineInside(f);
    BlankLineEnds(Content(f), rest);
    var text, n := Content(f) + "\n\n" + rest, |Content(f)|;
    assert text[..n] == Content(f) && text[n + 2..] == rest;
  }

  lemma {:induction false} BlankLineEnds(content: string, rest: string)
    requires content != "" && content[|content| - 1] != '\n'
    requires forall i | 0 <= i && i + 1 < |content| :: !(content[i] == '\n' && content[i + 1] == '\n')
    ensures BlankLine(content + "\n\n" + rest, 0) == |content|
  {
    var text := content + "\n\n" + rest;
    forall j | 0 <= j < |content| ensures !(text[j] == '\n' && text[j + 1] == '\n') {
      assert text[j] == content[j];
      if j + 1 < |content| { assert text[j + 1] == content[j + 1]; }
    }
    assert text[|content|] == '\n' && text[|content| + 1] == '\n';
    BlankLineIs(text, |content|);
  }

  lemma {:induction false} FramesOfPrinted(fs: seq<Frame>, rest: string)
    requires AllClean(fs)
    ensures Frames(PrintAll(fs) + rest) == Map(Content, fs) + Frames(rest)
    ensures Rest(PrintAll(fs) + rest) == Rest(rest)
  {
    if fs == [] {
      assert PrintAll(fs) + rest == rest;
    } else {
      Regroup(Print(fs[0]), PrintAll(fs[1..]), rest);
      FrameComesFirst(fs[0], PrintAll(fs[1..]) + rest);
      FramesOfPrinted(fs[1..], rest);
      Regroup([Content(fs[0])], Map(Content, fs[1..]), Frames(rest));
    }
  }

  lemma {:induction false} ContentsReadBack(fs: seq<Frame>)
    requires AllClean(fs)
    ensures ParseAll(ParseFrame, Map(Content, fs)) == EventsOf(fs)
  {
    if fs != [] {
      ContentsReadBack(fs[1..]);
      ContentReadsBack(fs[0]);
      assert Map(Content, fs) == [Content(fs[0])] + Map(Content, fs[1..]);
      ParseAllOne(ParseFrame, Content(fs[0]), Map(Content, fs[1..]));
    }
  }

  /** What is printed is what is read, heartbeats aside, in however many reads it arrives. */
  lemma {:induction false} RoundTrip(fs: seq<Frame>, received: seq<string>)
    requires AllClean(fs) && Concat(received) == PrintAll(fs)
    ensures Events(Concat(received)) == EventsOf(fs)
  {
    FramesOfPrinted(fs, "");
    ContentsReadBack(fs);
    assert PrintAll(fs) + "" == PrintAll(fs) && Frames("") == [];
    assert Map(Content, fs) + [] == Map(Content, fs);
  }

  /** On a stream that breaks off inside a frame, exactly the events before that frame are read. */
  lemma {:induction false} TruncatedRoundTrip(fs: seq<Frame>, next: Frame, part: string)
    requires AllClean(fs) && CleanFrame(next) && part <= Print(next) && part != Print(next)
    ensures Events(PrintAll(fs) + part) == EventsOf(fs)
  {
    FramesOfPrinted(fs, part);
    ContentsReadBack(fs);
    PartHasNoFrame(next, part);
    assert Map(Content, fs) + [] == Map(Content, fs);
  }

  lemma {:induction false} PartHasNoFrame(next: Frame, part: string)
    requires CleanFrame(next) && part <= Print(next) && part != Print(next)
    ensures Frames(part) == []
  {
    PrintIsContent(next);
    NoBlankLineInside(next);
    var content := Content(next);
    forall j | 0 <= j && j + 1 < |part| ensures !(part[j] == '\n' && part[j + 1] == '\n') {
      assert part[j] == Print(next)[j] && part[j + 1] == Print(next)[j + 1];
      if j + 1 < |content| {
        assert Print(next)[j] == content[j] && Print(next)[j + 1] == content[j + 1];
      } else {
        assert j + 1 == |content| && Print(next)[j] == content[j];
      }
    }
    BlankLineFound(part, 0);
  }

  // --- exactly the clean events survive --------------------------------------

  lemma {:induction false} TrimIsClean(s: string)
    requires '\n' !in s
    ensures Clean(Trim(s))
  {
    var lo := SkipLeading(IsJsSpace, s, 0);
    var hi := SkipTrailing(IsJsSpace, s, lo, |s|);
    var t := s[lo..hi];
    assert forall j | 0 <= j < |t| :: t[j] == s[lo + j];
    assert '\n' !in t;
    assert t != "" ==> t[0] == s[lo] && t[|t| - 1] == s[hi - 1];
    StripFixpoint(IsJsSpace, t);
  }

  predicate CleanFields(f: Fields) { (f.event.Some? ==> Clean(f.event.value)) && Clean(f.data) }

  lemma {:induction false} ReadLineIsClean(f: Fields, raw: string)
    requires CleanFields(f) && '\n' !in raw
    ensures CleanFields(ReadLine(f, raw))
  {
    var line := DropReturn(raw);
    assert forall j | 0 <= j < |line| :: line[j] == raw[j] && raw[j] in raw;
    if |line| >= 6 {
      assert forall j | 0 <= j < |line| - 6 :: line[6..][j] == line[j + 6];
      TrimIsClean(line[6..]);
    }
    if |line| >= 5 {
      assert forall j | 0 <= j < |line| - 5 :: line[5..][j] == line[j + 5];
      TrimIsClean(line[5..]);
    }
  }

  lemma {:induction false} ReadLinesAreClean(f: Fields, lines: seq<string>)
    requires CleanFields(f) && forall i | 0 <= i < |lines| :: '\n' !in lines[i]
    ensures CleanFields(ReadLines(f, lines))
  {
    if lines != [] {
      ReadLinesAreClean(f, lines[..|lines| - 1]);
      ReadLineIsClean(ReadLines(f, lines[..|lines| - 1]), lines[|lines| - 1]);
    }
  }

  lemma {:induction false} ParsedIsClean(frame: string)
    ensures ParseFrame(frame).Some? ==> Clean(ParseFrame(frame).value.event) && Clean(ParseFrame(frame).value.data)
  {
    LinesHaveNoNewline(frame);
    StripFixpoint(IsJsSpace, "");
    ReadLinesAreClean(Fields(None, ""), Lines(frame));
  }

  lemma {:induction false} ParsedAreClean(frames: seq<string>)
    ensures forall i | 0 <= i < |ParseAll(ParseFrame, frames)| ::
      Clean(ParseAll(ParseFrame, frames)[i].event) && Clean(ParseAll(ParseFrame, frames)[i].data)
  {
    if frames != [] {
      ParsedAreClean(frames[..|frames| - 1]);
      ParsedIsClean(frames[|frames| - 1]);
    }
  }

  /** An event survives printing and reading if and only if both its fields are one line without outer blanks. */
  lemma {:induction false} SurvivesIffClean(e: SseEvent)
    ensures Events(Print(EventFrame(e))) == [e] <==> Clean(e.event) && Clean(e.data)
  {
    var f := EventFrame(e);
    if Clean(e.event) && Clean(e.data) {
      assert PrintAll([f]) == Print(f) + PrintAll([f][1..]) == Print(f);
      assert Concat([Print(f)]) == Print(f) + "" == Print(f);
      RoundTrip([f], [Print(f)]);
      assert EventsOf([f]) == [e] + EventsOf([f][1..]) == [e];
    } else {
      var es := Events(Print(f));
      ParsedAreClean(Frames(Print(f)));
      if |es| > 0 { assert Clean(es[0].event) && Clean(es[0].data); }
    }
  }
}
