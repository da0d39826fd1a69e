/** The provider adapter: response lines in, stream events out, every failure turned into one error event. */
module LlmStream {
  import opened Text

  datatype StopReason = EndTurn | ToolUse | MaxTokens

  datatype ErrorCode = RateLimited | Auth | ContextLength | TransientError | ProviderError

  datatype StreamEvent =
    | TextDelta(text: string)
    | ToolCall
    | UsageInfo(input: int, output: int)
    | StreamStop(reason: StopReason)
    | StreamError(code: ErrorCode)
  {
    predicate Terminal() { StreamStop? || StreamError? }
  }

  /** The `usage` member of a chunk: absent, complete, or without the expected counts. */
  datatype UsageField = NoUsage | Counts(input: int, output: int) | Malformed

  /** A response line: not data, the end mark, data that is no JSON, or a chunk. */
  datatype Line =
    | NotData
    | DoneMark
    | BadJson
    | Chunk(content: string, finish: Option<StopReason>, usage: UsageField)

  /** How the response body ends after its lines. */
  datatype Ending = Closed | TransportFault | OtherFault

  datatype Response = Rejected(code: ErrorCode) | Body(lines: seq<Line>, ending: Ending)

  datatype Reading = Reading(stop: StopReason, usage: Option<StreamEvent>)

  function AfterChunk(r: Reading, line: Line): Reading
    requires line.Chunk? && line.usage != Malformed
  {
    Reading(if line.finish.Some? then line.finish.value else r.stop,
            if line.usage.Counts? then Some(UsageInfo(line.usage.input, line.usage.output)) else r.usage)
  }

  function DeltaOf(content: string): seq<StreamEvent> { if content == "" then [] else [TextDelta(content)] }

  function Closing(r: Reading): seq<StreamEvent> {
    (if r.usage.Some? then [r.usage.value] else []) + [StreamStop(r.stop)]
  }

  function EventsFrom(lines: seq<Line>, ending: Ending, r: Reading): seq<StreamEvent> {
    if lines == [] then [StreamError(if ending.OtherFault? then ProviderError else TransientError)]
    else
      match lines[0]
      case NotData => EventsFrom(lines[1..], ending, r)
      case DoneMark => Closing(r)
      case BadJson => [StreamError(ProviderError)]
      case Chunk(content, _, usage) =>
        DeltaOf(content)
        + if usage == Malformed then [StreamError(ProviderError)]
            else EventsFrom(lines[1..], ending, AfterChunk(r, lines[0]))
  }

  const FRESH := Reading(EndTurn, None)

  function ChatEvents(resp: Response): seq<StreamEvent> {
    match resp
    case Rejected(code) => [StreamError(code)]
    case Body(lines, ending) => EventsFrom(lines, ending, FRESH)
  }

  /** What one line adds, and what remains to be read. */
  lemma {:induction false} OneLine(lines: seq<Line>, k: nat, ending: Ending, r: Reading, before: seq<StreamEvent>)
    requires k < |lines|
    ensures var all := before + EventsFrom(lines[k..], ending, r);
            match lines[k]
            case NotData => all == before + EventsFrom(lines[k + 1..], ending, r)
            case DoneMark => all == before + Closing(r)
            case BadJson => all == before + [StreamError(ProviderError)]
            case Chunk(content, _, usage) =>
              if usage == Malformed then all == before + DeltaOf(content) + [StreamError(ProviderError)]
              else all == before + DeltaOf(content) + EventsFrom(lines[k + 1..], ending, AfterChunk(r, lines[k]))
  {
    var tail := lines[k..];
    assert tail != [] && tail[0] == lines[k] && tail[1..] == lines[k + 1..];
    match lines[k]
    case Chunk(content, _, usage) =>
      Regroup(before, DeltaOf(content), if usage == Malformed then [StreamError(ProviderError)]
                                        else EventsFrom(lines[k + 1..], ending, AfterChunk(r, lines[k])));
    case _ =>
  }

  /** The parsing loop: the events so far, and the reading at the end mark or the code of the failure. */
  method ReadBody(lines: seq<Line>, ending: Ending)
      returns (events: seq<StreamEvent>, r: Reading, failed: Option<ErrorCode>)
    ensures EventsFrom(lines, ending, FRESH)
         == events + match failed case None => Closing(r) case Some(code) => [StreamError(code)]
  {
    events, r, failed := [], FRESH, None;
    assert lines[0..] == lines;
    for k := 0 to |lines|
      invariant EventsFrom(lines, ending, FRESH) == events + EventsFrom(lines[k..], ending, r)
    {
      var line := lines[k];
      OneLine(lines, k, ending, r, events);
      match line {
        case NotData =>
        case DoneMark => return;
        case BadJson => return events, r, Some(ProviderError);
        case Chunk(content, _, usage) =>
          events := events + DeltaOf(content);
          if usage == Malformed {
            return events, r, Some(ProviderError);
          }
          r := AfterChunk(r, line);
      }
    }
    failed := Some(if ending.OtherFault? then ProviderError else TransientError);
  }

  /** The adapter. Exceptions of the transport and of the parsing both end in an error event. */
  method Chat(resp: Response) returns (events: seq<StreamEvent>)
    ensures events == ChatEvents(resp)
  {
    if resp.Rejected? {
      return [StreamError(resp.code)];
    }
    var r, failed;
    events, r, failed := ReadBody(resp.lines, resp.ending);
    if failed.Some? {
      return events + [StreamError(failed.value)];
    }
    if r.usage.Some? {
      events := events + [r.usage.value];
    }
    events := events + [StreamStop(r.stop)];
  }

  // --- what the events say, read off the lines -------------------------------

  /** The first line that decides the stream: the end mark, or data that cannot be used. */
  predicate Decides(line: Line) { line.DoneMark? || line.BadJson? || (line.Chunk? && line.usage == Malformed) }

  function FirstDecider(lines: seq<Line>): (d: nat)
    ensures d <= |lines| && (d < |lines| ==> Decides(lines[d])) && forall i | 0 <= i < d :: !Decides(lines[i])
  {
    if lines == [] || Decides(lines[0]) then 0 else 1 + FirstDecider(lines[1..])
  }

  /** The texts that the lines carry. */
  function TextsOf(lines: seq<Line>): seq<string> {
    if lines == [] then []
    else (if lines[0].Chunk? && lines[0].content != "" then [lines[0].content] else []) + TextsOf(lines[1..])
  }

  /** The finish reason that comes last, if there is one. */
  function LastFinish(lines: seq<Line>): Option<StopReason> {
    if lines == [] then None
    else if LastFinish(lines[1..]).Some? then LastFinish(lines[1..])
    else if lines[0].Chunk? then lines[0].finish else None
  }

  /** The usage counts that come last, if there are any. */
  function LastCounts(lines: seq<Line>): Option<StreamEvent> {
    if lines == [] then None
    else if LastCounts(lines[1..]).Some? then LastCounts(lines[1..])
    else if lines[0].Chunk? && lines[0].usage.Counts? then Some(UsageInfo(lines[0].usage.input, lines[0].usage.output))
    else None
  }

  function Deltas(texts: seq<string>): seq<StreamEvent> { Map((text: string) => TextDelta(text), texts) }

  /** A normal stop: the last counts and the last finish reason of these lines, or else those read before. */
  function StopAfter(lines: seq<Line>, r: Reading): seq<StreamEvent> {
    var usage := if LastCounts(lines).Some? then LastCounts(lines) else r.usage;
    (if usage.Some? then [usage.value] else []) + [StreamStop(LastFinish(lines).GetOr(r.stop))]
  }

  /** How the stream ends after what has been read before. */
  function Ends(lines: seq<Line>, ending: Ending, r: Reading): seq<StreamEvent> {
    var d := FirstDecider(lines);
    if d == |lines| then [StreamError(if ending.OtherFault? then ProviderError else TransientError)]
    else if lines[d].DoneMark? then StopAfter(lines[..d], r)
    else [StreamError(ProviderError)]
  }

  /** The lines up to the deciding one, which still counts for its text. */
  function UpToDecider(lines: seq<Line>): seq<Line> {
    if FirstDecider(lines) < |lines| then lines[..FirstDecider(lines) + 1] else lines
  }

  lemma {:induction false} NextLine(line: Line, rest: seq<Line>, ending: Ending, r: Reading)
    requires !Decides(line)
    ensures FirstDecider([line] + rest) == 1 + FirstDecider(rest)
    ensures UpToDecider([line] + rest) == [line] + UpToDecider(rest)
    ensures Ends([line] + rest, ending, r) == Ends(rest, ending, if line.Chunk? then AfterChunk(r, line) else r)
  {
    var lines, d := [line] + rest, FirstDecider(rest);
    assert lines[1..] == rest && lines[..d + 1] == [line] + rest[..d] && lines[..d + 1][1..] == rest[..d];
    if d < |rest| { assert lines[..d + 2] == [line] + rest[..d + 1]; }
  }

  lemma {:induction false} EventsAre(lines: seq<Line>, ending: Ending, r: Reading)
    ensures EventsFrom(lines, ending, r) == Deltas(TextsOf(UpToDecider(lines))) + Ends(lines, ending, r)
  {
    if lines != [] {
      var line, rest := lines[0], lines[1..];
      assert lines == [line] + rest;
      if Decides(line) {
        assert lines[..1] == [line] && [line][1..] == [];
        assert lines[..0] == [];
        assert Deltas([]) == [];
        if line.Chunk? { DeltasAre(line.content, []); }
      } else {
        var next := if line.Chunk? then AfterChunk(r, line) else r;
        EventsAre(rest, ending, next);
        NextLine(line, rest, ending, r);
        assert ([line] + UpToDecider(rest))[1..] == UpToDecider(rest);
        if line.Chunk? {
          DeltasAre(line.content, TextsOf(UpToDecider(rest)));
          Regroup(DeltaOf(line.content), Deltas(TextsOf(UpToDecider(rest))), Ends(rest, ending, next));
        } else {
          assert [] + TextsOf(UpToDecider(rest)) == TextsOf(UpToDecider(rest));
        }
      }
    }
  }

  lemma {:induction false} DeltasAre(content: string, texts: seq<string>)
    ensures Deltas((if content != "" then [content] else []) + texts) == DeltaOf(content) + Deltas(texts)
  {
  }

  /**
   * The text events are the non-empty contents of the lines up to the one that decides the stream,
   * that line included, in order. Then, after an end mark, comes the usage with the last counts before
   * it, if there are any, and the stop with the last finish reason before it; otherwise an error.
   */
  lemma {:induction false} ChatFollowsLines(lines: seq<Line>, ending: Ending)
    ensures ChatEvents(Body(lines, ending))
         == Deltas(TextsOf(UpToDecider(lines))) + Ends(lines, ending, Reading(EndTurn, None))
  {
    EventsAre(lines, ending, FRESH);
  }

  /** The port's order: non-empty deltas, then at most one usage event, then exactly one terminal event. */
  predicate InOrder(events: seq<StreamEvent>) {
    && events != [] && events[|events| - 1].Terminal()
    && forall i | 0 <= i < |events| - 1 ::
         || (events[i].TextDelta? && events[i].text != "")
         || (events[i].UsageInfo? && i == |events| - 2 && events[|events| - 1].StreamStop?)
  }

  lemma {:induction false} DeltaFirst(content: string, rest: seq<StreamEvent>)
    requires InOrder(rest)
    ensures InOrder(DeltaOf(content) + rest)
  {
    assert content == "" ==> DeltaOf(content) + rest == rest;
  }

  lemma {:induction false} EventsFromInOrder(lines: seq<Line>, ending: Ending, r: Reading)
    requires r.usage.Some? ==> r.usage.value.UsageInfo?
    ensures InOrder(EventsFrom(lines, ending, r))
  {
    if lines != [] {
      match lines[0]
      case NotData => EventsFromInOrder(lines[1..], ending, r);
      case DoneMark =>
      case BadJson =>
      case Chunk(content, _, usage) =>
        if usage == Malformed {
          DeltaFirst(content, [StreamError(ProviderError)]);
        } else {
          EventsFromInOrder(lines[1..], ending, AfterChunk(r, lines[0]));
          DeltaFirst(content, EventsFrom(lines[1..], ending, AfterChunk(r, lines[0])));
        }
    }
  }

  /** Whatever the provider sends and however the response breaks off, the event order contract holds. */
  lemma {:induction false} ChatIsInOrder(resp: Response)
    ensures InOrder(ChatEvents(resp))
  {
    if resp.Body? { EventsFromInOrder(resp.lines, resp.ending, FRESH); }
  }

  lemma {:induction false} StopsIffDone(lines: seq<Line>, ending: Ending, r: Reading)
    ensures var events := EventsFrom(lines, ending, r);
            events != [] && (events[|events| - 1].StreamStop? <==>
              exists i :: 0 <= i < |lines| && lines[i].DoneMark? && forall j | 0 <= j < i :: !Decides(lines[j]))
  {
    var events := EventsFrom(lines, ending, r);
    if lines != [] {
      var rest := lines[1..];
      if Decides(lines[0]) {
        if lines[0].DoneMark? { assert lines[0].DoneMark?; }
      } else {
        StopsIffDone(rest, ending, if lines[0].Chunk? then AfterChunk(r, lines[0]) else r);
        if i :| 0 <= i < |rest| && rest[i].DoneMark? && forall j | 0 <= j < i :: !Decides(rest[j]) {
          forall j | 0 <= j < i + 1 ensures !Decides(lines[j]) { if j > 0 { assert lines[j] == rest[j - 1]; } }
          assert lines[i + 1].DoneMark?;
        }
        if i :| 0 <= i < |lines| && lines[i].DoneMark? && forall j | 0 <= j < i :: !Decides(lines[j]) {
          assert rest[i - 1].DoneMark?;
          forall j | 0 <= j < i - 1 ensures !Decides(rest[j]) { assert rest[j] == lines[j + 1]; }
        }
      }
    }
  }

  /**
   * The stream stops normally if and only if the end mark arrives before anything unusable;
   * otherwise it ends in an error.
   */
  lemma {:induction false} ChatStopsIffDone(lines: seq<Line>, ending: Ending)
    ensures var events := ChatEvents(Body(lines, ending));
            events != [] && (events[|events| - 1].StreamStop? <==>
              exists i :: 0 <= i < |lines| && lines[i].DoneMark? && forall j | 0 <= j < i :: !Decides(lines[j]))
  {
    StopsIffDone(lines, ending, FRESH);
  }
}
