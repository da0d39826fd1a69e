/**
 * One turn of a chat: the events sent and the rows stored, for every retrieval outcome, every event
 * sequence of the provider, every outcome of the storing transactions and every point of cancellation.
 */
module ChatTurn {
  import opened Text
  import opened LlmStream
  import opened Prompts

  datatype Turn = Turn(userId: string, assistantId: string, useKnowledge: bool, budget: int)

  datatype Citation = Citation(rank: nat, chunkId: string, documentId: string, filename: string, snippet: string,
      score: real)

  datatype Event =
    | MessageStart(userId: string, assistantId: string)
    | Citations(items: seq<Citation>)
    | Delta(text: string)
    | DoneEvent(messageId: string, finish: string, tokensIn: Option<int>, tokensOut: Option<int>)
    | ErrorEvent(code: string)
  {
    predicate Terminal() { DoneEvent? || ErrorEvent? }
  }

  datatype MessageRow = MessageRow(
    id: string, content: string, partial: bool, errorCode: Option<string>, tokensIn: Option<int>,
        tokensOut: Option<int>)

  datatype CitationRow = CitationRow(messageId: string, citation: Citation)

  datatype UsageRow = UsageRow(messageId: string, ok: bool, errorCode: Option<string>, tokensIn: Option<int>,
      tokensOut: Option<int>)

  /** The rows of this turn. The assistant message's id is its primary key, so there is at most one. */
  datatype Rows = Rows(assistant: Option<MessageRow>, citations: seq<CitationRow>, usage: seq<UsageRow>)

  const NOTHING := Rows(None, [], [])

  datatype Retrieval = Hits(chunks: seq<Retrieved>) | EmbeddingFailed(code: string) | RetrievalFailed

  /** Where the consumer goes away: at the yield of an event, or while something is awaited. */
  datatype Cancel =
    | Never
    | AtYield(index: nat)
    | InRetrieval
    | InRetrievalStore(committed: bool)
    | InStream(consumed: nat)
    | InErrorStore(committed: bool)
    | InSuccessStore(committed: bool)

  /**
   * Everything outside the orchestrator's control: `stored` and `partialStored` say whether the
   * transactions take effect, `acknowledged` whether the commit of the full answer, having taken
   * effect, is also reported as such; if the connection breaks in between it raises all the same.
   */
  datatype Script = Script(
    retrieval: Retrieval, llm: seq<StreamEvent>, cancel: Cancel, stored: bool, acknowledged: bool, partialStored: bool)

  datatype Outcome = Outcome(events: seq<Event>, rows: Rows)

  function CitationOf(chunk: Retrieved, rank: nat): Citation {
    Citation(rank, chunk.chunkId, chunk.documentId, chunk.filename,
             if |chunk.text| <= 200 then chunk.text else chunk.text[..200], chunk.score)
  }

  function CitationItems(chunks: seq<Retrieved>): seq<Citation> {
    seq(|chunks|, i requires 0 <= i < |chunks| => CitationOf(chunks[i], i + 1))
  }

  function CitationRows(t: Turn, items: seq<Citation>): seq<CitationRow> {
    Map((c: Citation) => CitationRow(t.assistantId, c), items)
  }

  /**
   * The snapshots stored with an answer are those of the citations event, in its order: the `i`-th has
   * rank `i + 1` and the id, file and score of the `i`-th chunk used, with at most 200 characters of its text.
   */
  lemma {:induction false} SnapshotsAreRanked(t: Turn, used: seq<Retrieved>, i: nat)
    requires i < |used|
    ensures var rows := CitationRows(t, CitationItems(used));
            && |rows| == |used| && rows[i] == CitationRow(t.assistantId, CitationItems(used)[i])
            && var c := rows[i].citation;
               && c.rank == i + 1 && c.chunkId == used[i].chunkId && c.documentId == used[i].documentId
               && c.filename == used[i].filename && c.score == used[i].score
               && c.snippet <= used[i].text && |c.snippet| == Min(200, |used[i].text|)
    ensures forall j | 0 <= j < |used| && CitationItems(used)[j].rank == CitationItems(used)[i].rank :: j == i
  {
    var items := CitationItems(used);
    assert CitationRows(t, items)[i] == CitationRow(t.assistantId, items[i]);
  }

  function Min(a: nat, b: nat): nat { if a < b then a else b }

  function CodeText(code: ErrorCode): string {
    match code
    case RateLimited => "rate_limited"
    case Auth => "auth"
    case ContextLength => "context_length"
    case TransientError => "transient"
    case ProviderError => "provider_error"
  }

  function FinishReason(stop: StopReason): string { if stop == MaxTokens then "length" else "stop" }

  // --- transactions ----------------------------------------------------------

  function StoreSuccess(t: Turn, used: seq<Retrieved>, text: string, tokensIn: Option<int>,
      tokensOut: Option<int>): Rows {
    Rows(Some(MessageRow(t.assistantId, text, false, None, tokensIn, tokensOut)), CitationRows(t, CitationItems(used)),
         [UsageRow(t.assistantId, true, None, tokensIn, tokensOut)])
  }

  function StoreError(t: Turn, used: seq<Retrieved>, buffer: seq<string>, code: string): Rows {
    var usage := [UsageRow(t.assistantId, false, Some(code), None, None)];
    if buffer == [] then Rows(None, [], usage)
    else Rows(Some(MessageRow(t.assistantId, Concat(buffer), true, Some(code), None, None)),
        CitationRows(t, CitationItems(used)), usage)
  }

  /** Storing a partial answer after a cancellation. A second row of the same id fails, and with it the transaction. */
  function StoreCancelled(t: Turn, used: seq<Retrieved>, buffer: seq<string>, rows: Rows, ok: bool): Rows {
    if buffer == [] || !ok || rows.assistant.Some? then rows
    else Rows(Some(MessageRow(t.assistantId, Concat(buffer), true, None, None, None)),
        rows.citations + CitationRows(t, CitationItems(used)),
              rows.usage + [UsageRow(t.assistantId, true, None, None, None)])
  }

  // --- the turn --------------------------------------------------------------

  datatype Progress = Progress(buffer: seq<string>, tokensIn: Option<int>, tokensOut: Option<int>, events: seq<Event>)

  function Finish(t: Turn, s: Script, used: seq<Retrieved>, p: Progress, stop: StopReason): Outcome {
    var rows := StoreSuccess(t, used, Concat(p.buffer), p.tokensIn, p.tokensOut);
    match s.cancel
    case InSuccessStore(committed) => Outcome(p.events, if committed then rows else NOTHING)
    case _ =>
      if s.stored && s.acknowledged
          then Outcome(p.events + [DoneEvent(t.assistantId, FinishReason(stop), p.tokensIn, p.tokensOut)], rows)
      else Outcome(p.events + [ErrorEvent("internal_error")], if s.stored then rows else NOTHING)
  }

  function Break(t: Turn, s: Script, used: seq<Retrieved>, p: Progress, code: string): Outcome {
    var rows := StoreError(t, used, p.buffer, code);
    match s.cancel
    case InErrorStore(committed) =>
      Outcome(p.events, StoreCancelled(t, used, p.buffer, if committed then rows else NOTHING, s.partialStored))
    case _ =>
      var kept := if s.stored then rows else NOTHING;
      Outcome(p.events + [ErrorEvent(code)],
              if s.cancel == AtYield(|p.events|) then StoreCancelled(t, used, p.buffer, kept, s.partialStored)
                  else kept)
  }

  function Leave(t: Turn, s: Script, used: seq<Retrieved>, p: Progress): Outcome {
    Outcome(p.events, StoreCancelled(t, used, p.buffer, NOTHING, s.partialStored))
  }

  function WithDelta(p: Progress, text: string): Progress {
    p.(buffer := p.buffer + [text], events := p.events + [Delta(text)])
  }

  /** The streaming loop from the `i`-th provider event on. */
  function Stream(t: Turn, s: Script, used: seq<Retrieved>, i: nat, p: Progress): Outcome
    requires i <= |s.llm|
    decreases |s.llm| - i
  {
    if s.cancel == InStream(i) then Leave(t, s, used, p)
    else if i == |s.llm| then Finish(t, s, used, p, EndTurn)
    else
      match s.llm[i]
      case TextDelta(text) =>
        var q := WithDelta(p, text);
        if s.cancel == AtYield(|p.events|) then Leave(t, s, used, q) else Stream(t, s, used, i + 1, q)
      case UsageInfo(input, output) => Stream(t, s, used, i + 1, p.(tokensIn := Some(input), tokensOut := Some(output)))
      case StreamError(code) => Break(t, s, used, p, CodeText(code))
      case StreamStop(reason) => Finish(t, s, used, p, reason)
      case ToolCall => Stream(t, s, used, i + 1, p)
  }

  function RetrievalBreak(t: Turn, s: Script, code: string): Outcome {
    var start, rows := [MessageStart(t.userId, t.assistantId)], StoreError(t, [], [], code);
    match s.cancel
    case InRetrievalStore(committed) => Outcome(start, if committed then rows else NOTHING)
    case _ => Outcome(start + [ErrorEvent(code)], if s.stored then rows else NOTHING)
  }

  function UsedChunks(t: Turn, s: Script): seq<Retrieved> {
    if t.useKnowledge && s.retrieval.Hits? then InPrompt(s.retrieval.chunks, t.budget) else []
  }

  function Opening(t: Turn, s: Script): seq<Event> {
    var used := UsedChunks(t, s);
    [MessageStart(t.userId, t.assistantId)] + if used == [] then [] else [Citations(CitationItems(used))]
  }

  function Reply(t: Turn, s: Script): Outcome {
    var start := Outcome([MessageStart(t.userId, t.assistantId)], NOTHING);
    if s.cancel == AtYield(0) || (t.useKnowledge && s.cancel == InRetrieval) then start
    else if t.useKnowledge && s.retrieval.EmbeddingFailed? then RetrievalBreak(t, s, s.retrieval.code)
    else if t.useKnowledge && s.retrieval.RetrievalFailed? then RetrievalBreak(t, s, "internal_error")
    else if UsedChunks(t, s) != [] && s.cancel == AtYield(1) then Outcome(Opening(t, s), NOTHING)
    else Stream(t, s, UsedChunks(t, s), 0, Progress([], None, None, Opening(t, s)))
  }

  // --- the generator itself --------------------------------------------------

  class ReplyStream {
    const turn: Turn
    var events: seq<Event>
    var assistant: Option<MessageRow>
    var citations: seq<CitationRow>
    var usage: seq<UsageRow>

    function Stored(): Rows
      reads this
    {
      Rows(assistant, citations, usage)
    }

    constructor (turn: Turn)
      ensures this.turn == turn && events == [] && Stored() == NOTHING
    {
      this.turn := turn;
      events, assistant, citations, usage := [], None, [], [];
    }

    method Yield(e: Event)
      modifies this`events
      ensures events == old(events) + [e]
    {
      events := events + [e];
    }

    method AddCitations(used: seq<Retrieved>)
      modifies this`citations
      ensures citations == old(citations) + CitationRows(turn, CitationItems(used))
    {
      citations := citations + CitationRows(turn, CitationItems(used));
    }

    method PersistSuccess(used: seq<Retrieved>, buffer: seq<string>, tokensIn: Option<int>, tokensOut: Option<int>)
      requires Stored() == NOTHING
      modifies this`assistant, this`citations, this`usage
      ensures Stored() == StoreSuccess(turn, used, Concat(buffer), tokensIn, tokensOut)
    {
      assistant := Some(MessageRow(turn.assistantId, Concat(buffer), false, None, tokensIn, tokensOut));
      AddCitations(used);
      usage := usage + [UsageRow(turn.assistantId, true, None, tokensIn, tokensOut)];
    }

    method PersistError(used: seq<Retrieved>, buffer: seq<string>, code: string)
      requires Stored() == NOTHING
      modifies this`assistant, this`citations, this`usage
      ensures Stored() == StoreError(turn, used, buffer, code)
    {
      if buffer != [] {
        assistant := Some(MessageRow(turn.assistantId, Concat(buffer), true, Some(code), None, None));
        AddCitations(used);
      }
      usage := usage + [UsageRow(turn.assistantId, false, Some(code), None, None)];
    }

    method PersistCancelled(used: seq<Retrieved>, buffer: seq<string>, ok: bool)
      modifies this`assistant, this`citations, this`usage
      ensures Stored() == StoreCancelled(turn, used, buffer, old(Stored()), ok)
    {
      if buffer == [] || !ok || assistant.Some? {
        return;
      }
      assistant := Some(MessageRow(turn.assistantId, Concat(buffer), true, None, None, None));
      AddCitations(used);
      usage := usage + [UsageRow(turn.assistantId, true, None, None, None)];
    }

    /** A failed retrieval: the error is stored if that works, and sent in any case. */
    method BreakRetrieval(s: Script, code: string)
      requires Stored() == NOTHING && events == [MessageStart(turn.userId, turn.assistantId)]
      modifies this
      ensures Outcome(events, Stored()) == RetrievalBreak(turn, s, code)
    {
      if s.cancel.InRetrievalStore? {
        if s.cancel.committed {
          PersistError([], [], code);
        }
        return;
      }
      if s.stored {
        PersistError([], [], code);
      }
      Yield(ErrorEvent(code));
    }

    method StreamReply(s: Script)
      requires events == [] && Stored() == NOTHING
      modifies this
      ensures Outcome(events, Stored()) == Reply(turn, s)
    {
      Yield(MessageStart(turn.userId, turn.assistantId));
      if s.cancel == AtYield(0) {
        return;
      }
      var used: seq<Retrieved> := [];
      if turn.useKnowledge {
        if s.cancel == InRetrieval {
          return;
        }
        match s.retrieval {
          case EmbeddingFailed(code) =>
            BreakRetrieval(s, code);
            return;
          case RetrievalFailed =>
            BreakRetrieval(s, "internal_error");
            return;
          case Hits(chunks) =>
            var blocks;
            blocks, used := FitBudget(chunks, turn.budget);
        }
        if used != [] {
          Yield(Citations(CitationItems(used)));
          if s.cancel == AtYield(1) {
            return;
          }
        }
      }
      assert used == UsedChunks(turn, s);
      assert events == Opening(turn, s);
      StreamAnswer(s, used);
    }

    /** The streaming part: `buffer` grows with every delta; cancellation stores what there is. */
    method StreamAnswer(s: Script, used: seq<Retrieved>)
      requires Stored() == NOTHING
      modifies this
      ensures Outcome(events, Stored()) == Stream(turn, s, used, 0, Progress([], None, None, old(events)))
    {
      var buffer: seq<string> := [];
      var tokensIn: Option<int>, tokensOut: Option<int>, stop := None, None, EndTurn;
      var i := 0;
      ghost var outcome := Stream(turn, s, used, 0, Progress([], None, None, events));
      while true
        invariant 0 <= i <= |s.llm| && Stored() == NOTHING && stop == EndTurn
        invariant outcome == Stream(turn, s, used, i, Progress(buffer, tokensIn, tokensOut, events))
        decreases |s.llm| - i
      {
        if s.cancel == InStream(i) {
          PersistCancelled(used, buffer, s.partialStored);
          return;
        }
        if i == |s.llm| {
          break;
        }
        match s.llm[i] {
          case TextDelta(text) =>
            buffer := buffer + [text];
            var atYield := s.cancel == AtYield(|events|);
            Yield(Delta(text));
            if atYield {
              PersistCancelled(used, buffer, s.partialStored);
              return;
            }
          case UsageInfo(input, output) =>
            tokensIn, tokensOut := Some(input), Some(output);
          case StreamError(code) =>
            BreakStream(s, used, buffer, tokensIn, tokensOut, CodeText(code));
            return;
          case StreamStop(reason) =>
            stop := reason;
            break;
          case ToolCall =>
        }
        i := i + 1;
      }
      if s.cancel.InSuccessStore? {
        if s.cancel.committed {
          PersistSuccess(used, buffer, tokensIn, tokensOut);
        }
        return;
      }
      if s.stored {
        PersistSuccess(used, buffer, tokensIn, tokensOut);
      }
      if !s.stored || !s.acknowledged {
        Yield(ErrorEvent("internal_error"));
        return;
      }
      Yield(DoneEvent(turn.assistantId, FinishReason(stop), tokensIn, tokensOut));
    }

    /** An error event of the provider: what there is of the answer is stored before the error is sent. */
    method BreakStream(s: Script, used: seq<Retrieved>, buffer: seq<string>, tokensIn: Option<int>,
        tokensOut: Option<int>, code: string)
      requires Stored() == NOTHING
      modifies this
      ensures Outcome(events, Stored())
          == Break(turn, s, used, Progress(buffer, tokensIn, tokensOut, old(events)), code)
    {
      if s.cancel.InErrorStore? {
        if s.cancel.committed {
          PersistError(used, buffer, code);
        }
        PersistCancelled(used, buffer, s.partialStored);
        return;
      }
      if s.stored {
        PersistError(used, buffer, code);
      }
      var atYield := s.cancel == AtYield(|events|);
      Yield(ErrorEvent(code));
      if atYield {
        PersistCancelled(used, buffer, s.partialStored);
      }
    }
  }

  // --- what every turn guarantees --------------------------------------------

  /** message_start, then at most one citations event, then deltas, then at most one terminal event. */
  predicate InOrder(events: seq<Event>) {
    && events != [] && events[0].MessageStart?
    && forall i | 1 <= i < |events| ::
         && !events[i].MessageStart?
         && (events[i].Citations? ==> i == 1)
         && (events[i].Terminal() ==> i == |events| - 1)
  }

  function TextSent(events: seq<Event>): string {
    if events == [] then ""
    else TextSent(events[..|events| - 1]) + if events[|events| - 1].Delta? then events[|events| - 1].text else ""
  }

  function CitationsSent(events: seq<Event>): seq<Citation> {
    if |events| > 1 && events[1].Citations? then events[1].items else []
  }

  function Ended(events: seq<Event>): bool { events != [] && events[|events| - 1].Terminal() }

  function Completed(events: seq<Event>): bool { events != [] && events[|events| - 1].DoneEvent? }

  lemma {:induction false} TextSnoc(events: seq<Event>, e: Event)
    ensures TextSent(events + [e]) == TextSent(events) + if e.Delta? then e.text else ""
  {
    assert (events + [e])[..|events|] == events;
  }

  /** The stored rows show exactly what was sent: its text, its citations, one usage row. */
  predicate RowsShowEvents(t: Turn, o: Outcome) {
    && |o.rows.usage| <= 1
    && (o.rows.assistant.None? ==> o.rows.citations == [])
    && (o.rows.assistant.Some? ==>
          && o.rows.assistant.value.id == t.assistantId
          && o.rows.assistant.value.content == TextSent(o.events)
          && o.rows.citations == CitationRows(t, CitationsSent(o.events))
          && |o.rows.usage| == 1)
    && (Completed(o.events) ==>
          && o.rows.assistant.Some? && !o.rows.assistant.value.partial
          && o.events[|o.events| - 1].messageId == t.assistantId
          && o.events[|o.events| - 1].tokensIn == o.rows.assistant.value.tokensIn
          && o.events[|o.events| - 1].tokensOut == o.rows.assistant.value.tokensOut)
  }

  predicate Open(t: Turn, used: seq<Retrieved>, p: Progress) {
    && InOrder(p.events) && !Ended(p.events)
    && p.events[0] == MessageStart(t.userId, t.assistantId)
    && TextSent(p.events) == Concat(p.buffer)
    && CitationsSent(p.events) == CitationItems(used)
    && (|p.events| == 1 ==> used == [])
  }

  predicate GoodOutcome(t: Turn, s: Script, o: Outcome) {
    && InOrder(o.events) && o.events[0] == MessageStart(t.userId, t.assistantId)
    && RowsShowEvents(t, o) && (s.cancel == Never ==> Ended(o.events))
  }

  lemma {:induction false} DeltaKeepsOpen(t: Turn, used: seq<Retrieved>, p: Progress, text: string)
    requires Open(t, used, p)
    ensures Open(t, used, WithDelta(p, text))
  {
    TextSnoc(p.events, Delta(text));
    ConcatAppend(p.buffer, [text]);
    assert Concat([text]) == text + "" == text;
  }

  lemma {:induction false} FinishIsGood(t: Turn, s: Script, used: seq<Retrieved>, p: Progress, stop: StopReason)
    requires Open(t, used, p)
    ensures GoodOutcome(t, s, Finish(t, s, used, p, stop))
  {
    TextSnoc(p.events, DoneEvent(t.assistantId, FinishReason(stop), p.tokensIn, p.tokensOut));
    TextSnoc(p.events, ErrorEvent("internal_error"));
  }

  /** Rows that show this text and these citations, or nothing of the answer. */
  predicate ShowsPartial(t: Turn, used: seq<Retrieved>, buffer: seq<string>, rows: Rows) {
    && |rows.usage| <= 1
    && (rows.assistant.None? ==> rows.citations == [] && (buffer != [] ==> rows.usage == []))
    && (rows.assistant.Some? ==>
          && rows.assistant.value.id == t.assistantId && rows.assistant.value.content == Concat(buffer)
          && rows.citations == CitationRows(t, CitationItems(used)) && |rows.usage| == 1)
  }

  lemma {:induction false} PartialRowsShow(t: Turn, used: seq<Retrieved>, buffer: seq<string>, code: string,
      rows: Rows, ok: bool)
    ensures ShowsPartial(t, used, buffer, StoreError(t, used, buffer, code))
    ensures ShowsPartial(t, used, buffer, rows)
        ==> ShowsPartial(t, used, buffer, StoreCancelled(t, used, buffer, rows, ok))
  {
    assert [] + CitationRows(t, CitationItems(used)) == CitationRows(t, CitationItems(used));
  }

  /** Events that do not end in done, with rows that show what there is. */
  lemma {:induction false} PartialIsGood(t: Turn, s: Script, used: seq<Retrieved>, p: Progress, rows: Rows)
    requires Open(t, used, p) && ShowsPartial(t, used, p.buffer, rows)
    ensures s.cancel != Never ==> GoodOutcome(t, s, Outcome(p.events, rows))
  {
  }

  lemma {:induction false} BrokenIsGood(t: Turn, s: Script, used: seq<Retrieved>, p: Progress, rows: Rows, code: string)
    requires Open(t, used, p) && ShowsPartial(t, used, p.buffer, rows)
    ensures GoodOutcome(t, s, Outcome(p.events + [ErrorEvent(code)], rows))
  {
    TextSnoc(p.events, ErrorEvent(code));
  }

  lemma {:induction false} BreakIsGood(t: Turn, s: Script, used: seq<Retrieved>, p: Progress, code: string)
    requires Open(t, used, p)
    ensures GoodOutcome(t, s, Break(t, s, used, p, code))
  {
    var rows := Break(t, s, used, p, code).rows;
    PartialRowsShow(t, used, p.buffer, code, StoreError(t, used, p.buffer, code), s.partialStored);
    PartialRowsShow(t, used, p.buffer, code, NOTHING, s.partialStored);
    PartialIsGood(t, s, used, p, rows);
    BrokenIsGood(t, s, used, p, rows, code);
  }

  lemma {:induction false} StreamIsGood(t: Turn, s: Script, used: seq<Retrieved>, i: nat, p: Progress)
    requires i <= |s.llm| && Open(t, used, p)
    ensures GoodOutcome(t, s, Stream(t, s, used, i, p))
    decreases |s.llm| - i
  {
    if s.cancel == InStream(i) {
    } else if i == |s.llm| {
      FinishIsGood(t, s, used, p, EndTurn);
    } else {
      match s.llm[i] {
        case TextDelta(text) =>
          DeltaKeepsOpen(t, used, p, text);
          if s.cancel != AtYield(|p.events|) { StreamIsGood(t, s, used, i + 1, WithDelta(p, text)); }
        case UsageInfo(input, output) => StreamIsGood(t, s, used, i + 1,
            p.(tokensIn := Some(input), tokensOut := Some(output)));
        case StreamError(code) => BreakIsGood(t, s, used, p, CodeText(code));
        case StreamStop(reason) => FinishIsGood(t, s, used, p, reason);
        case ToolCall => StreamIsGood(t, s, used, i + 1, p);
      }
    }
  }

  lemma {:induction false} OpeningText(start: Event, citations: Event)
    requires start.MessageStart? && citations.Citations?
    ensures TextSent([start]) == "" && TextSent([start, citations]) == ""
  {
    TextSnoc([], start);
    assert [] + [start] == [start];
    TextSnoc([start], citations);
    assert [start] + [citations] == [start, citations];
  }

  lemma {:induction false} OpeningIsOpen(t: Turn, s: Script)
    ensures Open(t, UsedChunks(t, s), Progress([], None, None, Opening(t, s)))
  {
    var start, citations := MessageStart(t.userId, t.assistantId), Citations(CitationItems(UsedChunks(t, s)));
    OpeningText(start, citations);
    assert Opening(t, s) == if UsedChunks(t, s) == [] then [start] else [start, citations];
  }

  lemma {:induction false} RetrievalBreakIsGood(t: Turn, s: Script, code: string)
    ensures GoodOutcome(t, s, RetrievalBreak(t, s, code))
  {
    TextSnoc([MessageStart(t.userId, t.assistantId)], ErrorEvent(code));
  }

  /**
   * For every script: the events are message_start, citations?, delta*, (done | error)? in this order;
   * a turn that is not cancelled ends in exactly one terminal event; there is at most one assistant
   * row and at most one usage row; a stored answer is the text sent, with the citations sent; and done
   * is sent only for a complete stored answer of the same id.
   */
  lemma {:induction false} EveryTurnIsGood(t: Turn, s: Script)
    ensures GoodOutcome(t, s, Reply(t, s))
  {
    OpeningIsOpen(t, s);
    var start := MessageStart(t.userId, t.assistantId);
    OpeningText(start, Citations([]));
    RetrievalBreakIsGood(t, s, "internal_error");
    if s.retrieval.EmbeddingFailed? { RetrievalBreakIsGood(t, s, s.retrieval.code); }
    StreamIsGood(t, s, UsedChunks(t, s), 0, Progress([], None, None, Opening(t, s)));
  }

  // --- done and the stored answer --------------------------------------------

  predicate StoredInFull(rows: Rows) { rows.assistant.Some? && !rows.assistant.value.partial }

  lemma {:induction false} StreamIsDoneIff(t: Turn, s: Script, used: seq<Retrieved>, i: nat, p: Progress)
    requires i <= |s.llm| && s.cancel == Never && !Completed(p.events)
    ensures var o := Stream(t, s, used, i, p); Completed(o.events) <==> StoredInFull(o.rows) && s.acknowledged
    decreases |s.llm| - i
  {
    if i < |s.llm| {
      match s.llm[i]
      case TextDelta(text) => StreamIsDoneIff(t, s, used, i + 1, WithDelta(p, text));
      case UsageInfo(input, output) => StreamIsDoneIff(t, s, used, i + 1,
          p.(tokensIn := Some(input), tokensOut := Some(output)));
      case StreamError(code) =>
      case StreamStop(reason) =>
      case ToolCall => StreamIsDoneIff(t, s, used, i + 1, p);
    }
  }

  /**
   * An uncancelled turn ends in done if and only if its answer is stored in full and its commit is
   * acknowledged: a commit that takes effect but raises is reported as an error.
   */
  lemma {:induction false} DoneIffStored(t: Turn, s: Script)
    requires s.cancel == Never
    ensures var o := Reply(t, s); Completed(o.events) <==> StoredInFull(o.rows) && s.acknowledged
  {
    StreamIsDoneIff(t, s, UsedChunks(t, s), 0, Progress([], None, None, Opening(t, s)));
  }

  /** Such a turn: nothing is retrieved, the provider says one word and stops, and the acknowledgement is lost. */
  lemma {:induction false} StoredButReportedAsError(t: Turn)
    ensures var o := Reply(t, Script(Hits([]), [TextDelta("hi"), StreamStop(EndTurn)], Never, true, false, true));
            StoredInFull(o.rows) && o.events[|o.events| - 1] == ErrorEvent("internal_error")
  {
  }

  // --- the provider's answer -------------------------------------------------

  /** The texts of the provider up to its first stop or error. */
  function AnswerPieces(llm: seq<StreamEvent>): seq<string> {
    if llm == [] || llm[0].Terminal() then []
    else (if llm[0].TextDelta? then [llm[0].text] else []) + AnswerPieces(llm[1..])
  }

  /** The provider's first stop or error; a stream that just ends counts as a stop. */
  function Verdict(llm: seq<StreamEvent>): StreamEvent {
    if llm == [] then StreamStop(EndTurn) else if llm[0].Terminal() then llm[0] else Verdict(llm[1..])
  }

  /** The last usage event before that. */
  function FinalUsage(llm: seq<StreamEvent>): Option<StreamEvent> {
    if llm == [] || llm[0].Terminal() then None
    else if FinalUsage(llm[1..]).Some? then FinalUsage(llm[1..])
    else if llm[0].UsageInfo? then Some(llm[0]) else None
  }

  lemma {:induction false} FinalUsageIsUsage(llm: seq<StreamEvent>)
    ensures FinalUsage(llm).Some? ==> FinalUsage(llm).value.UsageInfo?
    ensures Verdict(llm).Terminal()
  {
    if llm != [] && !llm[0].Terminal() { FinalUsageIsUsage(llm[1..]); }
  }

  function InputOf(usage: Option<StreamEvent>): Option<int> {
    if usage.Some? && usage.value.UsageInfo? then Some(usage.value.input) else None
  }

  function OutputOf(usage: Option<StreamEvent>): Option<int> {
    if usage.Some? && usage.value.UsageInfo? then Some(usage.value.output) else None
  }

  function DeltaEvents(pieces: seq<string>): seq<Event> { Map((text: string) => Delta(text), pieces) }

  /** What the loop has gathered when the provider's events are used up to the first stop or error. */
  function Gathered(llm: seq<StreamEvent>, p: Progress): Progress {
    var pieces, usage := AnswerPieces(llm), FinalUsage(llm);
    Progress(p.buffer + pieces, if usage.Some? then InputOf(usage) else p.tokensIn,
             if usage.Some? then OutputOf(usage) else p.tokensOut, p.events + DeltaEvents(pieces))
  }

  lemma {:induction false} GatheredStep(e: StreamEvent, rest: seq<StreamEvent>, p: Progress)
    requires !e.Terminal()
    ensures var q := match e
                     case TextDelta(text) => WithDelta(p, text)
                     case UsageInfo(input, output) => p.(tokensIn := Some(input), tokensOut := Some(output))
                     case _ => p;
            Gathered([e] + rest, p) == Gathered(rest, q)
  {
    var llm := [e] + rest;
    assert llm[1..] == rest;
    FinalUsageIsUsage(rest);
    if e.TextDelta? {
      assert AnswerPieces(llm) == [e.text] + AnswerPieces(rest);
      assert DeltaEvents(AnswerPieces(llm)) == [Delta(e.text)] + DeltaEvents(AnswerPieces(rest));
      Regroup(p.buffer, [e.text], AnswerPieces(rest));
      Regroup(p.events, [Delta(e.text)], DeltaEvents(AnswerPieces(rest)));
    } else {
      assert AnswerPieces(llm) == [] + AnswerPieces(rest) == AnswerPieces(rest);
    }
  }

  /** The loop comes to the provider's first stop or error, having gathered all that is before it. */
  lemma {:induction false} StreamReachesVerdict(t: Turn, s: Script, used: seq<Retrieved>, i: nat, p: Progress)
    requires i <= |s.llm| && !s.cancel.InStream? && !s.cancel.AtYield?
    ensures var rest := s.llm[i..];
            var v, q := Verdict(rest), Gathered(rest, p);
            Stream(t, s, used, i, p)
            == if v.StreamError? then Break(t, s, used, q, CodeText(v.code))
               else if v.StreamStop? then Finish(t, s, used, q, v.reason) else Outcome([], NOTHING)
    decreases |s.llm| - i
  {
    var rest := s.llm[i..];
    FinalUsageIsUsage(rest);
    if i == |s.llm| || s.llm[i].Terminal() {
      assert p.buffer + [] == p.buffer && DeltaEvents([]) == [] && p.events + [] == p.events;
    } else {
      assert rest == [s.llm[i]] + s.llm[i + 1..] && rest[1..] == s.llm[i + 1..];
      GatheredStep(s.llm[i], s.llm[i + 1..], p);
      match s.llm[i]
      case TextDelta(text) => StreamReachesVerdict(t, s, used, i + 1, WithDelta(p, text));
      case UsageInfo(input, output) =>
        StreamReachesVerdict(t, s, used, i + 1, p.(tokensIn := Some(input), tokensOut := Some(output)));
      case ToolCall => StreamReachesVerdict(t, s, used, i + 1, p);
    }
  }

  /** The answer as it is stored, with its citations. */
  function AnswerRows(t: Turn, s: Script, row: MessageRow, usage: UsageRow): Rows {
    Rows(Some(row), CitationRows(t, CitationItems(UsedChunks(t, s))), [usage])
  }

  /**
   * An uncancelled turn whose retrieval succeeds sends the provider's texts, each as one delta, in
   * order, up to the provider's first stop or error. After an error it sends that error, and what it
   * stores is a partial answer, unless there is no text. After a stop, or the end of the provider's
   * events, it stores the whole text with the last token counts; and it ends in done, with these counts
   * and the reason of the stop, if and only if that has worked and been acknowledged.
   */
  lemma {:induction false} TurnFollowsProvider(t: Turn, s: Script)
    requires s.cancel == Never && (t.useKnowledge ==> s.retrieval.Hits?)
    ensures var pieces, usage, v, o := AnswerPieces(s.llm), FinalUsage(s.llm), Verdict(s.llm), Reply(t, s);
            var sent, id := Opening(t, s) + DeltaEvents(pieces), t.assistantId;
            if v.StreamError? then
              var code := CodeText(v.code);
              && o.events == sent + [ErrorEvent(code)]
              && o.rows == if !s.stored then NOTHING
                           else if pieces == [] then Rows(None, [], [UsageRow(id, false, Some(code), None, None)])
                           else AnswerRows(t, s, MessageRow(id, Concat(pieces), true, Some(code), None, None),
                                           UsageRow(id, false, Some(code), None, None))
            else
              && v.StreamStop?
              && o.events == sent + [if s.stored && s.acknowledged
                                     then DoneEvent(id, if v.reason == MaxTokens then "length" else "stop",
                                                    InputOf(usage), OutputOf(usage))
                                     else ErrorEvent("internal_error")]
              && o.rows == if !s.stored then NOTHING
                           else AnswerRows(t, s, MessageRow(id, Concat(pieces), false, None, InputOf(usage),
                                                            OutputOf(usage)),
                                           UsageRow(id, true, None, InputOf(usage), OutputOf(usage)))
  {
    var p := Progress([], None, None, Opening(t, s));
    StreamReachesVerdict(t, s, UsedChunks(t, s), 0, p);
    FinalUsageIsUsage(s.llm);
    assert s.llm[0..] == s.llm && [] + AnswerPieces(s.llm) == AnswerPieces(s.llm);
  }

  lemma {:induction false} TextOfDeltas(events: seq<Event>, pieces: seq<string>)
    ensures TextSent(events + DeltaEvents(pieces)) == TextSent(events) + Concat(pieces)
    decreases |pieces|
  {
    if pieces == [] {
      assert events + DeltaEvents(pieces) == events;
    } else {
      var first, rest := Delta(pieces[0]), pieces[1..];
      assert DeltaEvents(pieces) == [first] + DeltaEvents(rest);
      Regroup(events, [first], DeltaEvents(rest));
      TextSnoc(events, first);
      TextOfDeltas(events + [first], rest);
      Regroup(TextSent(events), pieces[0], Concat(rest));
    }
  }

  /** In particular the text sent is the provider's text. */
  lemma {:induction false} TextIsProviders(t: Turn, s: Script)
    requires s.cancel == Never && (t.useKnowledge ==> s.retrieval.Hits?)
    ensures TextSent(Reply(t, s).events) == Concat(AnswerPieces(s.llm))
    ensures Completed(Reply(t, s).events) <==> Verdict(s.llm).StreamStop? && s.stored && s.acknowledged
  {
    TurnFollowsProvider(t, s);
    OpeningIsOpen(t, s);
    TextOfDeltas(Opening(t, s), AnswerPieces(s.llm));
    LastEvent(Opening(t, s) + DeltaEvents(AnswerPieces(s.llm)), Reply(t, s).events);
    assert "" + Concat(AnswerPieces(s.llm)) == Concat(AnswerPieces(s.llm));
  }

  lemma {:induction false} LastEvent(sent: seq<Event>, events: seq<Event>)
    requires |events| == |sent| + 1 && events[..|sent|] == sent && !events[|sent|].Delta?
    ensures TextSent(events) == TextSent(sent)
  {
    assert events == sent + [events[|sent|]];
    TextSnoc(sent, events[|sent|]);
  }

  /** A turn whose retrieval fails sends one error after message_start, and stores a usage row at most. */
  lemma {:induction false} FailedRetrievalEnds(t: Turn, s: Script)
    requires s.cancel == Never && t.useKnowledge && !s.retrieval.Hits?
    ensures var code := if s.retrieval.EmbeddingFailed? then s.retrieval.code else "internal_error";
            var usage := UsageRow(t.assistantId, false, Some(code), None, None);
            Reply(t, s) == Outcome([MessageStart(t.userId, t.assistantId), ErrorEvent(code)],
                                   if s.stored then Rows(None, [], [usage]) else NOTHING)
  {
  }

  /**
   * Citations are sent exactly if knowledge is used and the first chunk found fits the budget, and then
   * they are those of the longest run of leading chunks whose blocks fit it together.
   */
  lemma {:induction false} CitationsIff(t: Turn, s: Script)
    requires s.cancel == Never
    ensures var chunks := if t.useKnowledge && s.retrieval.Hits? then s.retrieval.chunks else [];
            var cited, events := chunks != [] && |RenderBlock(chunks[0], 1)| <= t.budget, Reply(t, s).events;
            && |events| > 1 && (events[1].Citations? <==> cited)
            && (cited ==> exists n :: CitesFirst(events[1].items, chunks, n, t.budget))
  {
    var chunks := if t.useKnowledge && s.retrieval.Hits? then s.retrieval.chunks else [];
    UsedIff(chunks, t.budget);
    UsedIsBounded(chunks, 0, t.budget);
    assert UsedChunks(t, s) == chunks[..Used(chunks, 0, t.budget)];
    SecondEvent(t, s);
    if UsedChunks(t, s) != [] {
      UsedFitsFirst(chunks, 0, t.budget, t.budget);
      assert CitesFirst(CitationItems(UsedChunks(t, s)), chunks, Used(chunks, 0, t.budget), t.budget);
    }
  }

  /** The items cite the first `n` chunks, as many as fit the budget. */
  predicate CitesFirst(items: seq<Citation>, chunks: seq<Retrieved>, n: nat, budget: int) {
    0 < n && FitsFirst(chunks, n, budget) && items == CitationItems(chunks[..n])
  }

  lemma {:induction false} SecondEvent(t: Turn, s: Script)
    requires s.cancel == Never
    ensures var used, events := UsedChunks(t, s), Reply(t, s).events;
            && |events| > 1 && (events[1].Citations? <==> used != [])
            && (used != [] ==> events[1].items == CitationItems(used))
  {
    if t.useKnowledge && !s.retrieval.Hits? {
      FailedRetrievalEnds(t, s);
    } else {
      TurnFollowsProvider(t, s);
      var pieces := AnswerPieces(s.llm);
      assert pieces != [] ==> DeltaEvents(pieces)[0] == Delta(pieces[0]);
    }
  }

  // --- cancellation ----------------------------------------------------------

  lemma {:induction false} StreamContinues(t: Turn, s: Script, used: seq<Retrieved>, i: nat, p: Progress)
    requires i <= |s.llm|
    ensures p.events <= Stream(t, s, used, i, p).events
    decreases |s.llm| - i
  {
    if i < |s.llm| && s.cancel != InStream(i) {
      match s.llm[i]
      case TextDelta(text) =>
        assert p.events <= WithDelta(p, text).events;
        if s.cancel != AtYield(|p.events|) { StreamContinues(t, s, used, i + 1, WithDelta(p, text)); }
      case UsageInfo(input, output) =>
        StreamContinues(t, s, used, i + 1, p.(tokensIn := Some(input), tokensOut := Some(output)));
      case ToolCall => StreamContinues(t, s, used, i + 1, p);
      case _ =>
    }
  }

  /** The events up to and including the `n`-th. */
  function Through(events: seq<Event>, n: nat): seq<Event> { if n < |events| then events[..n + 1] else events }

  lemma {:induction false} StreamCutOff(t: Turn, s: Script, used: seq<Retrieved>, i: nat, p: Progress)
    requires i <= |s.llm| && (s.cancel.AtYield? ==> s.cancel.index >= |p.events|)
    ensures var whole := Stream(t, s.(cancel := Never), used, i, p).events;
            var events := Stream(t, s, used, i, p).events;
            events <= whole && (s.cancel.AtYield? ==> events == Through(whole, s.cancel.index))
    decreases |s.llm| - i
  {
    var free := s.(cancel := Never);
    if s.cancel == InStream(i) {
      StreamContinues(t, free, used, i, p);
    } else if i < |s.llm| {
      match s.llm[i]
      case TextDelta(text) =>
        if s.cancel == AtYield(|p.events|) {
          StreamContinues(t, free, used, i + 1, WithDelta(p, text));
        } else {
          StreamCutOff(t, s, used, i + 1, WithDelta(p, text));
        }
      case UsageInfo(input, output) =>
        StreamCutOff(t, s, used, i + 1, p.(tokensIn := Some(input), tokensOut := Some(output)));
      case ToolCall => StreamCutOff(t, s, used, i + 1, p);
      case _ =>
    }
  }

  /**
   * A cancellation changes nothing about what is sent before it: the events are the first ones of the
   * same turn without it, up to the very event at whose yield the consumer goes away.
   */
  lemma {:induction false} CancelledIsCutOff(t: Turn, s: Script)
    ensures var whole := Reply(t, s.(cancel := Never)).events;
            && Reply(t, s).events <= whole
            && (s.cancel.AtYield? ==> Reply(t, s).events == Through(whole, s.cancel.index))
  {
    var free, p := s.(cancel := Never), Progress([], None, None, Opening(t, s));
    StreamContinues(t, free, UsedChunks(t, s), 0, p);
    if !(s.cancel.AtYield? && s.cancel.index < |Opening(t, s)|) { StreamCutOff(t, s, UsedChunks(t, s), 0, p); }
  }

  predicate HasDelta(events: seq<Event>) { exists i :: 0 <= i < |events| && events[i].Delta? }

  /** What storing a cancelled turn leaves, given the events sent. */
  function KeptRows(t: Turn, s: Script, events: seq<Event>): Rows {
    if !HasDelta(events) || !s.partialStored then NOTHING
    else Rows(Some(MessageRow(t.assistantId, TextSent(events), true, None, None, None)),
              CitationRows(t, CitationsSent(events)), [UsageRow(t.assistantId, true, None, None, None)])
  }

  /** The buffer is what has been sent. */
  ghost predicate Begun(t: Turn, used: seq<Retrieved>, p: Progress) {
    Open(t, used, p) && (p.buffer != [] <==> HasDelta(p.events))
  }

  lemma {:induction false} DeltaBegins(t: Turn, used: seq<Retrieved>, p: Progress, text: string)
    requires Begun(t, used, p)
    ensures Begun(t, used, WithDelta(p, text))
  {
    DeltaKeepsOpen(t, used, p, text);
    assert WithDelta(p, text).events[|p.events|].Delta?;
  }

  lemma {:induction false} BreakEnds(t: Turn, s: Script, used: seq<Retrieved>, p: Progress, code: string,
      stop: StopReason)
    requires s.cancel.AtYield? || s.cancel.InStream?
    ensures Ended(Break(t, s, used, p, code).events) && Ended(Finish(t, s, used, p, stop).events)
  {
  }

  lemma {:induction false} StreamKeeps(t: Turn, s: Script, used: seq<Retrieved>, i: nat, p: Progress)
    requires i <= |s.llm| && Begun(t, used, p) && (s.cancel.AtYield? || s.cancel.InStream?)
    requires !Ended(Stream(t, s, used, i, p).events)
    ensures Stream(t, s, used, i, p).rows == KeptRows(t, s, Stream(t, s, used, i, p).events)
    decreases |s.llm| - i
  {
    if s.cancel == InStream(i) {
      LeavingKeeps(t, s, used, p);
    } else if i == |s.llm| {
      BreakEnds(t, s, used, p, "", EndTurn);
    } else {
      match s.llm[i]
      case TextDelta(text) =>
        DeltaBegins(t, used, p, text);
        if s.cancel == AtYield(|p.events|) {
          LeavingKeeps(t, s, used, WithDelta(p, text));
        } else {
          StreamKeeps(t, s, used, i + 1, WithDelta(p, text));
        }
      case UsageInfo(input, output) =>
        StreamKeeps(t, s, used, i + 1, p.(tokensIn := Some(input), tokensOut := Some(output)));
      case StreamError(code) => BreakEnds(t, s, used, p, CodeText(code), EndTurn);
      case StreamStop(reason) => BreakEnds(t, s, used, p, "", reason);
      case ToolCall => StreamKeeps(t, s, used, i + 1, p);
    }
  }

  lemma {:induction false} StoredFresh(t: Turn, used: seq<Retrieved>, buffer: seq<string>)
    requires buffer != []
    ensures StoreCancelled(t, used, buffer, NOTHING, true)
         == Rows(Some(MessageRow(t.assistantId, Concat(buffer), true, None, None, None)),
                 CitationRows(t, CitationItems(used)), [UsageRow(t.assistantId, true, None, None, None)])
  {
    assert [] + CitationRows(t, CitationItems(used)) == CitationRows(t, CitationItems(used));
  }

  lemma {:induction false} LeavingKeeps(t: Turn, s: Script, used: seq<Retrieved>, p: Progress)
    requires Begun(t, used, p)
    ensures Leave(t, s, used, p).rows == KeptRows(t, s, p.events)
  {
    if p.buffer != [] && s.partialStored { StoredFresh(t, used, p.buffer); }
  }

  /**
   * An answer begun is kept: if the consumer goes away while the answer streams, the text and citations
   * sent are stored as a partial answer, unless no text was sent or storing it fails.
   */
  lemma {:induction false} PartialIsKept(t: Turn, s: Script)
    requires (s.cancel.AtYield? || s.cancel.InStream?) && !Ended(Reply(t, s).events)
    ensures Reply(t, s).rows == KeptRows(t, s, Reply(t, s).events)
  {
    if s.cancel.AtYield? && s.cancel.index < |Opening(t, s)| {
      assert !HasDelta(Reply(t, s).events);
    } else {
      OpeningBegins(t, s);
      StreamKeeps(t, s, UsedChunks(t, s), 0, Progress([], None, None, Opening(t, s)));
    }
  }

  lemma {:induction false} OpeningBegins(t: Turn, s: Script)
    ensures Begun(t, UsedChunks(t, s), Progress([], None, None, Opening(t, s)))
  {
    OpeningIsOpen(t, s);
    assert !HasDelta(Opening(t, s));
  }

  /**
   * A cancellation while the answer is being stored leaves in the database what the store leaves there; and
   * if storing an interrupted answer has not worked, the cancellation stores it once more.
   */
  lemma {:induction false} CancelledWhileStoring(t: Turn, s: Script)
    requires (s.cancel.InSuccessStore? || s.cancel.InErrorStore?) && (t.useKnowledge ==> s.retrieval.Hits?)
    ensures var free, pieces, v := s.(cancel := Never, stored := s.cancel.committed), AnswerPieces(s.llm),
                Verdict(s.llm);
            var rows, id := Reply(t, s).rows, t.assistantId;
            && (s.cancel.InSuccessStore? && v.StreamStop? ==> rows == Reply(t, free).rows)
            && (s.cancel.InErrorStore? && v.StreamError? ==>
                  rows == if s.cancel.committed then Reply(t, free).rows
                          else if pieces == [] || !s.partialStored then NOTHING
                          else AnswerRows(t, s, MessageRow(id, Concat(pieces), true, None, None, None),
                                          UsageRow(id, true, None, None, None)))
  {
    var free, p := s.(cancel := Never, stored := s.cancel.committed), Progress([], None, None, Opening(t, s));
    StreamReachesVerdict(t, s, UsedChunks(t, s), 0, p);
    StreamReachesVerdict(t, free, UsedChunks(t, s), 0, p);
    assert s.llm[0..] == s.llm && [] + AnswerPieces(s.llm) == AnswerPieces(s.llm);
    if AnswerPieces(s.llm) != [] { StoredFresh(t, UsedChunks(t, s), AnswerPieces(s.llm)); }
  }
}
