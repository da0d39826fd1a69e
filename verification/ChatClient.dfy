/** The chat client: a reducer over the events of one answer, into the message cache and the view state. */
module ChatClient {
  import opened Text
  import opened Sse
  import opened ChatTurn

  datatype ChatStatus = Idle | Streaming | Finished | Faulted

  datatype Shown = Shown(
    id: string, role: string, content: string, tokensIn: Option<int>, tokensOut: Option<int>, citations: seq<Citation>)

  datatype View = View(
    status: ChatStatus, text: string, citations: seq<Citation>, items: seq<Shown>, assistantId: Option<string>)

  /** JSON as the two sides use it: the text of an event's data, and what parsing it under the event's name gives. */
  datatype Codec = Codec(dumps: Event -> string, parse: (string, string) -> Option<Event>)

  /** How the response stream ends for the client. */
  datatype StreamEnd = EndOfStream | AbortError | OtherError

  function Name(e: Event): string {
    match e
    case MessageStart(_, _) => "message_start"
    case Citations(_) => "citations"
    case Delta(_) => "delta"
    case DoneEvent(_, _, _, _) => "done"
    case ErrorEvent(_) => "error"
  }

  const KNOWN := {"message_start", "citations", "delta", "done", "error"}

  function Encode(c: Codec, e: Event): SseEvent { SseEvent(Name(e), c.dumps(e)) }

  /** Replaces the optimistic id of the user's message. */
  function Rename(items: seq<Shown>, tempId: string, id: string): seq<Shown> {
    Map((m: Shown) => if m.id == tempId then m.(id := id) else m, items)
  }

  function Apply(v: View, tempId: string, e: Event): View {
    match e
    case MessageStart(userId, assistantId) =>
      v.(assistantId := Some(assistantId), items := Rename(v.items, tempId, userId))
    case Citations(items) => v.(citations := items)
    case Delta(text) => v.(text := v.text + text)
    case DoneEvent(messageId, _, tokensIn, tokensOut) =>
      v.(items := v.items + [Shown(v.assistantId.GetOr(messageId), "assistant", v.text, tokensIn, tokensOut,
          v.citations)],
         status := Finished)
    case ErrorEvent(_) => v.(status := Faulted)
  }

  /** The loop over the events; data that does not parse throws out of it, unknown events are ignored. */
  function Reduce(c: Codec, v: View, tempId: string, events: seq<SseEvent>): (View, bool) {
    if events == [] then (v, false)
    else
      var n := |events| - 1;
      var (u, thrown) := Reduce(c, v, tempId, events[..n]);
      if thrown || events[n].event !in KNOWN then (u, thrown)
      else
        match c.parse(events[n].event, events[n].data)
        case None => (u, true)
        case Some(e) => (Apply(u, tempId, e), false)
  }

  function Started(items: seq<Shown>, tempId: string, content: string): View {
    View(Streaming, "", [], items + [Shown(tempId, "user", content, None, None, [])], None)
  }

  function Settle(v: View, thrown: bool, end: StreamEnd): View {
    var status := if thrown || end.OtherError? then Faulted else if end.AbortError? then Idle else v.status;
    v.(status := if status == Streaming then Faulted else status, text := "", citations := [])
  }

  function Sent(c: Codec, items: seq<Shown>, tempId: string, content: string, events: seq<SseEvent>,
      end: StreamEnd): View {
    var (v, thrown) := Reduce(c, Started(items, tempId, content), tempId, events);
    Settle(v, thrown, end)
  }

  class ChatStream {
    var status: ChatStatus
    var streamingText: string
    var streamingCitations: seq<Citation>
    var items: seq<Shown>

    method Send(c: Codec, tempId: string, content: string, events: seq<SseEvent>, end: StreamEnd)
      modifies this
      ensures var v := Sent(c, old(items), tempId, content, events, end);
              status == v.status && streamingText == v.text && streamingCitations == v.citations && items == v.items
      ensures status != Streaming
    {
      status, streamingText, streamingCitations := Streaming, "", [];
      items := items + [Shown(tempId, "user", content, None, None, [])];
      var assistantId: Option<string> := None;
      ghost var first := Started(old(items), tempId, content);
      var thrown, k := false, 0;
      while k < |events| && !thrown
        invariant 0 <= k <= |events|
        invariant Reduce(c, first, tempId, events[..k])
            == (View(status, streamingText, streamingCitations, items, assistantId), thrown)
      {
        assert events[..k + 1][..k] == events[..k];
        var ev := events[k];
        k := k + 1;
        if ev.event !in KNOWN {
          continue;
        }
        match c.parse(ev.event, ev.data) {
          case None => thrown := true;
          case Some(MessageStart(userId, id)) =>
            assistantId := Some(id);
            items := Rename(items, tempId, userId);
          case Some(Citations(sources)) => streamingCitations := sources;
          case Some(Delta(text)) => streamingText := streamingText + text;
          case Some(DoneEvent(messageId, _, tokensIn, tokensOut)) =>
            items := items
              + [Shown(assistantId.GetOr(messageId), "assistant", streamingText, tokensIn, tokensOut,
                  streamingCitations)];
            status := Finished;
          case Some(ErrorEvent(_)) => status := Faulted;
        }
      }
      ThrownStays(c, first, tempId, events, k);
      if thrown {
        status := Faulted;
      } else if end.AbortError? {
        status := Idle;
      } else if end.OtherError? {
        status := Faulted;
      }
      if status == Streaming {
        status := Faulted;
      }
      streamingText, streamingCitations := "", [];
    }
  }

  lemma {:induction false} ThrownStays(c: Codec, v: View, tempId: string, events: seq<SseEvent>, k: nat)
    requires k <= |events| && (k == |events| || Reduce(c, v, tempId, events[..k]).1)
    ensures Reduce(c, v, tempId, events) == Reduce(c, v, tempId, events[..k])
  {
    if k < |events| {
      var n := |events| - 1;
      if k < n { assert events[..n][..k] == events[..k]; }
      ThrownStays(c, v, tempId, events[..n], k);
    } else {
      assert events[..k] == events;
    }
  }

  // --- how a send ends, read off what was received ---------------------------

  function OnlyKnown(events: seq<SseEvent>): seq<SseEvent> {
    if events == [] then []
    else
      var n := |events| - 1;
      OnlyKnown(events[..n]) + if events[n].event in KNOWN then [events[n]] else []
  }

  /** Events of a name the client does not know make no difference. */
  lemma {:induction false} UnknownIsIgnored(c: Codec, v: View, tempId: string, events: seq<SseEvent>)
    ensures Reduce(c, v, tempId, events) == Reduce(c, v, tempId, OnlyKnown(events))
  {
    if events != [] {
      var n := |events| - 1;
      UnknownIsIgnored(c, v, tempId, events[..n]);
      if events[n].event in KNOWN {
        assert OnlyKnown(events)[..|OnlyKnown(events[..n])|] == OnlyKnown(events[..n]);
      } else {
        assert OnlyKnown(events) == OnlyKnown(events[..n]);
      }
    }
  }

  /** Event `i` is of a known name and does not parse. */
  predicate Unreadable(c: Codec, e: SseEvent) { e.event in KNOWN && c.parse(e.event, e.data).None? }

  /** The last done or error among the events. */
  function LastWord(c: Codec, events: seq<SseEvent>): Option<Event> {
    if events == [] then None
    else
      var n := |events| - 1;
      var e := if events[n].event in KNOWN then c.parse(events[n].event, events[n].data) else None;
      if e.Some? && e.value.Terminal() then e else LastWord(c, events[..n])
  }

  lemma {:induction false} ReduceStatus(c: Codec, v: View, tempId: string, events: seq<SseEvent>)
    requires v.status == Streaming
    ensures var (u, thrown) := Reduce(c, v, tempId, events);
            && (thrown <==> exists i :: 0 <= i < |events| && Unreadable(c, events[i]))
            && (!thrown ==> u.status == match LastWord(c, events)
                                        case None => Streaming
                                        case Some(e) => if e.DoneEvent? then Finished else Faulted)
  {
    if events != [] {
      var n := |events| - 1;
      ReduceStatus(c, v, tempId, events[..n]);
      assert forall i | 0 <= i < n :: events[..n][i] == events[i];
    }
  }

  /**
   * However a send ends, it leaves no streaming text behind. An event that cannot be read, or a failure
   * other than an abort, ends it in error; an abort leaves the client idle; and a stream that just ends is
   * finished exactly if its last done or error event is a done.
   */
  lemma {:induction false} SendEndsIn(c: Codec, items: seq<Shown>, tempId: string, content: string,
      events: seq<SseEvent>, end: StreamEnd)
    ensures var v := Sent(c, items, tempId, content, events, end);
            && v.text == "" && v.citations == []
            && v.status == if (exists i :: 0 <= i < |events| && Unreadable(c, events[i]))
                || end.OtherError? then Faulted
                           else if end.AbortError? then Idle
                           else if LastWord(c, events).Some? && LastWord(c, events).value.DoneEvent? then Finished
                           else Faulted
  {
    ReduceStatus(c, Started(items, tempId, content), tempId, events);
  }
}
