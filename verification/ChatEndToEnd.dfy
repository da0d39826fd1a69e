/** From the provider's events to the message shown: server, wire and client together. */
module ChatEndToEnd {
  import opened Text
  import opened Sse
  import opened ChatTurn
  import opened ChatClient

  /**
   * What is assumed of JSON for the events sent: its text is one line without outer blanks, and
   * parsing inverts printing.
   */
  predicate SoundCodec(c: Codec, events: seq<Event>) {
    forall i | 0 <= i < |events| :: c.parse(Name(events[i]), c.dumps(events[i])) == Some(events[i])
        && Clean(c.dumps(events[i]))
  }

  function Encoded(c: Codec, events: seq<Event>): seq<SseEvent> { Map((e: Event) => Encode(c, e), events) }

  function ApplyAll(v: View, tempId: string, events: seq<Event>): View {
    if events == [] then v
    else Apply(ApplyAll(v, tempId, events[..|events| - 1]), tempId, events[|events| - 1])
  }

  lemma {:induction false} ReduceOne(c: Codec, v: View, tempId: string, events: seq<SseEvent>, e: Event)
    requires c.parse(Name(e), c.dumps(e)) == Some(e) && !Reduce(c, v, tempId, events).1
    ensures Reduce(c, v, tempId, events + [Encode(c, e)]) == (Apply(Reduce(c, v, tempId, events).0, tempId, e), false)
  {
    assert (events + [Encode(c, e)])[..|events|] == events;
  }

  lemma {:induction false} ReduceEncoded(c: Codec, v: View, tempId: string, events: seq<Event>)
    requires SoundCodec(c, events)
    ensures Reduce(c, v, tempId, Encoded(c, events)) == (ApplyAll(v, tempId, events), false)
  {
    if events != [] {
      var n := |events| - 1;
      ReduceEncoded(c, v, tempId, events[..n]);
      assert Encoded(c, events) == Encoded(c, events[..n]) + [Encode(c, events[n])];
      ReduceOne(c, v, tempId, Encoded(c, events[..n]), events[n]);
    }
  }

  /** The view follows the events: the text and citations sent so far, and the answer once done arrives. */
  predicate Follows(v: View, t: Turn, items: seq<Shown>, content: string, events: seq<Event>) {
    var asked := items + [Shown(t.userId, "user", content, None, None, [])];
    && v.text == TextSent(events) && v.citations == CitationsSent(events) && v.assistantId == Some(t.assistantId)
    && (!Ended(events) ==> v.status == Streaming && v.items == asked)
    && (Ended(events) && !Completed(events) ==> v.status == Faulted && v.items == asked)
    && (Completed(events) ==>
          var done := events[|events| - 1];
          && v.status == Finished
          && v.items == asked + [Shown(t.assistantId, "assistant", TextSent(events), done.tokensIn, done.tokensOut,
              CitationsSent(events))])
  }

  lemma {:induction false} RenameFresh(items: seq<Shown>, tempId: string, id: string, user: Shown)
    requires user.id == tempId && forall i | 0 <= i < |items| :: items[i].id != tempId
    ensures Rename(items + [user], tempId, id) == items + [user.(id := id)]
  {
  }

  lemma {:induction false} InOrderPrefix(events: seq<Event>, n: nat)
    requires InOrder(events) && 1 <= n < |events|
    ensures InOrder(events[..n]) && !Ended(events[..n]) && events[..n][0] == events[0]
  {
  }

  lemma {:induction false} LaterEvents(events: seq<Event>, n: nat)
    requires InOrder(events) && 1 <= n < |events|
    ensures !events[n].MessageStart? && (events[n].Citations? ==> n == 1)
  {
  }

  lemma {:induction false} ApplyAllSnoc(v: View, tempId: string, events: seq<Event>, e: Event)
    ensures ApplyAll(v, tempId, events + [e]) == Apply(ApplyAll(v, tempId, events), tempId, e)
  {
    assert (events + [e])[..|events|] == events;
  }

  lemma {:induction false} ViewStarts(t: Turn, items: seq<Shown>, tempId: string, content: string)
    requires forall i | 0 <= i < |items| :: items[i].id != tempId
    ensures var start := MessageStart(t.userId, t.assistantId);
            Follows(Apply(Started(items, tempId, content), tempId, start), t, items, content, [start])
  {
    var start := MessageStart(t.userId, t.assistantId);
    RenameFresh(items, tempId, t.userId, Shown(tempId, "user", content, None, None, []));
    TextSnoc([], start);
    assert [] + [start] == [start];
  }

  lemma {:induction false} ViewSteps(v: View, t: Turn, items: seq<Shown>, tempId: string, content: string,
      events: seq<Event>, e: Event)
    requires Follows(v, t, items, content, events) && !Ended(events) && events != []
    requires !e.MessageStart? && (e.Citations? ==> |events| == 1)
    ensures Follows(Apply(v, tempId, e), t, items, content, events + [e])
  {
    TextSnoc(events, e);
    assert |events| > 1 ==> (events + [e])[1] == events[1];
    assert (events + [e])[|events|] == e;
  }

  lemma {:induction false} ViewFollows(t: Turn, items: seq<Shown>, tempId: string, content: string, events: seq<Event>)
    requires InOrder(events) && events[0] == MessageStart(t.userId, t.assistantId)
    requires forall i | 0 <= i < |items| :: items[i].id != tempId
    ensures Follows(ApplyAll(Started(items, tempId, content), tempId, events), t, items, content, events)
  {
    var n := |events| - 1;
    if n == 0 {
      ViewStarts(t, items, tempId, content);
      assert events == [events[0]] && events[..0] == [];
    } else {
      var init, e, v := events[..n], events[n], Started(items, tempId, content);
      assert events == init + [e];
      InOrderPrefix(events, n);
      LaterEvents(events, n);
      ViewFollows(t, items, tempId, content, init);
      ApplyAllSnoc(v, tempId, init, e);
      ViewSteps(ApplyAll(v, tempId, init), t, items, tempId, content, init, e);
    }
  }

  // --- truncated wires -------------------------------------------------------

  /** `text` holds the first `k` frames, and then a proper part of the next one. */
  predicate BreaksOffIn(fs: seq<Frame>, text: string, k: nat) {
    && k <= |fs| && PrintAll(fs[..k]) <= text
    && var part := text[|PrintAll(fs[..k])|..];
       if k < |fs| then part <= Print(fs[k]) && part != Print(fs[k]) else part == ""
  }

  lemma {:induction false} OneFrameMore(fs: seq<Frame>, text: string, j: nat)
    requires fs != [] && BreaksOffIn(fs[1..], text, j)
    ensures BreaksOffIn(fs, Print(fs[0]) + text, j + 1)
  {
    var first, whole := Print(fs[0]), PrintAll(fs[1..][..j]);
    assert fs[..j + 1] == [fs[0]] + fs[1..][..j];
    assert PrintAll(fs[..j + 1]) == first + whole;
    assert (first + text)[|first + whole|..] == text[|whole|..];
  }

  lemma {:induction false} PrefixOfWire(fs: seq<Frame>, text: string) returns (k: nat)
    requires text <= PrintAll(fs)
    ensures BreaksOffIn(fs, text, k)
  {
    k := 0;
    assert PrintAll(fs[..0]) == "" && text[0..] == text;
    if fs != [] {
      var first := Print(fs[0]);
      assert PrintAll(fs) == first + PrintAll(fs[1..]);
      if |first| <= |text| {
        var rest := text[|first|..];
        assert text == first + rest;
        k := PrefixOfWire(fs[1..], rest);
        OneFrameMore(fs, rest, k);
        k := k + 1;
      }
    }
  }

  lemma {:induction false} EventsOfPrefix(fs: seq<Frame>, k: nat)
    requires k <= |fs|
    ensures EventsOf(fs[..k]) <= EventsOf(fs)
  {
    if k > 0 {
      EventsOfPrefix(fs[1..], k - 1);
      assert fs[..k][1..] == fs[1..][..k - 1];
    }
  }

  /** Reading any part of the wire from its start, in any pieces, gives the first events sent, in order. */
  lemma {:induction false} ReadsArePrefix(fs: seq<Frame>, received: seq<string>)
    requires AllClean(fs) && Concat(received) <= PrintAll(fs)
    ensures Events(Concat(received)) <= EventsOf(fs)
  {
    var text := Concat(received);
    var k := PrefixOfWire(fs, text);
    EventsOfPrefix(fs, k);
    assert text == PrintAll(fs[..k]) + text[|PrintAll(fs[..k])|..];
    if k < |fs| {
      TruncatedRoundTrip(fs[..k], fs[k], text[|PrintAll(fs[..k])|..]);
    } else {
      assert fs[..k] == fs;
      RoundTrip(fs, received);
    }
  }

  // --- end to end ------------------------------------------------------------

  /** The wire of a turn: its events in order, with heartbeats anywhere in between. */
  predicate WireOf(c: Codec, fs: seq<Frame>, events: seq<Event>) {
    EventsOf(fs) == Encoded(c, events)
  }

  lemma {:induction false} FramesCarryEvents(fs: seq<Frame>, i: nat)
    requires i < |fs| && fs[i].EventFrame?
    ensures exists j :: 0 <= j < |EventsOf(fs)| && EventsOf(fs)[j] == fs[i].ev
  {
    if i == 0 {
      assert EventsOf(fs)[0] == fs[0].ev;
    } else {
      FramesCarryEvents(fs[1..], i - 1);
      var j :| 0 <= j < |EventsOf(fs[1..])| && EventsOf(fs[1..])[j] == fs[i].ev;
      assert EventsOf(fs)[if fs[0].EventFrame? then j + 1 else j] == fs[i].ev;
    }
  }

  lemma {:induction false} NamesAreClean(e: Event)
    ensures Clean(Name(e))
  {
    StripFixpoint(IsJsSpace, Name(e));
  }

  lemma {:induction false} WireIsClean(c: Codec, fs: seq<Frame>, events: seq<Event>)
    requires SoundCodec(c, events) && WireOf(c, fs, events)
    ensures AllClean(fs)
  {
    forall i | 0 <= i < |fs| && fs[i].EventFrame? ensures CleanFrame(fs[i]) {
      FramesCarryEvents(fs, i);
      var j :| 0 <= j < |EventsOf(fs)| && EventsOf(fs)[j] == fs[i].ev;
      assert fs[i].ev == Encode(c, events[j]);
      NamesAreClean(events[j]);
    }
  }

  /** The cache has gained the question, and the answer as the database holds it. */
  predicate ShowsStored(v: View, t: Turn, items: seq<Shown>, content: string, rows: Rows) {
    && rows.assistant.Some? && !rows.assistant.value.partial
    && |v.items| == |items| + 2 && v.items[..|items|] == items
    && v.items[|items|] == Shown(t.userId, "user", content, None, None, [])
    && var m, row := v.items[|items| + 1], rows.assistant.value;
       && m.role == "assistant" && m.id == row.id && m.content == row.content
       && m.tokensIn == row.tokensIn && m.tokensOut == row.tokensOut
       && CitationRows(t, m.citations) == rows.citations
  }

  lemma {:induction false} SettledShows(t: Turn, s: Script, v: View, items: seq<Shown>, content: string, n: nat,
      end: StreamEnd)
    requires GoodOutcome(t, s, Reply(t, s)) && 1 <= n <= |Reply(t, s).events|
    requires Follows(v, t, items, content, Reply(t, s).events[..n])
    ensures Settle(v, false, end).status == Finished ==>
      Completed(Reply(t, s).events) && ShowsStored(Settle(v, false, end), t, items, content, Reply(t, s).rows)
  {
    var events := Reply(t, s).events;
    if n < |events| { InOrderPrefix(events, n); } else { assert events[..n] == events; }
  }

  /**
   * Whatever the provider, the database and the network do, and wherever the stream is cancelled or
   * cut off: `send` ends outside `streaming`; and if it ends in `done`, the message it appends has the
   * id, the content and the citations of the committed assistant row and its citation snapshots.
   */
  lemma {:induction false} DoneShowsWhatWasStored(
    t: Turn, s: Script, c: Codec, fs: seq<Frame>, received: seq<string>,
    items: seq<Shown>, tempId: string, content: string, end: StreamEnd)
    requires SoundCodec(c, Reply(t, s).events) && WireOf(c, fs, Reply(t, s).events) && Concat(received) <= PrintAll(fs)
    requires forall i | 0 <= i < |items| :: items[i].id != tempId
    ensures var v := Sent(c, items, tempId, content, Events(Concat(received)), end);
            && v.status != Streaming
            && (v.status == Finished
                ==> Completed(Reply(t, s).events) && ShowsStored(v, t, items, content, Reply(t, s).rows))
  {
    var events := Reply(t, s).events;
    EveryTurnIsGood(t, s);
    var n := SeenEvents(c, fs, received, events);
    SentIsSettled(c, items, tempId, content, events[..n], end);
    if n > 0 {
      SeenFollows(t, items, tempId, content, events, n);
      SettledShows(t, s, ApplyAll(Started(items, tempId, content), tempId, events[..n]), items, content, n, end);
    }
  }

  lemma {:induction false} SentIsSettled(c: Codec, items: seq<Shown>, tempId: string, content: string,
      seen: seq<Event>, end: StreamEnd)
    requires SoundCodec(c, seen)
    ensures Sent(c, items, tempId, content, Encoded(c, seen), end)
         == Settle(ApplyAll(Started(items, tempId, content), tempId, seen), false, end)
  {
    ReduceEncoded(c, Started(items, tempId, content), tempId, seen);
  }

  lemma {:induction false} SeenFollows(t: Turn, items: seq<Shown>, tempId: string, content: string,
      events: seq<Event>, n: nat)
    requires InOrder(events) && events[0] == MessageStart(t.userId, t.assistantId) && 1 <= n <= |events|
    requires forall i | 0 <= i < |items| :: items[i].id != tempId
    ensures Follows(ApplyAll(Started(items, tempId, content), tempId, events[..n]), t, items, content, events[..n])
  {
    if n < |events| { InOrderPrefix(events, n); } else { assert events[..n] == events; }
    ViewFollows(t, items, tempId, content, events[..n]);
  }

  /** The events the client has read are the first ones the server sent. */
  lemma {:induction false} SeenEvents(c: Codec, fs: seq<Frame>, received: seq<string>, events: seq<Event>)
      returns (n: nat)
    requires SoundCodec(c, events) && WireOf(c, fs, events) && Concat(received) <= PrintAll(fs)
    ensures n <= |events| && Events(Concat(received)) == Encoded(c, events[..n]) && SoundCodec(c, events[..n])
  {
    WireIsClean(c, fs, events);
    ReadsArePrefix(fs, received);
    n := |Events(Concat(received))|;
    assert Encoded(c, events)[..n] == Encoded(c, events[..n]);
  }

  /**
   * An uncancelled turn read to its end finishes in done exactly when its answer is stored in full
   * and the commit acknowledged.
   */
  lemma {:induction false} FullRunFinishes(
    t: Turn, s: Script, c: Codec, fs: seq<Frame>, received: seq<string>, items: seq<Shown>, tempId: string,
        content: string)
    requires SoundCodec(c, Reply(t, s).events) && WireOf(c, fs, Reply(t, s).events)
        && Concat(received) == PrintAll(fs) && s.cancel == Never
    requires forall i | 0 <= i < |items| :: items[i].id != tempId
    ensures var v := Sent(c, items, tempId, content, Events(Concat(received)), EndOfStream);
            v.status == if StoredInFull(Reply(t, s).rows) && s.acknowledged then Finished else Faulted
  {
    DoneIffStored(t, s);
    var events := Reply(t, s).events;
    EveryTurnIsGood(t, s);
    WireIsClean(c, fs, events);
    RoundTrip(fs, received);
    ReduceEncoded(c, Started(items, tempId, content), tempId, events);
    ViewFollows(t, items, tempId, content, events);
  }
}
