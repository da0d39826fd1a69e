/** What the ingestion protocol guarantees, and exactly where it does not. */
module IngestionResults {
  import opened Text
  import opened Tokens
  import opened Documents
  import opened Ingestion
  import opened IngestionSafety

  // --- a ready document ------------------------------------------------------

  lemma {:induction false} BatchesToFinish(n: nat, batches: nat, batch: nat)
    requires batch >= 1 && n <= batches * batch && (batches > 0 ==> (batches - 1) * batch < n)
    ensures batches == CeilDiv(n, batch)
  {
    var q := CeilDiv(n, batch);
    assert (n + batch - 1) == q * batch + (n + batch - 1) % batch;
    if batches < q {
      assert q * batch == (q - 1) * batch + batch;
      MulMonotone(batches, q - 1, batch);
    } else if batches > q {
      MulMonotone(q, batches - 1, batch);
    }
  }

  lemma {:induction false} MulMonotone(a: nat, b: nat, c: nat)
    requires a <= b
    ensures a * c <= b * c
  {
  }

  /**
   * However the run went, a ready document holds exactly the chunks of the parsed upload, in order,
   * every one embedded and versioned, after exactly as many batches as that takes.
   */
  lemma {:induction false} ReadyIsComplete(env: Env, w: World)
    requires env.batch >= 1 && Reachable(env, w) && w.status == Some(Ready)
    ensures Target(env).Some?
    ensures w.chunks == RowsUpTo(env, Target(env).value, |Target(env).value|)
    ensures w.batches == CeilDiv(|w.chunks|, env.batch)
  {
    ReachableIsSound(env, w);
    BatchesToFinish(|w.chunks|, w.batches, env.batch);
  }

  /** From a ready document, exactly a deletion and a commit of a request still in flight leave `ready`. */
  lemma {:induction false} WhatEndsReady(env: Env, w: World, l: Label)
    requires env.batch >= 1 && Reachable(env, w) && w.status == Some(Ready) && Enabled(env, w, l)
    ensures Next(env, w, l).status != Some(Ready) <==> l.Delete? || l.Enter? || l.SendFails?
    ensures !l.Delete? ==> Next(env, w, l).chunks == w.chunks
    ensures w.requests == [] && !l.Delete? ==> Next(env, w, l).requests == []
  {
    ReachableIsSound(env, w);
  }

  lemma {:induction false} ReachableOn(env: Env, w: World, run: seq<Label>)
    requires Reachable(env, w) && Exec(env, w, run).Some?
    ensures Reachable(env, Exec(env, w, run).value)
  {
    var before :| Exec(env, INITIAL, before) == Some(w);
    ExecAppend(env, INITIAL, before, run);
  }

  /** With no request in flight, a ready document stays ready, with the same chunks, until it is deleted. */
  lemma {:induction false} ReadyStays(env: Env, w: World, run: seq<Label>)
    requires env.batch >= 1 && Reachable(env, w) && w.status == Some(Ready) && w.requests == []
    requires Exec(env, w, run).Some? && Delete !in run
    ensures var v := Exec(env, w, run).value; v.status == Some(Ready) && v.chunks == w.chunks && v.requests == []
  {
    if run != [] {
      var n := |run| - 1;
      ReadyStays(env, w, run[..n]);
      ReachableOn(env, w, run[..n]);
      assert run[n] in run;
      WhatEndsReady(env, Exec(env, w, run[..n]).value, run[n]);
    }
  }

  // --- the failure-free run --------------------------------------------------

  lemma {:induction false} Then(env: Env, w: World, run: seq<Label>, l: Label)
    requires Exec(env, w, run).Some? && Enabled(env, Exec(env, w, run).value, l)
    ensures Exec(env, w, run + [l]) == Some(Next(env, Exec(env, w, run).value, l))
  {
    assert (run + [l])[..|run|] == run;
  }

  /** The steps of a run in which nothing goes wrong and nobody interferes. */
  predicate Faultless(l: Label) {
    || l.Send? || l.Deliver?
    || l in {Claim, WriteNormalized, SucceedParse, SucceedChunk, EmbedBatch, SucceedEmbed, Enqueue}
  }

  predicate AllFaultless(run: seq<Label>) { forall i | 0 <= i < |run| :: Faultless(run[i]) }

  /** A document waiting for its parse message, with the message in the queue. */
  predicate WaitsForParse(env: Env, w: World, m: Message) {
    && (w.status == Some(Pending) || w.status == Some(Failed)) && w.live.None? && w.hasOriginal
    && m in w.sent && m.stage == ParseStage && env.parse(env.original).Some?
  }

  lemma {:induction false} ParseThrough(env: Env, w: World, m: Message) returns (run: seq<Label>, v: World)
    requires WaitsForParse(env, w, m)
    ensures Exec(env, w, run) == Some(v) && v.requests == w.requests && v.live.None? && v.status == Some(Chunking)
    ensures v.sent == w.sent + {Message(ChunkStage, 0)} && v.normalized == Some(Whole(env.parse(env.original).value))
    ensures Deliver(m) in run
    ensures v.jobs == w.jobs[ParseStage := Succeeded] && v.hasOriginal == w.hasOriginal
    ensures AllFaultless(run)
  {
    var first, u := ClaimThrough(env, w, m);
    var rest;
    rest, v := ParseCommits(env, u);
    ExecAppend(env, w, first, rest);
    run := first + rest;
    assert w.jobs[ParseStage := Running][ParseStage := Succeeded] == w.jobs[ParseStage := Succeeded];
  }

  lemma {:induction false} ParseCommits(env: Env, w: World) returns (run: seq<Label>, v: World)
    requires At(w, ParseStage, Claimed) && w.status.Some? && w.hasOriginal && env.parse(env.original).Some?
    ensures run == [WriteNormalized, SucceedParse, Enqueue] && Exec(env, w, run) == Some(v)
    ensures v == w.(normalized := Some(Whole(env.parse(env.original).value)), status := Some(Chunking), live := None,
                    jobs := w.jobs[ParseStage := Succeeded], sent := w.sent + {Message(ChunkStage, 0)})
  {
    run, v := Extend(env, w, [], w, WriteNormalized);
    run, v := Extend(env, w, run, v, SucceedParse);
    run, v := Extend(env, w, run, v, Enqueue);
  }

  lemma {:induction false} ChunkThrough(env: Env, w: World, m: Message) returns (run: seq<Label>, v: World)
    requires (w.status == Some(Chunking) || w.status == Some(Failed)) && w.live.None? && m in w.sent
        && m.stage == ChunkStage
    requires w.normalized.Some? && w.normalized.value.Whole?
    ensures Exec(env, w, run) == Some(v) && v.requests == w.requests && v.live.None? && v.status == Some(Embedding)
    ensures v.sent == w.sent + {Message(EmbedStage, 0)} && v.chunks == FreshRows(env.chunk(w.normalized.value.doc))
    ensures Deliver(m) in run && AllFaultless(run)
  {
    run := [];
    v := w;
    run, v := Extend(env, w, run, v, Deliver(m));
    run, v := Extend(env, w, run, v, Claim);
    run, v := Extend(env, w, run, v, SucceedChunk);
    run, v := Extend(env, w, run, v, Enqueue);
  }

  /** An embed message brings its document from any embedded prefix to `ready`. */
  lemma {:induction false} EmbedMessageThrough(env: Env, w: World, m: Message, drafts: seq<ChunkDraft>, k: nat)
      returns (run: seq<Label>, v: World)
    requires env.batch >= 1 && (w.status == Some(Embedding) || w.status == Some(Failed))
    requires w.live.None? && m in w.sent && m.stage == EmbedStage
    requires k <= |drafts| && w.chunks == RowsUpTo(env, drafts, k)
    ensures Exec(env, w, run) == Some(v) && v.requests == w.requests && v.live.None? && v.status == Some(Ready)
    ensures v.chunks == RowsUpTo(env, drafts, |drafts|) && AllFaultless(run)
  {
    var first, u := ClaimThrough(env, w, m);
    var rest;
    rest, v := EmbedThrough(env, u, drafts, k);
    ExecAppend(env, w, first, rest);
    run := first + rest;
  }

  /** The embedding loop: from any embedded prefix, the remaining batches lead to `ready`. */
  lemma {:induction false} EmbedThrough(env: Env, w: World, drafts: seq<ChunkDraft>, k: nat)
      returns (run: seq<Label>, v: World)
    requires env.batch >= 1 && At(w, EmbedStage, Claimed) && w.status.Some?
    requires k <= |drafts| && w.chunks == RowsUpTo(env, drafts, k)
    ensures Exec(env, w, run) == Some(v) && v.requests == w.requests && v.live.None? && v.status == Some(Ready)
    ensures v.chunks == RowsUpTo(env, drafts, |drafts|) && AllFaultless(run)
    decreases |drafts| - k
  {
    BatchLengthensPrefix(env, drafts, k);
    if k == |drafts| {
      run, v := Extend(env, w, [], w, SucceedEmbed);
    } else {
      var first, u := Extend(env, w, [], w, EmbedBatch);
      var rest;
      rest, v := EmbedThrough(env, u, drafts, Min(|drafts|, k + env.batch));
      run := first + rest;
      ExecAppend(env, w, first, rest);
    }
  }

  lemma {:induction false} Extend(env: Env, w: World, run: seq<Label>, v: World, l: Label)
      returns (longer: seq<Label>, u: World)
    requires Exec(env, w, run) == Some(v) && Enabled(env, v, l)
    ensures longer == run + [l] && u == Next(env, v, l) && Exec(env, w, longer) == Some(u)
  {
    longer, u := run + [l], Next(env, v, l);
    Then(env, w, run, l);
  }

  /**
   * A run without faults makes a document waiting for its parse message ready, with the chunks of
   * the parsed upload.
   */
  lemma {:induction false} FailureFreeRunIsReady(env: Env, w: World, m: Message) returns (run: seq<Label>, v: World)
    requires env.batch >= 1 && WaitsForParse(env, w, m)
    ensures Exec(env, w, run) == Some(v) && v.status == Some(Ready) && v.requests == w.requests && v.live.None?
    ensures v.chunks == RowsUpTo(env, Target(env).value, |Target(env).value|) && AllFaultless(run)
  {
    var run1, v1 := ParseThrough(env, w, m);
    var run2, v2 := ChunkThrough(env, v1, Message(ChunkStage, 0));
    FreshIsUnembedded(env, Target(env).value);
    var run3;
    run3, v := EmbedMessageThrough(env, v2, Message(EmbedStage, 0), Target(env).value, 0);
    ExecAppend(env, v1, run2, run3);
    ExecAppend(env, w, run1, run2 + run3);
    run := run1 + (run2 + run3);
  }

  // --- where "ready until deleted" fails -------------------------------------

  /**
   * The upload's queueing reports an error though the message went out, and the user asks twice for
   * a retry before the worker gets to it: the second request's commit takes the status back from ready.
   */
  lemma {:induction false} StaleRequestUndoesReady(env: Env) returns (rest: seq<Label>, w: World, v: World)
    requires env.batch >= 1 && env.parse(env.original).Some?
    ensures AllFaultless(rest)
    ensures Exec(env, INITIAL, [SendFails(0, true), Begin, Begin, Choose(1)] + rest) == Some(w)
        && w.status == Some(Ready)
    ensures Enabled(env, w, Enter(1)) && v == Next(env, w, Enter(1)) && v.status == Some(Pending)
  {
    var run, u := Extend(env, INITIAL, [], INITIAL, SendFails(0, true));
    run, u := Extend(env, INITIAL, run, u, Begin);
    run, u := Extend(env, INITIAL, run, u, Begin);
    run, u := Extend(env, INITIAL, run, u, Choose(1));
    assert run == [SendFails(0, true), Begin, Begin, Choose(1)];
    rest, w := FailureFreeRunIsReady(env, u, Message(ParseStage, 0));
    ExecAppend(env, INITIAL, run, rest);
    v := Next(env, w, Enter(1));
  }

  // --- retries ---------------------------------------------------------------

  /**
   * The commits of a restart: find the document failed, choose the stage, commit its entry status,
   * queue its message or give up.
   */
  function RestartScript(w: World, queued: bool, delivered: bool): seq<Label> {
    var n := |w.requests|;
    [Begin, Choose(n), Enter(n), if queued then Send(n) else SendFails(n, delivered)]
  }

  lemma {:induction false} RestartRuns(env: Env, w: World, queued: bool, delivered: bool)
    requires w.status == Some(Failed)
    ensures var stage := RestartStage(w.jobs);
            Exec(env, w, RestartScript(w, queued, delivered))
            == Some(w.(status := Some(if queued then EntryStatus(stage) else Failed),
                       sent := if queued || delivered then w.sent + {Message(stage, 0)} else w.sent))
  {
    var run, u := EnteredStage(env, w);
    var longer, v := Extend(env, w, run, u, if queued then Send(|w.requests|) else SendFails(|w.requests|, delivered));
    assert Forget(u.requests, |w.requests|) == w.requests;
    assert longer == RestartScript(w, queued, delivered);
  }

  lemma {:induction false} EnteredStage(env: Env, w: World) returns (run: seq<Label>, v: World)
    requires w.status == Some(Failed)
    ensures var n, stage := |w.requests|, RestartStage(w.jobs);
            && run == [Begin] + [Choose(n)] + [Enter(n)] && Exec(env, w, run) == Some(v)
            && v == w.(requests := w.requests + [Entered(stage)], status := Some(EntryStatus(stage)))
  {
    var n, stage := |w.requests|, RestartStage(w.jobs);
    run, v := Extend(env, w, [], w, Begin);
    run, v := Extend(env, w, run, v, Choose(n));
    assert (w.requests + [Found])[n := Chosen(stage)] == w.requests + [Chosen(stage)];
    assert v == w.(requests := w.requests + [Chosen(stage)]);
    run, v := Extend(env, w, run, v, Enter(n));
    assert (w.requests + [Chosen(stage)])[n := Entered(stage)] == w.requests + [Entered(stage)];
  }

  lemma {:induction false} ClaimThrough(env: Env, w: World, m: Message) returns (run: seq<Label>, v: World)
    requires w.live.None? && m in w.sent && w.status.Some? && w.status.value in AllowedFrom(m.stage)
    ensures run == [Deliver(m), Claim] && Exec(env, w, run) == Some(v)
    ensures At(v, m.stage, Claimed) && v.status == Some(Working(m.stage)) && v.chunks == w.chunks
    ensures v == Next(env, Next(env, w, Deliver(m)), Claim) && v.requests == w.requests
  {
    run, v := Extend(env, w, [], w, Deliver(m));
    run, v := Extend(env, w, run, v, Claim);
  }

  /** No message is ever queued with more retries than its stage, or the runner, allows: never a fourth. */
  lemma {:induction false} RetriesAreBounded(env: Env, w: World, m: Message)
    requires env.batch >= 1 && Reachable(env, w) && m in w.sent
    ensures m.retries <= MaxRetries(m.stage) && m.retries <= RUNNER_CEILING
  {
    ReachableIsSound(env, w);
  }

  /** After `j` committed batches exactly the first `min(n, j * batch)` chunks are embedded, at every moment. */
  lemma {:induction false} EmbeddedArePrefix(env: Env, w: World, i: nat)
    requires env.batch >= 1 && Reachable(env, w) && i < |w.chunks|
    ensures w.chunks[i].embedding.Some? <==> i < Min(|w.chunks|, w.batches * env.batch)
    ensures w.chunks[i].embedding.Some? ==>
              w.chunks[i].embedding.value == env.embed(w.chunks[i].draft.text)
                  && w.chunks[i].version == Some(env.version)
  {
    ReachableIsSound(env, w);
    assert w.chunks == RowsUpTo(env, DraftsOf(w.chunks), Done(env, w));
  }

  // --- the document left behind in `parsing` ---------------------------------

  /** In `parsing`, with no attempt past its claim and no request in flight. */
  predicate Stranded(w: World) {
    w.status == Some(Parsing) && w.requests == [] && (w.live.Some? ==> w.live.value.at == Start)
  }

  /** Nothing but deletion moves a stranded document: no stage's claim accepts `parsing`. */
  lemma {:induction false} StrandedStep(env: Env, w: World, l: Label)
    requires Stranded(w) && Enabled(env, w, l) && l != Delete
    ensures Stranded(Next(env, w, l))
  {
  }

  lemma {:induction false} StrandedStays(env: Env, w: World, run: seq<Label>)
    requires Stranded(w) && Exec(env, w, run).Some? && Delete !in run
    ensures Stranded(Exec(env, w, run).value)
  {
    if run != [] {
      assert run[|run| - 1] in run;
      StrandedStays(env, w, run[..|run| - 1]);
      StrandedStep(env, Exec(env, w, run[..|run| - 1]).value, run[|run| - 1]);
    }
  }

  /** A parse attempt strands its document exactly when its worker dies or a transient error is retried. */
  lemma {:induction false} WhatStrands(env: Env, w: World, l: Label)
    requires w.status == Some(Parsing) && w.requests == []
    requires w.live.Some? && w.live.value.stage == ParseStage && w.live.value.at in {Claimed, Written, Broken}
    requires Enabled(env, w, l)
    ensures Stranded(Next(env, w, l)) <==> l.Crash? || (l.Transient? && w.live.value.retries < MaxRetries(ParseStage))
  {
  }

  /** One transient storage error in the first parse attempt, and no other fault, already strands the document. */
  lemma {:induction false} TransientParseErrorStrands(env: Env) returns (w: World)
    ensures Exec(env, INITIAL, [Send(0), Deliver(Message(ParseStage, 0)), Claim, Transient(true)]) == Some(w)
    ensures Stranded(w) && w.sent == {Message(ParseStage, 0), Message(ParseStage, 1)}
  {
    var run, u := Extend(env, INITIAL, [], INITIAL, Send(0));
    run, u := Extend(env, INITIAL, run, u, Deliver(Message(ParseStage, 0)));
    run, u := Extend(env, INITIAL, run, u, Claim);
    run, w := Extend(env, INITIAL, run, u, Transient(true));
    assert run == [Send(0), Deliver(Message(ParseStage, 0)), Claim, Transient(true)];
  }

  // --- the document left behind without a message ----------------------------

  /** Waiting for chunk or embed, with no message of that stage ever queued and nobody to queue one. */
  ghost predicate Stalled(w: World, stage: Stage) {
    && stage != ParseStage && w.status == Some(Working(stage)) && w.requests == [] && !Queued(w, stage)
    && (w.live.Some? ==> w.live.value.at == Start && w.live.value.stage != stage)
  }

  lemma {:induction false} StalledStep(env: Env, w: World, stage: Stage, l: Label)
    requires Stalled(w, stage) && Enabled(env, w, l) && l != Delete
    ensures Stalled(Next(env, w, l), stage)
  {
    assert l.Deliver? ==> l.message.stage != stage;
  }

  lemma {:induction false} StalledStays(env: Env, w: World, stage: Stage, run: seq<Label>)
    requires Stalled(w, stage) && Exec(env, w, run).Some? && Delete !in run
    ensures Stalled(Exec(env, w, run).value, stage)
  {
    if run != [] {
      assert run[|run| - 1] in run;
      StalledStays(env, w, stage, run[..|run| - 1]);
      StalledStep(env, Exec(env, w, run[..|run| - 1]).value, stage, run[|run| - 1]);
    }
  }

  /** After a final commit: the worker dies, or a retryable error meets retries left and the message is lost. */
  predicate LosesNext(w: World, l: Label) {
    || l.Crash?
    || ((l.Transient? || (l.EnqueueLost? && !l.delivered && l.retryable))
        && w.live.Some? && w.live.value.retries < MaxRetries(w.live.value.stage))
  }

  /**
   * When queueing the next stage fails with an error that counts as retryable and the message is lost,
   * the stage queues itself again instead of failing; its own claim then refuses, and nothing goes on.
   */
  lemma {:induction false} LostEnqueueStalls(env: Env, w: World)
    requires w.live.Some? && w.live.value.at == Committed && w.live.value.stage != EmbedStage
    requires var next := NextStage(w.live.value.stage);
             w.status == Some(Working(next)) && w.requests == [] && !Queued(w, next)
    ensures forall l | Enabled(env, w, l) ::
      Stalled(Next(env, w, l), NextStage(w.live.value.stage)) <==> LosesNext(w, l)
  {
    forall l | Enabled(env, w, l) && !l.Begin? && !l.Deliver?
      ensures Stalled(Next(env, w, l), NextStage(w.live.value.stage)) <==> LosesNext(w, l)
    {
      if l.Enqueue? || (l.EnqueueLost? && l.delivered) {
        assert Message(NextStage(w.live.value.stage), 0) in Next(env, w, l).sent;
      }
    }
  }

  lemma {:induction false} WaitingHasInputs(env: Env, w: World, m: Message)
    requires env.batch >= 1 && Reachable(env, w) && m in w.sent && w.status.Some?
    ensures m.stage == ChunkStage ==> w.normalized.Some?
    ensures m.stage == EmbedStage
        ==> Done(env, w) <= |DraftsOf(w.chunks)| && w.chunks == RowsUpTo(env, DraftsOf(w.chunks), Done(env, w))
  {
    ReachableIsSound(env, w);
    assert Queued(w, m.stage);
  }

  /**
   * As long as a chunk or embed message exists for a document waiting for that stage, it can still
   * become ready. If the normalised document is torn, the message alone does not suffice: the run then
   * has the parse message delivered once more.
   */
  lemma {:induction false} WaitingCanFinish(env: Env, w: World, m: Message) returns (run: seq<Label>, v: World)
    requires env.batch >= 1 && Reachable(env, w) && w.live.None? && m in w.sent && m.stage != ParseStage
    requires w.status == Some(Working(m.stage)) || w.status == Some(Failed)
    ensures Exec(env, w, run) == Some(v) && v.status == Some(Ready)
  {
    WaitingHasInputs(env, w, m);
    ReachableIsSound(env, w);
    ReachableHasProvenance(env, w);
    var drafts, k := DraftsOf(w.chunks), Done(env, w);
    if m.stage == EmbedStage {
      assert w.status == Some(Embedding) || w.status == Some(Failed);
      run, v := EmbedMessageThrough(env, w, m, drafts, k);
    } else {
      assert w.status == Some(Chunking) || w.status == Some(Failed);
      if w.normalized.value.Torn? {
        run, v := ParseAgainThrough(env, w, m);
      } else {
        run, v := ChunkMessageThrough(env, w, m);
      }
    }
  }

  /** A torn document: the chunk stage fails, and a parse message that comes again starts over. */
  lemma {:induction false} ParseAgainThrough(env: Env, w: World, m: Message) returns (run: seq<Label>, v: World)
    requires env.batch >= 1 && (w.status == Some(Chunking) || w.status == Some(Failed)) && w.live.None?
    requires m in w.sent && m.stage == ChunkStage && Queued(w, ParseStage) && w.hasOriginal
        && env.parse(env.original).Some?
    ensures Exec(env, w, run) == Some(v) && v.status == Some(Ready)
  {
    var parse :| parse in w.sent && parse.stage == ParseStage;
    var first, u := Extend(env, w, [], w, Deliver(m));
    first, u := Extend(env, w, first, u, Claim);
    first, u := Extend(env, w, first, u, Permanent);
    var rest;
    rest, v := FailureFreeRunIsReady(env, u, parse);
    ExecAppend(env, w, first, rest);
    run := first + rest;
  }

  lemma {:induction false} ChunkMessageThrough(env: Env, w: World, m: Message) returns (run: seq<Label>, v: World)
    requires env.batch >= 1 && (w.status == Some(Chunking) || w.status == Some(Failed)) && w.live.None?
    requires m in w.sent && m.stage == ChunkStage && w.normalized.Some? && w.normalized.value.Whole?
    ensures Exec(env, w, run) == Some(v) && v.status == Some(Ready)
  {
    var first, u := ChunkThrough(env, w, m);
    var drafts, rest := env.chunk(w.normalized.value.doc), [];
    FreshIsUnembedded(env, drafts);
    rest, v := EmbedMessageThrough(env, u, Message(EmbedStage, 0), drafts, 0);
    ExecAppend(env, w, first, rest);
    run := first + rest;
  }

  // --- the document left behind when a retry is refused ----------------------

  /** In the entry status of a stage with no attempt running and no request in flight. */
  predicate Idle(w: World, stage: Stage) {
    w.status == Some(EntryStatus(stage)) && w.live.None? && w.requests == []
  }

  /** Only the delivery of an old message, or deletion, moves an idle document: a retry wants `failed`. */
  lemma {:induction false} IdleStays(env: Env, w: World, stage: Stage, run: seq<Label>)
    requires Idle(w, stage) && Exec(env, w, run).Some? && Delete !in run
    requires forall i | 0 <= i < |run| :: !run[i].Deliver?
    ensures Idle(Exec(env, w, run).value, stage)
  {
    if run != [] {
      assert run[|run| - 1] in run;
      IdleStays(env, w, stage, run[..|run| - 1]);
    }
  }

  /** A faultless run of a new document up to the queueing of its embed message. */
  lemma {:induction false} UpToEmbedding(env: Env) returns (run: seq<Label>, w: World)
    requires Target(env).Some?
    ensures Exec(env, INITIAL, run) == Some(w) && Idle(w, EmbedStage) && w.chunks == FreshRows(Target(env).value)
    ensures w.sent == {Message(ParseStage, 0), Message(ChunkStage, 0), Message(EmbedStage, 0)}
    ensures Deliver(Message(ParseStage, 0)) in run && Deliver(Message(ChunkStage, 0)) in run && AllFaultless(run)
  {
    var first, u := Extend(env, INITIAL, [], INITIAL, Send(0));
    assert u.requests == [];
    var parse, v := ParseThrough(env, u, Message(ParseStage, 0));
    var chunk;
    chunk, w := ChunkThrough(env, v, Message(ChunkStage, 0));
    ExecAppend(env, INITIAL, first, parse);
    ExecAppend(env, INITIAL, first + parse, chunk);
    run := first + parse + chunk;
  }

  /** One delivery of an embed message that meets a retryable provider error at its first batch. */
  lemma {:induction false} EmbedAttemptFails(env: Env, w: World, r: nat) returns (run: seq<Label>, v: World)
    requires Idle(w, EmbedStage) && Message(EmbedStage, r) in w.sent && r <= RUNNER_CEILING
    ensures Exec(env, w, run) == Some(v) && Idle(v, EmbedStage) && v.chunks == w.chunks
    ensures v.sent == w.sent + if r < RUNNER_CEILING then {Message(EmbedStage, r + 1)} else {}
    ensures run == ProviderError(r)
  {
    var m := Message(EmbedStage, r);
    var u;
    run, u := ClaimThrough(env, w, m);
    ClaimedEmbed(env, w, m);
    run, v := Extend(env, w, run, u, Transient(true));
  }

  lemma {:induction false} ClaimedEmbed(env: Env, w: World, m: Message)
    requires Idle(w, EmbedStage) && m in w.sent && m.stage == EmbedStage
    ensures Next(env, Next(env, w, Deliver(m)), Claim)
         == w.(live := Some(Attempt(EmbedStage, m.retries, Claimed)), jobs := w.jobs[EmbedStage := Running])
  {
  }

  /** The steps of an embed attempt that meets a retryable provider error at its first batch. */
  function ProviderError(r: nat): seq<Label> { [Deliver(Message(EmbedStage, r)), Claim, Transient(true)] }

  /** Such attempts from the `r`-th retry on, up to the one that the runner's ceiling makes the last. */
  function ProviderErrors(r: nat): seq<Label>
    requires r <= RUNNER_CEILING
    decreases RUNNER_CEILING - r
  {
    if r == RUNNER_CEILING then ProviderError(r) else ProviderError(r) + ProviderErrors(r + 1)
  }

  lemma {:induction false} EmbedAttemptsFail(env: Env, w: World, r: nat) returns (v: World)
    requires Idle(w, EmbedStage) && Message(EmbedStage, r) in w.sent && r <= RUNNER_CEILING
    ensures Exec(env, w, ProviderErrors(r)) == Some(v) && Idle(v, EmbedStage) && v.chunks == w.chunks
    ensures forall m | m in v.sent :: m in w.sent || Deliver(m) in ProviderErrors(r)
    ensures Deliver(Message(EmbedStage, r)) in ProviderErrors(r)
    decreases RUNNER_CEILING - r
  {
    var run;
    run, v := EmbedAttemptFails(env, w, r);
    assert ProviderError(r)[0] == Deliver(Message(EmbedStage, r));
    if r < RUNNER_CEILING {
      var u := EmbedAttemptsFail(env, v, r + 1);
      ExecAppend(env, w, run, ProviderErrors(r + 1));
      v := u;
    }
  }

  /**
   * After a faultless run up to the embed stage, four retryable provider errors in a row, and no other
   * fault, leave a document in `embedding` with every message consumed: the fourth retry, which the
   * stage's limit of five allows, is refused by the runner.
   */
  lemma {:induction false} FourProviderErrorsStrand(env: Env) returns (before: seq<Label>, w: World)
    requires env.batch >= 1 && Target(env).Some? && Target(env).value != []
    ensures AllFaultless(before) && Exec(env, INITIAL, before + ProviderErrors(0)) == Some(w)
    ensures ProviderErrors(0) == ProviderError(0) + (ProviderError(1) + (ProviderError(2) + ProviderError(3)))
    ensures Idle(w, EmbedStage) && w.chunks == FreshRows(Target(env).value)
    ensures forall m | m in w.sent :: Deliver(m) in before + ProviderErrors(0)
  {
    var u;
    before, u := UpToEmbedding(env);
    w := EmbedAttemptsFail(env, u, 0);
    ExecAppend(env, INITIAL, before, ProviderErrors(0));
    assert ProviderErrors(2) == ProviderError(2) + ProviderErrors(3);
  }
}
