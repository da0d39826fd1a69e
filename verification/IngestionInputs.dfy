/** Whether the stage that a retry restarts finds its input: it does, except for the chunk stage after a torn write. */
module IngestionInputs {
  import opened Text
  import opened Ingestion
  import opened IngestionSafety
  import opened IngestionResults

  /** What the stage's method reads is there, and is what it should be. */
  ghost predicate HasInput(env: Env, w: World, stage: Stage) {
    match stage
    case ParseStage => w.hasOriginal
    case ChunkStage => env.parse(env.original).Some? && w.normalized == Some(Whole(env.parse(env.original).value))
    case EmbedStage => HasChunks(env, w)
  }

  // --- the last write decides ------------------------------------------------

  /** The last step of the run that touched the normalised document. */
  function LastWrite(run: seq<Label>): Option<Label> {
    if run == [] then None
    else if run[|run| - 1] in {WriteNormalized, TearNormalized, Purge} then Some(run[|run| - 1])
    else LastWrite(run[..|run| - 1])
  }

  lemma {:induction false} NothingWritten(run: seq<Label>, more: seq<Label>)
    requires forall i | 0 <= i < |more| :: more[i] !in {WriteNormalized, TearNormalized, Purge}
    ensures LastWrite(run + more) == LastWrite(run)
  {
    if more == [] {
      assert run + more == run;
    } else {
      var n := |more| - 1;
      NothingWritten(run, more[..n]);
      assert (run + more)[..|run| + n] == run + more[..n];
    }
  }

  predicate StoredBy(env: Env, write: Option<Label>, stored: Option<Stored>) {
    match write
    case Some(WriteNormalized) => env.parse(env.original).Some? && stored == Some(Whole(env.parse(env.original).value))
    case Some(TearNormalized) => stored == Some(Torn)
    case _ => stored == None
  }

  lemma {:induction false} WriteStores(env: Env, w: World, l: Label)
    requires Enabled(env, w, l)
    ensures if l in {WriteNormalized, TearNormalized, Purge} then StoredBy(env, Some(l), Next(env, w, l).normalized)
            else Next(env, w, l).normalized == w.normalized
  {
  }

  lemma {:induction false} StoredIsLastWrite(env: Env, run: seq<Label>)
    requires Exec(env, INITIAL, run).Some?
    ensures StoredBy(env, LastWrite(run), Exec(env, INITIAL, run).value.normalized)
  {
    if run != [] {
      var n := |run| - 1;
      StoredIsLastWrite(env, run[..n]);
      WriteStores(env, Exec(env, INITIAL, run[..n]).value, run[n]);
    }
  }

  /** The stage is queued, requested, being attempted, or would be picked by a retry. */
  ghost predicate Concerns(w: World, stage: Stage) {
    || Queued(w, stage) || Requested(w, stage) || stage == RestartStage(w.jobs)
    || (w.live.Some? && w.live.value.stage == stage)
  }

  /**
   * At every moment of every run, every stage that a message, a request or an attempt is for, or that a
   * retry would pick, has its input if and only if it is not the chunk stage after a write of the
   * normalised document that was cut short, however long after the stage was chosen that write came.
   */
  lemma {:induction false} InputsAreThere(env: Env, run: seq<Label>, stage: Stage)
    requires env.batch >= 1 && Exec(env, INITIAL, run).Some?
    requires var w := Exec(env, INITIAL, run).value; w.status.Some? && Concerns(w, stage)
    ensures HasInput(env, Exec(env, INITIAL, run).value, stage)
            <==> !(stage == ChunkStage && LastWrite(run) == Some(TearNormalized))
  {
    InitialIsSound(env);
    RunKeeps(env, INITIAL, run);
    StoredIsLastWrite(env, run);
  }

  /** So it is when a retry picks a stage, whose entry status its claim always accepts. */
  lemma {:induction false} RetryIsSound(env: Env, run: seq<Label>)
    requires env.batch >= 1 && Exec(env, INITIAL, run).Some? && Exec(env, INITIAL, run).value.status.Some?
    ensures var w := Exec(env, INITIAL, run).value;
            var stage := RestartStage(w.jobs);
            && (HasInput(env, w, stage) <==> !(stage == ChunkStage && LastWrite(run) == Some(TearNormalized)))
            && EntryStatus(stage) in AllowedFrom(stage)
  {
    InputsAreThere(env, run, RestartStage(Exec(env, INITIAL, run).value.jobs));
  }

  /** And so it is when an attempt has claimed its document and goes on to read. */
  lemma {:induction false} ClaimedStageHasInput(env: Env, run: seq<Label>, stage: Stage)
    requires env.batch >= 1 && Exec(env, INITIAL, run).Some?
    requires var w := Exec(env, INITIAL, run).value; w.status.Some? && At(w, stage, Claimed)
    ensures HasInput(env, Exec(env, INITIAL, run).value, stage)
            <==> !(stage == ChunkStage && LastWrite(run) == Some(TearNormalized))
  {
    InputsAreThere(env, run, stage);
  }

  /**
   * Whatever has happened since it was queued, a message that comes to a document in a status its stage
   * accepts is claimed, keeps the chunks, and finds its input under the same condition.
   */
  lemma {:induction false} MessageIsClaimed(env: Env, run: seq<Label>, m: Message)
    requires env.batch >= 1 && Exec(env, INITIAL, run).Some?
    requires var w := Exec(env, INITIAL, run).value;
             m in w.sent && w.live.None? && w.status.Some? && w.status.value in AllowedFrom(m.stage)
    ensures var w := Exec(env, INITIAL, run).value;
            && Exec(env, INITIAL, run + [Deliver(m), Claim]).Some?
            && var v := Exec(env, INITIAL, run + [Deliver(m), Claim]).value;
               && At(v, m.stage, Claimed) && v.chunks == w.chunks
               && (HasInput(env, v, m.stage) <==> !(m.stage == ChunkStage && LastWrite(run) == Some(TearNormalized)))
  {
    var more, v := ClaimThrough(env, Exec(env, INITIAL, run).value, m);
    ExecAppend(env, INITIAL, run, more);
    ClaimedStageHasInput(env, run + more, m.stage);
    NothingWritten(run, [Deliver(m), Claim]);
  }

  // --- when writes cannot hurt -----------------------------------------------

  /** A parse attempt between its claim and its final commit. */
  predicate Parses(w: World) {
    w.live.Some? && w.live.value.stage == ParseStage && w.live.value.at in {Claimed, Written, Broken}
  }

  /** No user request is in flight while a parse attempt works. */
  ghost predicate Quiet(env: Env, run: seq<Label>)
    requires Exec(env, INITIAL, run).Some?
  {
    forall k | 0 <= k <= |run| :: CalmAfter(env, run[..k])
  }

  ghost predicate CalmAfter(env: Env, run: seq<Label>) {
    var w := Exec(env, INITIAL, run); w.Some? && Parses(w.value) ==> w.value.requests == []
  }

  /** A torn document is one whose parse stage has failed, or that is in `parsing` with nobody to restart it. */
  predicate TearsAreFailures(w: World) {
    w.status.Some? ==> CalmlyParsing(w) && ParsedIsNotTorn(w) && (w.normalized == Some(Torn) ==> TearHandled(w))
  }

  predicate CalmlyParsing(w: World) { Parses(w) ==> w.status == Some(Parsing) && w.requests == [] }

  predicate ParsedIsNotTorn(w: World) {
    At(w, ParseStage, Written) || At(w, ParseStage, Committed) ==> w.normalized != Some(Torn)
  }

  predicate TearHandled(w: World) {
    || JobFailedAt(w.jobs, ParseStage)
    || (w.status == Some(Parsing) && w.requests == []
        && (w.live.Some? && w.live.value.at != Start ==> w.live.value.stage == ParseStage))
  }

  lemma {:induction false} CalmStep(env: Env, w: World, l: Label)
    requires TearsAreFailures(w) && Enabled(env, w, l)
    requires Parses(Next(env, w, l)) ==> Next(env, w, l).requests == []
    ensures TearsAreFailures(Next(env, w, l))
  {
    if w.status.Some? && Next(env, w, l).status.Some? {
      CalmParsingStep(env, w, l);
      NotTornStep(env, w, l);
      if w.normalized == Some(Torn) && Next(env, w, l).normalized == Some(Torn) { HandledStep(env, w, l); }
    }
  }

  lemma {:induction false} CalmParsingStep(env: Env, w: World, l: Label)
    requires w.status.Some? && CalmlyParsing(w) && Enabled(env, w, l) && Next(env, w, l).status.Some?
    requires Parses(Next(env, w, l)) ==> Next(env, w, l).requests == []
    ensures CalmlyParsing(Next(env, w, l))
  {
  }

  lemma {:induction false} NotTornStep(env: Env, w: World, l: Label)
    requires ParsedIsNotTorn(w) && Enabled(env, w, l)
    ensures ParsedIsNotTorn(Next(env, w, l))
  {
  }

  lemma {:induction false} HandledStep(env: Env, w: World, l: Label)
    requires w.status.Some? && CalmlyParsing(w) && ParsedIsNotTorn(w) && TearHandled(w) && Enabled(env, w, l)
    requires w.normalized == Some(Torn) == Next(env, w, l).normalized && Next(env, w, l).status.Some?
    requires Parses(Next(env, w, l)) ==> Next(env, w, l).requests == []
    ensures TearHandled(Next(env, w, l))
  {
    if JobFailedAt(w.jobs, ParseStage) {
      FailedParseStep(env, w, l);
    } else {
      StrandedTearStep(env, w, l);
    }
  }

  /** A failed parse job is taken up again by its claim only, which makes the document `parsing`. */
  lemma {:induction false} FailedParseStep(env: Env, w: World, l: Label)
    requires w.status.Some? && ParsedIsNotTorn(w) && JobFailedAt(w.jobs, ParseStage) && Enabled(env, w, l)
    requires w.normalized == Some(Torn) == Next(env, w, l).normalized && Next(env, w, l).status.Some?
    requires Parses(Next(env, w, l)) ==> Next(env, w, l).requests == []
    ensures TearHandled(Next(env, w, l))
  {
  }

  lemma {:induction false} StrandedTearStep(env: Env, w: World, l: Label)
    requires w.status == Some(Parsing) && w.requests == []
    requires w.live.Some? && w.live.value.at != Start ==> w.live.value.stage == ParseStage
    requires CalmlyParsing(w) && ParsedIsNotTorn(w) && Enabled(env, w, l)
    requires w.normalized == Some(Torn) == Next(env, w, l).normalized && Next(env, w, l).status.Some?
    ensures TearHandled(Next(env, w, l))
  {
  }

  lemma {:induction false} QuietRunKeeps(env: Env, run: seq<Label>)
    requires Exec(env, INITIAL, run).Some? && Quiet(env, run)
    ensures TearsAreFailures(Exec(env, INITIAL, run).value)
  {
    if run != [] {
      var n := |run| - 1;
      forall k | 0 <= k <= n ensures CalmAfter(env, run[..n][..k]) { assert run[..n][..k] == run[..k]; }
      QuietRunKeeps(env, run[..n]);
      assert run[..|run|] == run && CalmAfter(env, run[..|run|]);
      CalmStep(env, Exec(env, INITIAL, run[..n]).value, run[n]);
    }
  }

  /** If no request is ever in flight while a parse attempt works, every retry of a failed document finds its input. */
  lemma {:induction false} QuietRetryHasInput(env: Env, run: seq<Label>)
    requires env.batch >= 1 && Exec(env, INITIAL, run).Some? && Quiet(env, run)
    requires Exec(env, INITIAL, run).value.status == Some(Failed)
    ensures var w := Exec(env, INITIAL, run).value; HasInput(env, w, RestartStage(w.jobs))
  {
    QuietRunKeeps(env, run);
    RetryIsSound(env, run);
    StoredIsLastWrite(env, run);
  }

  predicate StoredWhole(w: World) { w.normalized.Some? && w.normalized.value.Whole? }

  /** A parse job that has succeeded, or is about to, has left the document whole. */
  predicate ParsedIsWhole(w: World) { w.status.Some? ==> SucceededIsWhole(w) && WorkingIsRunning(w) }

  predicate SucceededIsWhole(w: World) {
    && (ParseStage in w.jobs && w.jobs[ParseStage] == Succeeded ==> StoredWhole(w))
    && (At(w, ParseStage, Written) ==> StoredWhole(w))
  }

  predicate WorkingIsRunning(w: World) { Parses(w) ==> ParseStage in w.jobs && w.jobs[ParseStage] == Running }

  lemma {:induction false} RunParsedIsWhole(env: Env, run: seq<Label>)
    requires Exec(env, INITIAL, run).Some?
    ensures ParsedIsWhole(Exec(env, INITIAL, run).value)
  {
    if run != [] {
      RunParsedIsWhole(env, run[..|run| - 1]);
      ParsedStep(env, Exec(env, INITIAL, run[..|run| - 1]).value, run[|run| - 1]);
    }
  }

  lemma {:induction false} ParsedStep(env: Env, w: World, l: Label)
    requires ParsedIsWhole(w) && Enabled(env, w, l)
    ensures ParsedIsWhole(Next(env, w, l))
  {
    if w.status.Some? && Next(env, w, l).status.Some? {
      SucceededStep(env, w, l);
      RunningStep(env, w, l);
    }
  }

  lemma {:induction false} SucceededStep(env: Env, w: World, l: Label)
    requires w.status.Some? && SucceededIsWhole(w) && WorkingIsRunning(w) && Enabled(env, w, l)
    requires Next(env, w, l).status.Some?
    ensures SucceededIsWhole(Next(env, w, l))
  {
    WriteStores(env, w, l);
    SucceedsFromWritten(env, w, l);
    WrittenByWrite(env, w, l);
    if l == WriteNormalized || l == TearNormalized { WriteKeepsJobs(env, w, l); }
    if l == TearNormalized { assert w.jobs[ParseStage] == Running; }
  }

  /** The parse job succeeds, and an attempt has written, by the one step each. */
  lemma {:induction false} SucceedsFromWritten(env: Env, w: World, l: Label)
    requires Enabled(env, w, l) && Next(env, w, l).status.Some?
    ensures var jobs := Next(env, w, l).jobs;
            ParseStage in jobs && jobs[ParseStage] == Succeeded ==>
              (ParseStage in w.jobs && w.jobs[ParseStage] == Succeeded)
              || (l == SucceedParse && At(w, ParseStage, Written))
  {
  }

  lemma {:induction false} WrittenByWrite(env: Env, w: World, l: Label)
    requires Enabled(env, w, l) && Next(env, w, l).status.Some?
    ensures At(Next(env, w, l), ParseStage, Written) ==> At(w, ParseStage, Written) || l == WriteNormalized
  {
  }

  lemma {:induction false} WriteKeepsJobs(env: Env, w: World, l: Label)
    requires Enabled(env, w, l) && (l == WriteNormalized || l == TearNormalized)
    ensures Next(env, w, l).jobs == w.jobs && Parses(w)
  {
  }

  lemma {:induction false} RunningStep(env: Env, w: World, l: Label)
    requires w.status.Some? && WorkingIsRunning(w) && Enabled(env, w, l) && Next(env, w, l).status.Some?
    ensures WorkingIsRunning(Next(env, w, l))
  {
  }

  /** Nor is there anything to fear while the parse job stands as succeeded, requests or not. */
  lemma {:induction false} SucceededParseMeansInput(env: Env, run: seq<Label>)
    requires env.batch >= 1 && Exec(env, INITIAL, run).Some?
    requires var w := Exec(env, INITIAL, run).value;
             w.status.Some? && ParseStage in w.jobs && w.jobs[ParseStage] == Succeeded
    ensures var w := Exec(env, INITIAL, run).value; HasInput(env, w, RestartStage(w.jobs))
  {
    RunParsedIsWhole(env, run);
    RetryIsSound(env, run);
    StoredIsLastWrite(env, run);
  }

  // --- a run in which the retry has no input ---------------------------------

  lemma {:induction false} FailedChunking(env: Env) returns (before: seq<Label>, w: World)
    requires env.parse(env.original).Some?
    ensures AllFaultless(before) && Exec(env, INITIAL, before + ChunkFailure()) == Some(w)
    ensures w.status == Some(Failed) && w.live.None? && w.requests == []
    ensures w.jobs == map[ParseStage := Succeeded, ChunkStage := JobFailed] && w.hasOriginal
    ensures Message(ParseStage, 0) in w.sent && Message(ChunkStage, 0) in w.sent
  {
    var first, u := Extend(env, INITIAL, [], INITIAL, Send(0));
    assert u.requests == [];
    var rest, v := ParseThrough(env, u, Message(ParseStage, 0));
    ExecAppend(env, INITIAL, first, rest);
    before := first + rest;
    var last;
    last, w := ChunkAttemptFails(env, v);
    ExecAppend(env, INITIAL, before, last);
  }

  /** A chunk attempt that fails for good. */
  function ChunkFailure(): seq<Label> { [Deliver(Message(ChunkStage, 0)), Claim, Permanent] }

  /** A parse attempt whose worker dies while it rewrites the normalised document. */
  function TornRewrite(): seq<Label> { [Deliver(Message(ParseStage, 0)), Claim, TearNormalized, Crash] }

  /**
   * The chunk stage fails and the user asks for a retry, which chooses that stage; before it commits, an
   * old parse message is delivered again, and its worker dies while rewriting the normalised document.
   * The retry's chunk attempt then fails on what is left: a failed document whose retry has no input.
   */
  lemma {:induction false} RetryWithoutInput(env: Env) returns (before: seq<Label>, w: World)
    requires env.parse(env.original).Some?
    ensures AllFaultless(before)
    ensures Exec(env, INITIAL,
              before + ChunkFailure() + [Begin, Choose(0)] + TornRewrite() + [Enter(0), Send(0)] + ChunkFailure())
                  == Some(w)
    ensures w.status == Some(Failed) && w.live.None? && w.requests == []
    ensures RestartStage(w.jobs) == ChunkStage && w.normalized == Some(Torn) && !HasInput(env, w, ChunkStage)
  {
    before, w := FailedChunking(env);
    w := ChosenChunking(env, before + ChunkFailure(), w);
    w := TornWhileWaiting(env, before + ChunkFailure() + [Begin, Choose(0)], w);
    w := EnteredChunking(env, before + ChunkFailure() + [Begin, Choose(0)] + TornRewrite(), w);
    var last;
    last, w := ChunkAttemptFails(env, w);
    ExecAppend(env, INITIAL, before + ChunkFailure() + [Begin, Choose(0)] + TornRewrite() + [Enter(0), Send(0)], last);
  }

  lemma {:induction false} ChosenChunking(env: Env, before: seq<Label>, u: World) returns (w: World)
    requires Exec(env, INITIAL, before) == Some(u) && u.status == Some(Failed) && u.requests == []
    requires RestartStage(u.jobs) == ChunkStage
    ensures Exec(env, INITIAL, before + [Begin, Choose(0)]) == Some(w) && w == u.(requests := [Chosen(ChunkStage)])
  {
    var run;
    run, w := Extend(env, INITIAL, before, u, Begin);
    run, w := Extend(env, INITIAL, run, w, Choose(0));
    assert run == before + [Begin, Choose(0)];
  }

  lemma {:induction false} EnteredChunking(env: Env, before: seq<Label>, u: World) returns (w: World)
    requires Exec(env, INITIAL, before) == Some(u) && u.status.Some? && u.requests == [Chosen(ChunkStage)]
    ensures Exec(env, INITIAL, before + [Enter(0), Send(0)]) == Some(w)
    ensures w == u.(status := Some(Chunking), sent := u.sent + {Message(ChunkStage, 0)}, requests := [])
  {
    var run;
    run, w := Extend(env, INITIAL, before, u, Enter(0));
    run, w := Extend(env, INITIAL, run, w, Send(0));
    assert run == before + [Enter(0), Send(0)];
  }

  lemma {:induction false} TornWhileWaiting(env: Env, before: seq<Label>, u: World) returns (w: World)
    requires Exec(env, INITIAL, before) == Some(u) && u.status == Some(Failed) && u.live.None? && u.hasOriginal
    requires Message(ParseStage, 0) in u.sent && env.parse(env.original).Some?
    ensures Exec(env, INITIAL, before + TornRewrite()) == Some(w)
    ensures w == u.(status := Some(Parsing), jobs := u.jobs[ParseStage := Running], normalized := Some(Torn))
  {
    var run;
    run, w := Extend(env, INITIAL, before, u, Deliver(Message(ParseStage, 0)));
    run, w := Extend(env, INITIAL, run, w, Claim);
    run, w := Extend(env, INITIAL, run, w, TearNormalized);
    run, w := Extend(env, INITIAL, run, w, Crash);
    assert run == before + TornRewrite();
  }

  /** From there every retry ends as it began: the chunk stage is picked, claimed, and fails on the torn document. */
  lemma {:induction false} RetryOfTornRepeats(env: Env, w: World) returns (run: seq<Label>, v: World)
    requires w.status == Some(Failed) && w.live.None? && w.requests == [] && RestartStage(w.jobs) == ChunkStage
        && w.normalized == Some(Torn)
    ensures run == [Begin, Choose(0), Enter(0), Send(0), Deliver(Message(ChunkStage, 0)), Claim, Permanent]
    ensures Exec(env, w, run) == Some(v) && v == w.(sent := w.sent + {Message(ChunkStage, 0)})
  {
    RestartRuns(env, w, true, false);
    run := RestartScript(w, true, false);
    var rest, u := ChunkAttemptFails(env, Exec(env, w, run).value);
    ExecAppend(env, w, run, rest);
    run, v := run + rest, u;
    assert w.jobs[ChunkStage := Running][ChunkStage := JobFailed] == w.jobs;
  }

  lemma {:induction false} ChunkAttemptFails(env: Env, w: World) returns (run: seq<Label>, v: World)
    requires w.status == Some(Chunking) && w.live.None? && Message(ChunkStage, 0) in w.sent
    ensures run == ChunkFailure() && Exec(env, w, run) == Some(v)
    ensures v == w.(status := Some(Failed), jobs := w.jobs[ChunkStage := Running][ChunkStage := JobFailed])
  {
    run, v := Extend(env, w, [], w, Deliver(Message(ChunkStage, 0)));
    run, v := Extend(env, w, run, v, Claim);
    run, v := Extend(env, w, run, v, Permanent);
  }

  /** Only a parse attempt rewrites a torn document; until one is delivered it stays torn, and no chunking succeeds. */
  lemma {:induction false} TornStays(env: Env, w: World, run: seq<Label>)
    requires TornForNow(w) && Exec(env, w, run).Some?
    requires forall i | 0 <= i < |run| :: StartsNoParse(run[i])
    ensures TornForNow(Exec(env, w, run).value) && SucceedChunk !in run
  {
    if run != [] {
      var n := |run| - 1;
      TornStays(env, w, run[..n]);
      TornStep(env, Exec(env, w, run[..n]).value, run[n]);
      assert run == run[..n] + [run[n]];
    }
  }

  /** Torn, with no parse attempt running. */
  predicate TornForNow(w: World) {
    w.normalized == Some(Torn) && (w.live.Some? ==> w.live.value.stage != ParseStage)
  }

  predicate StartsNoParse(l: Label) { l != Purge && (l.Deliver? ==> l.message.stage != ParseStage) }

  lemma {:induction false} TornStep(env: Env, w: World, l: Label)
    requires TornForNow(w) && Enabled(env, w, l) && StartsNoParse(l)
    ensures TornForNow(Next(env, w, l)) && l != SucceedChunk
  {
  }
}
