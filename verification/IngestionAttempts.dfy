/** What a whole attempt makes of the world, told by the faults it meets and without its single commits. */
module IngestionAttempts {
  import opened Text
  import opened Tokens
  import opened Documents
  import opened Ingestion
  import opened IngestionSafety
  import opened IngestionResults
  import opened IngestionService

  /** The stage is marked failed and its message done with. */
  function GivenUp(w: World, stage: Stage): World {
    w.(status := Some(Failed), jobs := w.jobs[stage := JobFailed], live := None)
  }

  /**
   * After a retryable error in an attempt with `r` retries behind it: queued again for the first three
   * retries, if the broker takes the message, and otherwise left as it is while retries of the stage
   * remain, three for parse and chunk and five for embed; after that given up.
   */
  function AfterRetryable(w: World, stage: Stage, r: nat, requeued: bool): World {
    if r < 3 && requeued then w.(sent := w.sent + {Message(stage, r + 1)}, live := None)
    else if r < 3 || (stage == EmbedStage && r < 5) then w.(live := None)
    else GivenUp(w, stage)
  }

  function AfterFault(w: World, stage: Stage, r: nat, fault: Fault, requeued: bool): World
    requires fault != NoFault
  {
    if fault == IoError then AfterRetryable(w, stage, r, requeued) else GivenUp(w, stage)
  }

  function InProgress(w: World, stage: Stage): World {
    w.(status := Some(Working(stage)), jobs := w.jobs[stage := Running])
  }

  function Claimed(w: World, stage: Stage, r: nat): World {
    InProgress(w, stage).(live := Some(Attempt(stage, r, Progress.Claimed)))
  }

  function WithMessage(w: World, m: Message): World { w.(sent := w.sent + {m}) }

  /** A stage is claimed from the status a document enters it with, or from `failed`, and from no other. */
  predicate ClaimableFrom(w: World, stage: Stage) { w.status == Some(EntryStatus(stage)) || w.status == Some(Failed) }

  // --- parse and chunk -------------------------------------------------------

  /** The final commit is made; the next stage's message goes out, or queueing it fails. */
  function AfterCommit(w: World, stage: Stage, r: nat, f: Faults): World
    requires stage != EmbedStage
  {
    var told := WithMessage(w, Message(NextStage(stage), 0));
    if f.queue == NoFault then told.(live := None)
    else AfterFault(if f.delivered then told else w, stage, r, f.queue, f.requeued)
  }

  /**
   * A parse attempt: nothing for a document that is not waiting for it; an unreadable upload, like one
   * that cannot be parsed, ends it; a write that fails may leave torn bytes; and with the write done the
   * document is `chunking`.
   */
  function ParseEnd(env: Env, w: World, r: nat, f: Faults): World {
    var c := InProgress(w, ParseStage);
    if !ClaimableFrom(w, ParseStage) then w.(live := None)
    else if f.read != NoFault then AfterFault(c, ParseStage, r, f.read, f.requeued)
    else if !w.hasOriginal || env.parse(env.original).None? then GivenUp(c, ParseStage)
    else if f.write != NoFault then
      AfterFault(if f.torn then c.(normalized := Some(Torn)) else c, ParseStage, r, f.write, f.requeued)
    else
      var done := c.(normalized := Some(Whole(env.parse(env.original).value)), status := Some(Chunking),
                     jobs := c.jobs[ParseStage := Succeeded]);
      AfterCommit(done, ParseStage, r, f)
  }

  /** A chunk attempt, likewise; with its commit the document holds the fresh chunks and is `embedding`. */
  function ChunkEnd(env: Env, w: World, r: nat, f: Faults): World {
    var c := InProgress(w, ChunkStage);
    if !ClaimableFrom(w, ChunkStage) then w.(live := None)
    else if f.read != NoFault then AfterFault(c, ChunkStage, r, f.read, f.requeued)
    else
      match w.normalized
      case Some(Whole(doc)) =>
        var done := c.(chunks := RowsUpTo(env, env.chunk(doc), 0), batches := 0, status := Some(Embedding),
                       jobs := c.jobs[ChunkStage := Succeeded]);
        AfterCommit(done, ChunkStage, r, f)
      case _ => GivenUp(c, ChunkStage)
  }

  predicate Delivers(w: World, stage: Stage, r: nat) { w.live == Some(Attempt(stage, r, Start)) }

  lemma {:induction false} ClaimLeadsTo(env: Env, w: World, stage: Stage, r: nat)
    requires Delivers(w, stage, r)
    ensures Claimable(w, stage) <==> ClaimableFrom(w, stage)
    ensures Exec(env, w, [Claim])
         == Some(if ClaimableFrom(w, stage) then Claimed(w, stage, r) else w.(live := None))
  {
    ExecOne(env, w, Claim);
  }

  /** How the task shell closes an attempt that raised. */
  lemma {:induction false} ClosingLeadsTo(env: Env, w: World, stage: Stage, r: nat, at: Progress, fault: Fault,
      f: Faults)
    requires w.live == Some(Attempt(stage, r, at)) && at != Start && at != Committed && w.status.Some?
    requires fault != NoFault
    ensures Exec(env, w, Closing(w, Raised(fault), f)) == Some(AfterFault(w, stage, r, fault, f.requeued))
  {
    ExecOne(env, w, Closing(w, Raised(fault), f)[0]);
  }

  lemma {:induction false} LosingLeadsTo(env: Env, w: World, stage: Stage, r: nat, fault: Fault, f: Faults)
    requires w.live == Some(Attempt(stage, r, Committed)) && stage != EmbedStage && w.status.Some? && fault != NoFault
    ensures Exec(env, w, Closing(w, Raised(fault), f))
         == Some(AfterFault(if f.delivered then WithMessage(w, Message(NextStage(stage), 0)) else w, stage, r, fault,
                            f.requeued))
  {
    ExecOne(env, w, Closing(w, Raised(fault), f)[0]);
  }

  lemma {:induction false} ParseBeforeWrite(env: Env, w: World, r: nat, f: Faults)
    requires Delivers(w, ParseStage, r)
    requires !ClaimableFrom(w, ParseStage) || f.read != NoFault || !w.hasOriginal || env.parse(env.original).None?
    ensures AttemptEnd(env, w, ParseStage, f) == Some(ParseEnd(env, w, r, f))
  {
    ClaimLeadsTo(env, w, ParseStage, r);
    if ClaimableFrom(w, ParseStage) {
      var c := Claimed(w, ParseStage, r);
      if f.read != NoFault {
        ClosingLeadsTo(env, c, ParseStage, r, Progress.Claimed, f.read, f);
      } else {
        ExecTwo(env, w, Claim, Permanent);
      }
    }
  }

  lemma {:induction false} ParseAtWrite(env: Env, w: World, r: nat, f: Faults)
    requires Delivers(w, ParseStage, r) && ClaimableFrom(w, ParseStage) && f.read == NoFault
    requires w.hasOriginal && env.parse(env.original).Some? && f.write != NoFault
    ensures AttemptEnd(env, w, ParseStage, f) == Some(ParseEnd(env, w, r, f))
  {
    ClaimLeadsTo(env, w, ParseStage, r);
    var c := Claimed(w, ParseStage, r);
    if f.torn {
      ExecTwo(env, w, Claim, TearNormalized);
      ClosingLeadsTo(env, Next(env, c, TearNormalized), ParseStage, r, Broken, f.write, f);
    } else {
      ClosingLeadsTo(env, c, ParseStage, r, Progress.Claimed, f.write, f);
    }
  }

  lemma {:induction false} ParseAfterWrite(env: Env, w: World, r: nat, f: Faults)
    requires Delivers(w, ParseStage, r) && ClaimableFrom(w, ParseStage) && f.read == NoFault
    requires w.hasOriginal && env.parse(env.original).Some? && f.write == NoFault
    ensures AttemptEnd(env, w, ParseStage, f) == Some(ParseEnd(env, w, r, f))
  {
    ClaimLeadsTo(env, w, ParseStage, r);
    var script := [Claim, WriteNormalized, Label.SucceedParse];
    ExecThree(env, w, Claim, WriteNormalized, Label.SucceedParse);
    var d := Exec(env, w, script).value;
    if f.queue == NoFault {
      Then(env, w, script, Enqueue);
      assert script + [Enqueue] == ParseScript(env, w, f);
    } else {
      LosingLeadsTo(env, d, ParseStage, r, f.queue, f);
    }
  }

  lemma {:induction false} ChunkLeadsTo(env: Env, w: World, r: nat, f: Faults)
    requires Delivers(w, ChunkStage, r)
    ensures AttemptEnd(env, w, ChunkStage, f) == Some(ChunkEnd(env, w, r, f))
  {
    ClaimLeadsTo(env, w, ChunkStage, r);
    if ClaimableFrom(w, ChunkStage) {
      var c := Claimed(w, ChunkStage, r);
      if f.read != NoFault {
        ClosingLeadsTo(env, c, ChunkStage, r, Progress.Claimed, f.read, f);
      } else if w.normalized.None? || w.normalized.value.Torn? {
        ExecTwo(env, w, Claim, Permanent);
      } else {
        ExecTwo(env, w, Claim, SucceedChunk);
        FreshIsUnembedded(env, env.chunk(w.normalized.value.doc));
        if f.queue == NoFault {
          ExecThree(env, w, Claim, SucceedChunk, Enqueue);
        } else {
          LosingLeadsTo(env, Next(env, c, SucceedChunk), ChunkStage, r, f.queue, f);
        }
      }
    }
  }

  // --- embed -----------------------------------------------------------------

  /** How many answers come before the first that is not vectors. */
  function GoodAnswers(answers: seq<Answer>): (k: nat)
    ensures k <= |answers| && (k < |answers| ==> answers[k] != Vectors)
        && forall i | 0 <= i < k :: answers[i] == Vectors
  {
    if answers == [] || answers[0] != Vectors then 0 else 1 + GoodAnswers(answers[1..])
  }

  /** The first answer that is not vectors comes while chunks are still without an embedding. */
  predicate MeetsError(env: Env, drafts: seq<ChunkDraft>, done: nat, answers: seq<Answer>) {
    GoodAnswers(answers) < |answers| && done + GoodAnswers(answers) * env.batch < |drafts|
  }

  /** With `done` chunks embedded, the loop embeds whole batches until an error, or all there is. */
  function LoopEnd(env: Env, w: World, drafts: seq<ChunkDraft>, done: nat, answers: seq<Answer>): World
    requires env.batch >= 1 && done <= |drafts|
  {
    if MeetsError(env, drafts, done, answers) then
      var k := GoodAnswers(answers);
      var v := w.(chunks := RowsUpTo(env, drafts, done + k * env.batch), batches := w.batches + k);
      if answers[k] == FinalError then GivenUp(v, EmbedStage) else v
    else
      w.(chunks := RowsUpTo(env, drafts, |drafts|), batches := w.batches + CeilDiv(|drafts| - done, env.batch),
         status := Some(Ready), jobs := w.jobs[EmbedStage := Succeeded], live := None)
  }

  /** An error that ends the loop raises unless it is final. */
  function LoopRaises(env: Env, drafts: seq<ChunkDraft>, done: nat, answers: seq<Answer>): Outcome {
    if !MeetsError(env, drafts, done, answers) then Returned
    else match answers[GoodAnswers(answers)]
      case RetryableError => RaisedRetryable
      case UnexpectedError => RaisedUnexpected
      case _ => Returned
  }

  lemma {:induction false} CeilDivIs(n: nat, batch: nat)
    requires batch >= 1
    ensures var q := CeilDiv(n, batch); n <= q * batch && (q > 0 ==> (q - 1) * batch < n)
  {
    var q := CeilDiv(n, batch);
    assert n + batch - 1 == q * batch + (n + batch - 1) % batch;
    if q > 0 { assert (q - 1) * batch == q * batch - batch; }
  }

  lemma {:induction false} OneBatchLess(total: nat, done: nat, batch: nat)
    requires batch >= 1 && done < total
    ensures CeilDiv(total - done, batch) == 1 + CeilDiv(total - Min(total, done + batch), batch)
  {
    var rest := total - Min(total, done + batch);
    var q := CeilDiv(rest, batch);
    CeilDivIs(rest, batch);
    Distribute(q, batch);
    if q > 0 { Distribute(q - 1, batch); }
    BatchesToFinish(total - done, 1 + q, batch);
  }

  lemma {:induction false} BatchThenRest(env: Env, drafts: seq<ChunkDraft>, done: nat, answers: seq<Answer>)
    requires env.batch >= 1 && done < |drafts| && (answers == [] || answers[0] == Vectors)
    ensures var later := Min(|drafts|, done + env.batch);
            && (MeetsError(env, drafts, done, answers) <==> MeetsError(env, drafts, later, Rest(answers)))
            && (MeetsError(env, drafts, done, answers) ==>
                  && GoodAnswers(answers) == 1 + GoodAnswers(Rest(answers))
                  && done + GoodAnswers(answers) * env.batch == later + GoodAnswers(Rest(answers)) * env.batch)
  {
    if answers != [] {
      var k := GoodAnswers(Rest(answers));
      assert GoodAnswers(answers) == 1 + k;
      Distribute(k, env.batch);
      var more := k * env.batch;
      assert GoodAnswers(answers) * env.batch == env.batch + more;
    }
  }

  lemma {:induction false} Distribute(k: nat, b: nat)
    ensures (1 + k) * b == b + k * b && k * b >= 0
  {
  }

  lemma {:induction false} NotNegative(k: nat, b: nat)
    ensures k * b >= 0
  {
  }

  /** One batch more: the loop's end seen from there is its end seen from here. */
  lemma {:induction false} LoopContinues(env: Env, w: World, drafts: seq<ChunkDraft>, done: nat, answers: seq<Answer>)
    requires env.batch >= 1 && done < |drafts| && (answers == [] || answers[0] == Vectors)
    ensures var later := Min(|drafts|, done + env.batch);
            var v := w.(chunks := RowsUpTo(env, drafts, later), batches := w.batches + 1);
            && LoopEnd(env, v, drafts, later, Rest(answers)) == LoopEnd(env, w, drafts, done, answers)
            && LoopRaises(env, drafts, later, Rest(answers)) == LoopRaises(env, drafts, done, answers)
  {
    BatchThenRest(env, drafts, done, answers);
    OneBatchLess(|drafts|, done, env.batch);
  }

  /** The loop goes on with the world after one batch. */
  lemma {:induction false} LoopGoesOn(env: Env, w: World, drafts: seq<ChunkDraft>, done: nat, answers: seq<Answer>)
    requires env.batch >= 1 && done < |drafts| && w.chunks == RowsUpTo(env, drafts, done)
    requires At(w, EmbedStage, Progress.Claimed) && w.status.Some? && (answers == [] || answers[0] == Vectors)
    ensures var v := w.(chunks := RowsUpTo(env, drafts, Min(|drafts|, done + env.batch)), batches := w.batches + 1);
            EmbedLoopWorld(env, w, answers) == EmbedLoopWorld(env, v, Rest(answers))
  {
    BatchLengthensPrefix(env, drafts, done);
    BatchMakesProgress(env, w.chunks);
    assert Next(env, w, EmbedBatch)
        == w.(chunks := RowsUpTo(env, drafts, Min(|drafts|, done + env.batch)), batches := w.batches + 1);
  }

  lemma {:induction false} OutcomeGoesOn(env: Env, drafts: seq<ChunkDraft>, done: nat, answers: seq<Answer>)
    requires env.batch >= 1 && done < |drafts| && (answers == [] || answers[0] == Vectors)
    ensures EmbedLoopOutcome(env, RowsUpTo(env, drafts, done), answers)
         == EmbedLoopOutcome(env, RowsUpTo(env, drafts, Min(|drafts|, done + env.batch)), Rest(answers))
  {
    BatchLengthensPrefix(env, drafts, done);
    BatchMakesProgress(env, RowsUpTo(env, drafts, done));
  }

  lemma {:induction false} LoopLeadsTo(env: Env, w: World, drafts: seq<ChunkDraft>, done: nat, answers: seq<Answer>)
    requires env.batch >= 1 && done <= |drafts| && w.chunks == RowsUpTo(env, drafts, done)
    requires At(w, EmbedStage, Progress.Claimed) && w.status.Some?
    ensures EmbedLoopWorld(env, w, answers) == LoopEnd(env, w, drafts, done, answers)
    ensures EmbedLoopOutcome(env, w.chunks, answers) == LoopRaises(env, drafts, done, answers)
    decreases |drafts| - done
  {
    if done < |drafts| && (answers == [] || answers[0] == Vectors) {
      var later := Min(|drafts|, done + env.batch);
      LoopGoesOn(env, w, drafts, done, answers);
      OutcomeGoesOn(env, drafts, done, answers);
      LoopContinues(env, w, drafts, done, answers);
      LoopLeadsTo(env, w.(chunks := RowsUpTo(env, drafts, later), batches := w.batches + 1), drafts, later,
                  Rest(answers));
    } else {
      LoopStops(env, w, drafts, done, answers);
    }
  }

  lemma {:induction false} LoopStops(env: Env, w: World, drafts: seq<ChunkDraft>, done: nat, answers: seq<Answer>)
    requires env.batch >= 1 && done <= |drafts| && w.chunks == RowsUpTo(env, drafts, done)
    requires At(w, EmbedStage, Progress.Claimed) && w.status.Some?
    requires done == |drafts| || (answers != [] && answers[0] != Vectors)
    ensures EmbedLoopWorld(env, w, answers) == LoopEnd(env, w, drafts, done, answers)
    ensures EmbedLoopOutcome(env, w.chunks, answers) == LoopRaises(env, drafts, done, answers)
  {
    BatchLengthensPrefix(env, drafts, done);
    if done == |drafts| {
      NotNegative(GoodAnswers(answers), env.batch);
      BatchesToFinish(0, 0, env.batch);
    } else {
      assert GoodAnswers(answers) == 0 && 0 * env.batch == 0;
    }
  }

  /**
   * An embed attempt on a document with `done` chunks embedded: the loop, and what the task shell makes of
   * an error that it raises.
   */
  function EmbedEnd(env: Env, w: World, drafts: seq<ChunkDraft>, done: nat, r: nat, f: Faults): World
    requires env.batch >= 1 && done <= |drafts|
  {
    if !ClaimableFrom(w, EmbedStage) then w.(live := None)
    else
      var v := LoopEnd(env, Claimed(w, EmbedStage, r), drafts, done, f.answers);
      match LoopRaises(env, drafts, done, f.answers)
      case Returned => v
      case RaisedRetryable => AfterRetryable(v, EmbedStage, r, f.requeued)
      case RaisedUnexpected => GivenUp(v, EmbedStage)
  }

  lemma {:induction false} EmbedScriptRuns(env: Env, w: World, drafts: seq<ChunkDraft>, done: nat, r: nat, f: Faults)
    requires env.batch >= 1 && done <= |drafts| && w.chunks == RowsUpTo(env, drafts, done)
    requires Delivers(w, EmbedStage, r) && ClaimableFrom(w, EmbedStage)
    ensures Exec(env, w, EmbedScript(env, w, f))
         == Some(LoopEnd(env, Claimed(w, EmbedStage, r), drafts, done, f.answers))
    ensures EmbedOutcome(env, w, f) == LoopRaises(env, drafts, done, f.answers)
  {
    ClaimLeadsTo(env, w, EmbedStage, r);
    var c := Claimed(w, EmbedStage, r);
    LoopLeadsTo(env, c, drafts, done, f.answers);
    LoopScriptLeadsThere(env, c, f.answers);
    ExecAppend(env, w, [Claim], EmbedLoopScript(env, c.chunks, f.answers));
  }

  lemma {:induction false} EmbedLeadsTo(env: Env, w: World, drafts: seq<ChunkDraft>, done: nat, r: nat, f: Faults)
    requires env.batch >= 1 && done <= |drafts| && w.chunks == RowsUpTo(env, drafts, done)
    requires Delivers(w, EmbedStage, r)
    ensures AttemptEnd(env, w, EmbedStage, f) == Some(EmbedEnd(env, w, drafts, done, r, f))
  {
    if ClaimableFrom(w, EmbedStage) {
      EmbedScriptRuns(env, w, drafts, done, r, f);
      LoopCloses(env, Claimed(w, EmbedStage, r), drafts, done, r, f);
    } else {
      ClaimLeadsTo(env, w, EmbedStage, r);
    }
  }

  /** What the task shell makes of the end of the loop. */
  lemma {:induction false} LoopCloses(env: Env, c: World, drafts: seq<ChunkDraft>, done: nat, r: nat, f: Faults)
    requires env.batch >= 1 && done <= |drafts| && c.live == Some(Attempt(EmbedStage, r, Progress.Claimed))
        && c.status.Some?
    ensures var v, outcome := LoopEnd(env, c, drafts, done, f.answers), LoopRaises(env, drafts, done, f.answers);
            Exec(env, v, Closing(v, outcome, f))
            == Some(if outcome == Returned then v
                    else AfterFault(v, EmbedStage, r, if outcome == RaisedRetryable then IoError else Unexpected,
                                    f.requeued))
  {
    var v, outcome := LoopEnd(env, c, drafts, done, f.answers), LoopRaises(env, drafts, done, f.answers);
    if outcome != Returned {
      var fault := if outcome == RaisedRetryable then IoError else Unexpected;
      assert Raised(fault) == outcome;
      ClosingLeadsTo(env, v, EmbedStage, r, Progress.Claimed, fault, f);
    }
  }

  // --- any attempt -----------------------------------------------------------

  /** What an attempt with `r` retries behind it makes of the world in which its message is delivered. */
  function EndOf(env: Env, w: World, stage: Stage, r: nat, f: Faults): World
    requires env.batch >= 1
  {
    match stage
    case ParseStage => ParseEnd(env, w, r, f)
    case ChunkStage => ChunkEnd(env, w, r, f)
    case EmbedStage => EmbedEnd(env, w, DraftsOf(w.chunks), Min(|w.chunks|, w.batches * env.batch), r, f)
  }

  /**
   * Wherever a run has brought the document, an attempt ends, whatever faults it meets, in exactly the
   * world that the table of its stage says.
   */
  lemma {:induction false} AttemptLeadsTo(env: Env, w: World, stage: Stage, r: nat, f: Faults)
    requires env.batch >= 1 && Reachable(env, w) && Delivers(w, stage, r)
    ensures |DraftsOf(w.chunks)| == |w.chunks| && AttemptEnd(env, w, stage, f) == Some(EndOf(env, w, stage, r, f))
  {
    ReachableIsSound(env, w);
    match stage
    case ParseStage =>
      if ClaimableFrom(w, ParseStage) && f.read == NoFault && w.hasOriginal && env.parse(env.original).Some? {
        if f.write == NoFault { ParseAfterWrite(env, w, r, f); } else { ParseAtWrite(env, w, r, f); }
      } else {
        ParseBeforeWrite(env, w, r, f);
      }
    case ChunkStage => ChunkLeadsTo(env, w, r, f);
    case EmbedStage => EmbedLeadsTo(env, w, DraftsOf(w.chunks), Min(|w.chunks|, w.batches * env.batch), r, f);
  }
}
