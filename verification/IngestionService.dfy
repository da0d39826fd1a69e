/**
 * The stage methods and the task shell, working on the stored state step by step. Each method is
 * proved to perform exactly the commits of its script, a run of the ingestion protocol.
 */
module IngestionService {
  import opened Text
  import opened Documents
  import opened Ingestion
  import opened IngestionResults

  /** How an I/O operation ends: retryable errors are I/O errors, the others are not foreseen. */
  datatype Fault = NoFault | IoError | Unexpected

  /** What the embedding provider answers to a batch; a wrong number of vectors raises like any unforeseen error. */
  datatype Answer = Vectors | RetryableError | FinalError | UnexpectedError

  /**
   * The faults an attempt meets. A failing write may leave torn bytes; a failing enqueue may still
   * deliver; `requeued` says whether the broker takes the message of a retry.
   */
  datatype Faults = Faults(
    read: Fault, write: Fault, torn: bool, queue: Fault, delivered: bool, requeued: bool, answers: seq<Answer>)

  datatype Outcome = Returned | RaisedRetryable | RaisedUnexpected

  function Raised(f: Fault): Outcome {
    match f
    case NoFault => Returned
    case IoError => RaisedRetryable
    case Unexpected => RaisedUnexpected
  }

  predicate Claimable(w: World, stage: Stage) { w.status.Some? && w.status.value in AllowedFrom(stage) }

  // --- scripts: the commits an attempt makes, given its faults ----------------

  function ParseScript(env: Env, w: World, f: Faults): seq<Label> {
    if !Claimable(w, ParseStage) || f.read != NoFault then [Claim]
    else if !w.hasOriginal || env.parse(env.original).None? then [Claim, Permanent]
    else if f.write != NoFault then (if f.torn then [Claim, TearNormalized] else [Claim])
    else if f.queue != NoFault then [Claim, WriteNormalized, SucceedParse]
    else [Claim, WriteNormalized, SucceedParse, Enqueue]
  }

  function ParseOutcome(env: Env, w: World, f: Faults): Outcome {
    if !Claimable(w, ParseStage) then Returned
    else if f.read != NoFault then Raised(f.read)
    else if !w.hasOriginal || env.parse(env.original).None? then Returned
    else if f.write != NoFault then Raised(f.write)
    else Raised(f.queue)
  }

  function ChunkScript(env: Env, w: World, f: Faults): seq<Label> {
    if !Claimable(w, ChunkStage) || f.read != NoFault then [Claim]
    else if w.normalized.None? || w.normalized.value.Torn? then [Claim, Permanent]
    else if f.queue != NoFault then [Claim, SucceedChunk]
    else [Claim, SucceedChunk, Enqueue]
  }

  function ChunkOutcome(env: Env, w: World, f: Faults): Outcome {
    if !Claimable(w, ChunkStage) then Returned
    else if f.read != NoFault then Raised(f.read)
    else if w.normalized.None? || w.normalized.value.Torn? then Returned
    else Raised(f.queue)
  }

  function CountUnembedded(rows: seq<ChunkRow>): nat {
    if rows == [] then 0
    else CountUnembedded(rows[..|rows| - 1]) + if rows[|rows| - 1].embedding.None? then 1 else 0
  }

  lemma {:induction false} CountDrops(before: seq<ChunkRow>, after: seq<ChunkRow>)
    requires |before| == |after|
    requires forall i | 0 <= i < |before| :: after[i] == before[i] || after[i].embedding.Some?
    ensures CountUnembedded(after) <= CountUnembedded(before)
    ensures (exists i :: 0 <= i < |before| && before[i].embedding.None? && after[i].embedding.Some?) ==>
              CountUnembedded(after) < CountUnembedded(before)
  {
    if before != [] {
      CountDrops(before[..|before| - 1], after[..|after| - 1]);
    }
  }

  lemma {:induction false} CursorFindsUnembedded(rows: seq<ChunkRow>, from: nat, limit: nat)
    requires from <= |rows|
    ensures forall j | 0 <= j < |Unembedded(rows, from, limit)| ::
      from <= Unembedded(rows, from, limit)[j] < |rows| && rows[Unembedded(rows, from, limit)[j]].embedding.None?
    decreases |rows| - from
  {
    if from < |rows| && limit > 0 {
      CursorFindsUnembedded(rows, from + 1, if rows[from].embedding.None? then limit - 1 else limit);
    }
  }

  /** Every committed batch lowers the number of unembedded chunks: the loop's termination measure. */
  lemma {:induction false} BatchMakesProgress(env: Env, rows: seq<ChunkRow>)
    requires Unembedded(rows, 0, env.batch) != []
    ensures CountUnembedded(SetEmbeddings(env, rows, Unembedded(rows, 0, env.batch))) < CountUnembedded(rows)
  {
    var picked := Unembedded(rows, 0, env.batch);
    var after := SetEmbeddings(env, rows, picked);
    CursorFindsUnembedded(rows, 0, env.batch);
    CountDrops(rows, after);
    assert picked[0] in picked;
    assert rows[picked[0]].embedding.None? && after[picked[0]].embedding.Some?;
  }

  function Rest(answers: seq<Answer>): seq<Answer> { if answers == [] then [] else answers[1..] }

  function EmbedLoopScript(env: Env, rows: seq<ChunkRow>, answers: seq<Answer>): seq<Label>
    decreases CountUnembedded(rows)
  {
    var picked := Unembedded(rows, 0, env.batch);
    if picked == [] then [SucceedEmbed]
    else if answers != [] && answers[0] in {RetryableError, UnexpectedError} then []
    else if answers != [] && answers[0] == FinalError then [Permanent]
    else
      BatchMakesProgress(env, rows);
      [EmbedBatch] + EmbedLoopScript(env, SetEmbeddings(env, rows, picked), Rest(answers))
  }

  /** How the loop ends. */
  function EmbedLoopOutcome(env: Env, rows: seq<ChunkRow>, answers: seq<Answer>): Outcome
    decreases CountUnembedded(rows)
  {
    var picked := Unembedded(rows, 0, env.batch);
    if picked == [] then Returned
    else if answers != [] && answers[0] == RetryableError then RaisedRetryable
    else if answers != [] && answers[0] == UnexpectedError then RaisedUnexpected
    else if answers != [] && answers[0] == FinalError then Returned
    else
      BatchMakesProgress(env, rows);
      EmbedLoopOutcome(env, SetEmbeddings(env, rows, picked), Rest(answers))
  }

  /** The world in which the loop leaves the document. */
  function EmbedLoopWorld(env: Env, w: World, answers: seq<Answer>): World
    requires At(w, EmbedStage, Claimed) && w.status.Some?
    decreases CountUnembedded(w.chunks)
  {
    if Unembedded(w.chunks, 0, env.batch) == [] then Next(env, w, SucceedEmbed)
    else if answers != [] && answers[0] in {RetryableError, UnexpectedError} then w
    else if answers != [] && answers[0] == FinalError then Next(env, w, Permanent)
    else
      BatchMakesProgress(env, w.chunks);
      EmbedLoopWorld(env, Next(env, w, EmbedBatch), Rest(answers))
  }

  /** That world is where the script leads. */
  lemma {:induction false} LoopScriptLeadsThere(env: Env, w: World, answers: seq<Answer>)
    requires At(w, EmbedStage, Claimed) && w.status.Some?
    ensures Exec(env, w, EmbedLoopScript(env, w.chunks, answers)) == Some(EmbedLoopWorld(env, w, answers))
    decreases CountUnembedded(w.chunks)
  {
    if Unembedded(w.chunks, 0, env.batch) == [] {
      ExecOne(env, w, SucceedEmbed);
    } else if answers != [] && answers[0] in {RetryableError, UnexpectedError} {
    } else if answers != [] && answers[0] == FinalError {
      ExecOne(env, w, Permanent);
    } else {
      BatchMakesProgress(env, w.chunks);
      ExecOne(env, w, EmbedBatch);
      var v := Next(env, w, EmbedBatch);
      LoopScriptLeadsThere(env, v, Rest(answers));
      ExecAppend(env, w, [EmbedBatch], EmbedLoopScript(env, v.chunks, Rest(answers)));
    }
  }

  function EmbedScript(env: Env, w: World, f: Faults): seq<Label> {
    if !Claimable(w, EmbedStage) then [Claim] else [Claim] + EmbedLoopScript(env, w.chunks, f.answers)
  }

  function EmbedOutcome(env: Env, w: World, f: Faults): Outcome {
    if !Claimable(w, EmbedStage) then Returned else EmbedLoopOutcome(env, w.chunks, f.answers)
  }

  function Script(env: Env, w: World, stage: Stage, f: Faults): seq<Label> {
    match stage
    case ParseStage => ParseScript(env, w, f)
    case ChunkStage => ChunkScript(env, w, f)
    case EmbedStage => EmbedScript(env, w, f)
  }

  function OutcomeOf(env: Env, w: World, stage: Stage, f: Faults): Outcome {
    match stage
    case ParseStage => ParseOutcome(env, w, f)
    case ChunkStage => ChunkOutcome(env, w, f)
    case EmbedStage => EmbedOutcome(env, w, f)
  }

  lemma {:induction false} ExecOne(env: Env, w: World, a: Label)
    requires Enabled(env, w, a)
    ensures Exec(env, w, [a]) == Some(Next(env, w, a))
  {
    Then(env, w, [], a);
    assert [] + [a] == [a];
  }

  lemma {:induction false} ExecTwo(env: Env, w: World, a: Label, b: Label)
    requires Enabled(env, w, a) && Enabled(env, Next(env, w, a), b)
    ensures Exec(env, w, [a, b]) == Some(Next(env, Next(env, w, a), b))
  {
    ExecOne(env, w, a);
    Then(env, w, [a], b);
    assert [a] + [b] == [a, b];
  }

  lemma {:induction false} ExecThree(env: Env, w: World, a: Label, b: Label, c: Label)
    requires Enabled(env, w, a) && Enabled(env, Next(env, w, a), b)
    requires Enabled(env, Next(env, Next(env, w, a), b), c)
    ensures Exec(env, w, [a, b, c]) == Some(Next(env, Next(env, Next(env, w, a), b), c))
  {
    ExecTwo(env, w, a, b);
    Then(env, w, [a, b], c);
    assert [a, b] + [c] == [a, b, c];
  }

  /**
   * How a stage method leaves its attempt: over when it returns, and past its claim when it raises.
   * A chunk or embed method that returns has left its working status.
   */
  predicate Settled(before: World, after: World, stage: Stage, outcome: Outcome) {
    && (outcome == Returned ==> after.live.None? && (stage != ParseStage ==> after.status != Some(Working(stage))))
    && (outcome != Returned ==>
          && after.live.Some? && after.live.value.at != Start && after.status.Some?
          && before.live.Some? && after.live.value == before.live.value.(at := after.live.value.at)
          && (after.live.value.at == Committed
              ==> stage != EmbedStage && after.status == Some(Working(NextStage(stage))))
          && (after.live.value.at != Committed ==> after.status == Some(Working(stage))))
  }

  /** How the task shell ends an attempt whose stage method raised. */
  function Closing(w: World, outcome: Outcome, f: Faults): seq<Label> {
    if outcome == Returned || w.live.None? then []
    else if w.live.value.at == Committed then [EnqueueLost(f.delivered, outcome == RaisedRetryable, f.requeued)]
    else if outcome == RaisedRetryable then [Transient(f.requeued)]
    else [Permanent]
  }

  /**
   * How an attempt ends for its message: done with, queued again, or given up without a trace because
   * queueing it again was refused, by the runner or by the broker.
   */
  datatype Ending = Done | Requeued | RetryRefused

  function EndingOf(stage: Stage, retries: nat, outcome: Outcome, f: Faults): Ending {
    if outcome != RaisedRetryable || retries >= MaxRetries(stage) then Done
    else if retries < RUNNER_CEILING && f.requeued then Requeued
    else RetryRefused
  }

  /** The world after an attempt, from the delivery of its message to the end of the task. */
  function AttemptEnd(env: Env, w: World, stage: Stage, f: Faults): Option<World> {
    match Exec(env, w, Script(env, w, stage, f))
    case None => None
    case Some(v) => Exec(env, v, Closing(v, OutcomeOf(env, w, stage, f), f))
  }

  function Delivered(w: World, stage: Stage, retries: nat): World { w.(live := Some(Attempt(stage, retries, Start))) }

  /** What an attempt makes of the world if its message is queued again afterwards. */
  function NextAttempt(env: Env, stage: Stage, faults: nat -> Faults, r: nat, w: World): Option<World> {
    var d := Delivered(w, stage, r);
    if EndingOf(stage, r, OutcomeOf(env, d, stage, faults(r)), faults(r)) == Requeued
        then AttemptEnd(env, d, stage, faults(r)) else None
  }

  /** `r` steps from `x`, as far as they can be taken. */
  function Iterate<T>(step: (nat, T) -> Option<T>, x: T, r: nat): Option<T> {
    if r == 0 then Some(x)
    else match Iterate(step, x, r - 1) case None => None case Some(y) => step(r - 1, y)
  }

  lemma {:induction false} IterateBack<T>(step: (nat, T) -> Option<T>, x: T, r: nat, k: nat)
    requires r < k && Iterate(step, x, k).Some?
    ensures Iterate(step, x, r).Some? && step(r, Iterate(step, x, r).value).Some?
  {
    if r < k - 1 { IterateBack(step, x, r, k - 1); }
  }

  /**
   * The world in which attempt `r` of a message finds its document, if the attempts before it were
   * all queued again.
   */
  function BeforeAttempt(env: Env, w: World, stage: Stage, r: nat, faults: nat -> Faults): Option<World> {
    Iterate((k: nat, u: World) => NextAttempt(env, stage, faults, k, u), w, r)
  }

  /** The attempt raises a retryable error before its final commit. */
  predicate RaisesBeforeCommit(env: Env, w: World, stage: Stage, f: Faults) {
    && Claimable(w, stage)
    && match stage
       case ParseStage =>
         || f.read == IoError
         || (f.read == NoFault && w.hasOriginal && env.parse(env.original).Some? && f.write == IoError)
       case ChunkStage => f.read == IoError
       case EmbedStage => EmbedLoopOutcome(env, w.chunks, f.answers) == RaisedRetryable
  }

  /** Attempt `r` has a retry left and asks for it in vain, before its final commit. */
  predicate DropsAt(env: Env, w: World, stage: Stage, r: nat, faults: nat -> Faults) {
    && BeforeAttempt(env, w, stage, r, faults).Some?
    && RaisesBeforeCommit(env, BeforeAttempt(env, w, stage, r, faults).value, stage, faults(r))
    && r < MaxRetries(stage) && (r >= RUNNER_CEILING || !faults(r).requeued)
  }

  lemma {:induction false} NextIsRequeued(env: Env, stage: Stage, faults: nat -> Faults, r: nat, w: World)
    requires NextAttempt(env, stage, faults, r, w).Some?
    ensures EndingOf(stage, r, OutcomeOf(env, Delivered(w, stage, r), stage, faults(r)), faults(r)) == Requeued
    ensures r < RUNNER_CEILING && faults(r).requeued
  {
  }

  /** If attempt `k` is reached, every earlier one was queued again. */
  lemma {:induction false} EarlierWereRequeued(env: Env, w: World, stage: Stage, r: nat, k: nat, faults: nat -> Faults)
    requires r < k && BeforeAttempt(env, w, stage, k, faults).Some?
    ensures BeforeAttempt(env, w, stage, r, faults).Some? && r < RUNNER_CEILING && faults(r).requeued
    ensures var u := BeforeAttempt(env, w, stage, r, faults).value;
            EndingOf(stage, r, OutcomeOf(env, Delivered(u, stage, r), stage, faults(r)), faults(r)) == Requeued
  {
    var step := (k: nat, u: World) => NextAttempt(env, stage, faults, k, u);
    IterateBack(step, w, r, k);
    NextIsRequeued(env, stage, faults, r, Iterate(step, w, r).value);
  }

  class IngestionService {
    const env: Env
    var status: Option<Status>
    var jobs: map<Stage, JobStatus>
    var hasOriginal: bool
    var normalized: Option<Stored>
    var chunks: seq<ChunkRow>
    var queue: set<Message>

    /** The protocol state that the fields belong to. */
    ghost var world: World

    ghost predicate Valid()
      reads this
    {
      && status == world.status && jobs == world.jobs && hasOriginal == world.hasOriginal
      && normalized == world.normalized && chunks == world.chunks && queue == world.sent
    }

    // --- commits and storage writes ------------------------------------------

    method ClaimStage(stage: Stage) returns (ok: bool)
      requires Valid() && At(world, stage, Start)
      modifies this
      ensures Valid() && world == Next(env, old(world), Claim) && ok == Claimable(old(world), stage)
    {
      ok := status.Some? && status.value in AllowedFrom(stage);
      if ok {
        status := Some(Working(stage));
        jobs := jobs[stage := Running];
      }
      world := Next(env, world, Claim);
    }

    method SucceedParse()
      requires Valid() && Enabled(env, world, Label.SucceedParse)
      modifies this
      ensures Valid() && world == Next(env, old(world), Label.SucceedParse)
    {
      jobs, status := jobs[ParseStage := Succeeded], Some(Chunking);
      world := Next(env, world, Label.SucceedParse);
    }

    method SucceedEmbed()
      requires Valid() && Enabled(env, world, Label.SucceedEmbed)
      modifies this
      ensures Valid() && world == Next(env, old(world), Label.SucceedEmbed)
    {
      jobs, status := jobs[EmbedStage := Succeeded], Some(Ready);
      world := Next(env, world, Label.SucceedEmbed);
    }

    /** Deleting the old chunks, inserting the new ones and advancing the status are one commit. */
    method ReplaceChunksAndSucceed(drafts: seq<ChunkDraft>)
      requires Valid() && Enabled(env, world, SucceedChunk) && drafts == env.chunk(normalized.value.doc)
      modifies this
      ensures Valid() && world == Next(env, old(world), SucceedChunk)
    {
      chunks := [];
      chunks := chunks + FreshRows(drafts);
      assert chunks == FreshRows(drafts);
      jobs, status := jobs[ChunkStage := Succeeded], Some(Embedding);
      world := Next(env, world, SucceedChunk);
    }

    method CommitBatch(picked: seq<nat>)
      requires Valid() && Enabled(env, world, EmbedBatch) && picked == Unembedded(chunks, 0, env.batch)
      modifies this
      ensures Valid() && world == Next(env, old(world), EmbedBatch)
    {
      chunks := SetEmbeddings(env, chunks, picked);
      world := Next(env, world, EmbedBatch);
    }

    method PutNormalized(stored: Stored)
      requires Valid() && Enabled(env, world, WriteNormalized)
      requires stored == Torn || stored == Whole(env.parse(env.original).value)
      modifies this
      ensures Valid() && world == Next(env, old(world), if stored.Torn? then TearNormalized else WriteNormalized)
    {
      normalized := Some(stored);
      world := Next(env, world, if stored.Torn? then TearNormalized else WriteNormalized);
    }

    method EnqueueNext(stage: Stage)
      requires Valid() && Enabled(env, world, Enqueue) && world.live.value.stage == stage
      modifies this
      ensures Valid() && world == Next(env, old(world), Enqueue)
    {
      queue := queue + {Message(NextStage(stage), 0)};
      world := Next(env, world, Enqueue);
    }

    /** `_fail`: the failure commit, which leaves a deleted document alone. */
    method Fail(stage: Stage)
      requires Valid() && Enabled(env, world, Permanent) && world.live.value.stage == stage
      modifies this
      ensures Valid() && world == Next(env, old(world), Permanent)
    {
      if status.Some? {
        jobs := jobs[stage := JobFailed];
        status := Some(Failed);
      }
      world := Next(env, world, Permanent);
    }

    // --- stages --------------------------------------------------------------

    method Parse(f: Faults) returns (outcome: Outcome)
      requires Valid() && At(world, ParseStage, Start)
      modifies this
      ensures Valid() && Exec(env, old(world), ParseScript(env, old(world), f)) == Some(world)
      ensures outcome == ParseOutcome(env, old(world), f)
      ensures Settled(old(world), world, ParseStage, outcome)
    {
      ghost var w := world;
      var ok := ClaimStage(ParseStage);
      ExecOne(env, w, Claim);
      if !ok { return Returned; }
      if f.read != NoFault { return Raised(f.read); }
      if !hasOriginal {
        Fail(ParseStage);
        ExecTwo(env, w, Claim, Permanent);
        return Returned;
      }
      var parsed := env.parse(env.original);
      if parsed.None? {
        Fail(ParseStage);
        ExecTwo(env, w, Claim, Permanent);
        return Returned;
      }
      if f.write != NoFault {
        if f.torn {
          PutNormalized(Torn);
          ExecTwo(env, w, Claim, TearNormalized);
        }
        return Raised(f.write);
      }
      PutNormalized(Whole(parsed.value));
      SucceedParse();
      ExecThree(env, w, Claim, WriteNormalized, Label.SucceedParse);
      if f.queue != NoFault { return Raised(f.queue); }
      EnqueueNext(ParseStage);
      Then(env, w, [Claim, WriteNormalized, Label.SucceedParse], Enqueue);
      assert [Claim, WriteNormalized, Label.SucceedParse] + [Enqueue]
          == [Claim, WriteNormalized, Label.SucceedParse, Enqueue];
      return Returned;
    }

    method Chunk(f: Faults) returns (outcome: Outcome)
      requires Valid() && At(world, ChunkStage, Start)
      modifies this
      ensures Valid() && Exec(env, old(world), ChunkScript(env, old(world), f)) == Some(world)
      ensures outcome == ChunkOutcome(env, old(world), f)
      ensures Settled(old(world), world, ChunkStage, outcome)
    {
      ghost var w := world;
      var ok := ClaimStage(ChunkStage);
      ExecOne(env, w, Claim);
      if !ok { return Returned; }
      if f.read != NoFault { return Raised(f.read); }
      if normalized.None? || normalized.value.Torn? {
        Fail(ChunkStage);
        ExecTwo(env, w, Claim, Permanent);
        return Returned;
      }
      ReplaceChunksAndSucceed(env.chunk(normalized.value.doc));
      ExecTwo(env, w, Claim, SucceedChunk);
      if f.queue != NoFault { return Raised(f.queue); }
      EnqueueNext(ChunkStage);
      ExecThree(env, w, Claim, SucceedChunk, Enqueue);
      return Returned;
    }

    method Embed(f: Faults) returns (outcome: Outcome)
      requires Valid() && At(world, EmbedStage, Start)
      modifies this
      ensures Valid() && Exec(env, old(world), EmbedScript(env, old(world), f)) == Some(world)
      ensures outcome == EmbedOutcome(env, old(world), f)
      ensures Settled(old(world), world, EmbedStage, outcome)
    {
      ghost var w := world;
      var ok := ClaimStage(EmbedStage);
      ExecOne(env, w, Claim);
      if !ok { return Returned; }
      ghost var claimed := world;
      outcome := EmbedBatches(f.answers);
      ExecAppend(env, w, [Claim], EmbedLoopScript(env, claimed.chunks, f.answers));
    }

    /** The loop of the embed stage: batch after batch from the cursor, each committed on its own. */
    method EmbedBatches(replies: seq<Answer>) returns (outcome: Outcome)
      requires Valid() && At(world, EmbedStage, Claimed) && status == Some(Embedding)
      modifies this
      ensures Valid() && Exec(env, old(world), EmbedLoopScript(env, old(chunks), replies)) == Some(world)
      ensures outcome == EmbedLoopOutcome(env, old(chunks), replies)
      ensures Settled(old(world), world, EmbedStage, outcome)
    {
      var answers := replies;
      var batch := Unembedded(chunks, 0, env.batch);
      LoopScriptLeadsThere(env, world, replies);
      while batch != []
        invariant Valid() && At(world, EmbedStage, Claimed) && status == Some(Embedding)
            && world.live == old(world).live
        invariant batch == Unembedded(chunks, 0, env.batch)
        invariant EmbedLoopWorld(env, world, answers) == EmbedLoopWorld(env, old(world), replies)
        invariant EmbedLoopOutcome(env, chunks, answers) == EmbedLoopOutcome(env, old(chunks), replies)
        decreases CountUnembedded(chunks)
      {
        var answer := if answers == [] then Vectors else answers[0];
        if answer == RetryableError {
          return RaisedRetryable;
        }
        if answer == UnexpectedError {
          return RaisedUnexpected;
        }
        if answer == FinalError {
          Fail(EmbedStage);
          return Returned;
        }
        BatchMakesProgress(env, chunks);
        CommitBatch(batch);
        answers := Rest(answers);
        batch := Unembedded(chunks, 0, env.batch);
      }
      SucceedEmbed();
      return Returned;
    }

    // --- the task shell ------------------------------------------------------

    method RunMethod(stage: Stage, f: Faults) returns (outcome: Outcome)
      requires Valid() && At(world, stage, Start)
      modifies this
      ensures Valid() && Exec(env, old(world), Script(env, old(world), stage, f)) == Some(world)
      ensures outcome == OutcomeOf(env, old(world), stage, f) && Settled(old(world), world, stage, outcome)
    {
      match stage
      case ParseStage => outcome := Parse(f);
      case ChunkStage => outcome := Chunk(f);
      case EmbedStage => outcome := Embed(f);
    }

    /**
     * `_run_stage`: ask for a retry after a retryable error while retries are left, otherwise mark
     * the stage failed.
     */
    method RunStage(stage: Stage, retries: nat, f: Faults) returns (ending: Ending)
      requires Valid() && world.live == Some(Attempt(stage, retries, Start))
      modifies this
      ensures Valid() && world.live.None? && AttemptEnd(env, old(world), stage, f) == Some(world)
      ensures ending == EndingOf(stage, retries, OutcomeOf(env, old(world), stage, f), f)
      ensures ending == Requeued ==> Message(stage, retries + 1) in queue
      ensures ending == Done && stage != ParseStage ==> status != Some(Working(stage))
      ensures ending != Done ==>
        status == Some(if RaisesBeforeCommit(env, old(world), stage, f) then Working(stage)
            else Working(NextStage(if stage == EmbedStage then ParseStage else stage)))
      ensures ending != Done && stage == EmbedStage ==> RaisesBeforeCommit(env, old(world), stage, f)
    {
      var outcome := RunMethod(stage, f);
      ending := Done;
      if outcome != Returned {
        ending := CloseAttempt(stage, retries, outcome, f);
      }
    }

    /** What the task shell does with an exception of the stage method. */
    method CloseAttempt(stage: Stage, retries: nat, outcome: Outcome, f: Faults) returns (ending: Ending)
      requires Valid() && outcome != Returned && world.live.Some?
      requires var a := world.live.value;
        a.stage == stage && a.retries == retries && a.at != Start && status.Some?
        && (a.at == Committed <==> stage != EmbedStage && status == Some(Working(NextStage(stage))))
        && (a.at != Committed ==> status == Some(Working(stage)))
      modifies this
      ensures Valid() && world.live.None? && Exec(env, old(world), Closing(old(world), outcome, f)) == Some(world)
      ensures ending == EndingOf(stage, retries, outcome, f)
      ensures status == if ending == Done then Some(Failed) else old(status)
      ensures ending == Requeued ==> Message(stage, retries + 1) in queue
      ensures ending == RetryRefused && old(world.live.value.at) != Committed
          ==> queue == old(queue) && jobs == old(jobs)
    {
      ghost var closing := Closing(world, outcome, f)[0];
      ExecOne(env, world, closing);
      if f.delivered && stage != EmbedStage && status == Some(Working(NextStage(stage))) {
        queue := queue + {Message(NextStage(stage), 0)};  // queueing raised, yet the message went out
      }
      if outcome != RaisedRetryable || retries >= MaxRetries(stage) {
        jobs, status := jobs[stage := JobFailed], Some(Failed);
        ending := Done;
      } else if retries < RUNNER_CEILING && f.requeued {
        queue := queue + {Message(stage, retries + 1)};
        ending := Requeued;
      } else {
        ending := RetryRefused;
      }
      world := Next(env, world, closing);
    }

    /**
     * A message and its own retries, with no worker death and nothing else happening in between: at
     * most as many attempts as both the stage and the runner allow. A chunk or embed message leaves
     * the document in its working status exactly when one of the attempts asks in vain for a retry; a
     * parse message leaves it in `parsing` exactly when it was there already, or when the first
     * attempt met a retryable error before its final commit.
     */
    method Consume(stage: Stage, faults: nat -> Faults) returns (attempts: nat)
      requires Valid() && world.live.None? && Message(stage, 0) in queue
      modifies this
      ensures Valid() && world.live.None?
      ensures 1 <= attempts <= MaxRetries(stage) + 1 && attempts <= RUNNER_CEILING + 1
      ensures stage != ParseStage ==>
        (status == Some(Working(stage)) <==> exists r: nat :: DropsAt(env, old(world), stage, r, faults))
      ensures stage == ParseStage ==>
        (status == Some(Parsing) <==>
           old(status) == Some(Parsing) || RaisesBeforeCommit(env, old(world), ParseStage, faults(0)))
    {
      attempts := 0;
      var ending := Requeued;
      ghost var start := world;
      while ending == Requeued
        invariant Valid() && world.live.None?
        invariant ConsumedSoFar(env, start, world, stage, attempts, ending, faults)
        decreases MaxRetries(stage) + 1 - attempts
      {
        ghost var before := world;
        assert StillQueued(env, start, world, stage, attempts, faults);
        world := Next(env, world, Deliver(Message(stage, attempts)));
        assert world == Delivered(before, stage, attempts);
        ending := RunStage(stage, attempts, faults(attempts));
        OneMoreAttempt(env, start, before, world, stage, attempts, ending, faults);
        attempts := attempts + 1;
      }
    }
  }

  /** What is known of a message after some of its attempts, the last of which ended in `ending`. */
  ghost predicate ConsumedSoFar(env: Env, w0: World, w: World, stage: Stage, attempts: nat, ending: Ending,
      faults: nat -> Faults) {
    && attempts <= MaxRetries(stage) + 1 && attempts <= RUNNER_CEILING + 1
    && (attempts == 0 ==> ending == Requeued && w == w0)
    && (ending == Requeued ==> StillQueued(env, w0, w, stage, attempts, faults))
    && (stage == ParseStage ==> ParseSoFar(env, w0, w, attempts, ending, faults))
    && (stage != ParseStage && ending != Requeued ==>
          (w.status == Some(Working(stage)) <==> exists r: nat :: DropsAt(env, w0, stage, r, faults)))
  }

  ghost predicate StillQueued(env: Env, w0: World, w: World, stage: Stage, attempts: nat, faults: nat -> Faults) {
    && attempts <= MaxRetries(stage) && attempts <= RUNNER_CEILING && Message(stage, attempts) in w.sent
    && BeforeAttempt(env, w0, stage, attempts, faults) == Some(w)
  }

  ghost predicate ParseSoFar(env: Env, w0: World, w: World, attempts: nat, ending: Ending, faults: nat -> Faults) {
    attempts > 0 ==>
      && (w.status == Some(Parsing)
          <==> w0.status == Some(Parsing) || RaisesBeforeCommit(env, w0, ParseStage, faults(0)))
      && (ending == Requeued ==> w.status in {Some(Parsing), Some(Chunking)})
  }

  lemma {:induction false} OneMoreAttempt(env: Env, w0: World, before: World, after: World, stage: Stage,
      attempts: nat, ending: Ending,
      faults: nat -> Faults)
    requires before.live.None? && ConsumedSoFar(env, w0, before, stage, attempts, Requeued, faults)
    requires var d, f := Delivered(before, stage, attempts), faults(attempts);
      && AttemptEnd(env, d, stage, f) == Some(after)
          && ending == EndingOf(stage, attempts, OutcomeOf(env, d, stage, f), f)
      && (ending == Requeued ==> Message(stage, attempts + 1) in after.sent)
      && (ending == Done && stage != ParseStage ==> after.status != Some(Working(stage)))
      && (ending != Done ==>
            after.status == Some(if RaisesBeforeCommit(env, d, stage, f) then Working(stage)
                else Working(NextStage(if stage == EmbedStage then ParseStage else stage))))
      && (ending != Done && stage == EmbedStage ==> RaisesBeforeCommit(env, d, stage, f))
    ensures ConsumedSoFar(env, w0, after, stage, attempts + 1, ending, faults)
  {
    var d := Delivered(before, stage, attempts);
    assert RaisesBeforeCommit(env, d, stage, faults(attempts))
        == RaisesBeforeCommit(env, before, stage, faults(attempts));
    if ending == Requeued {
      assert BeforeAttempt(env, w0, stage, attempts + 1, faults) == Some(after);
    }
    if stage == ParseStage {
      ParseAttemptEnds(env, before, d, after, attempts, faults(attempts));
    } else if ending != Requeued {
      LastAttemptDecides(env, w0, before, stage, attempts, faults, ending, after.status);
    }
  }

  /** The attempt that is not queued again decides whether any of them asked for a retry in vain. */
  lemma {:induction false} LastAttemptDecides(env: Env, w: World, before: World, stage: Stage, last: nat,
      faults: nat -> Faults,
      ending: Ending, status: Option<Status>)
    requires stage != ParseStage && BeforeAttempt(env, w, stage, last, faults) == Some(before)
    requires ending == EndingOf(stage, last, OutcomeOf(env, Delivered(before, stage, last), stage, faults(last)),
        faults(last)) != Requeued
    requires ending == Done ==> status != Some(Working(stage))
    requires ending != Done
        ==> (status == Some(Working(stage)) <==> RaisesBeforeCommit(env, before, stage, faults(last)))
    ensures status == Some(Working(stage)) <==> exists r: nat :: DropsAt(env, w, stage, r, faults)
  {
    forall r: nat | DropsAt(env, w, stage, r, faults) ensures r == last {
      if r < last { EarlierWereRequeued(env, w, stage, r, last, faults); }
      if r > last { EarlierWereRequeued(env, w, stage, last, r, faults); }
    }
    if DropsAt(env, w, stage, last, faults) {
      RaisingIsRetryable(env, before, stage, last, faults(last));
    }
    if status == Some(Working(stage)) {
      assert DropsAt(env, w, stage, last, faults);
    }
  }

  lemma {:induction false} RaisingIsRetryable(env: Env, w: World, stage: Stage, r: nat, f: Faults)
    requires RaisesBeforeCommit(env, w, stage, f)
    ensures OutcomeOf(env, Delivered(w, stage, r), stage, f) == RaisedRetryable
  {
  }

  lemma {:induction false} ParseAttemptEnds(env: Env, before: World, delivered: World, after: World, retries: nat,
      f: Faults)
    requires delivered == before.(live := Some(Attempt(ParseStage, retries, Start)))
    requires AttemptEnd(env, delivered, ParseStage, f) == Some(after)
    requires retries <= MaxRetries(ParseStage)
    ensures !Claimable(before, ParseStage) ==> after.status == before.status
    ensures Claimable(before, ParseStage) ==>
      (after.status == Some(Parsing) <==>
         RaisesBeforeCommit(env, before, ParseStage, f) && retries < MaxRetries(ParseStage))
  {
    var v, outcome := Exec(env, delivered, ParseScript(env, delivered, f)).value, ParseOutcome(env, delivered, f);
    ParseScriptStatus(env, delivered, v, f);
    ClosingStatus(env, v, outcome, f, after);
  }

  /** The task shell leaves the status alone or makes it `failed`; the latter unless it asks for a retry. */
  lemma {:induction false} ClosingStatus(env: Env, w: World, outcome: Outcome, f: Faults, after: World)
    requires Exec(env, w, Closing(w, outcome, f)) == Some(after)
    ensures outcome == Returned || w.live.None? ==> after.status == w.status
    ensures outcome != Returned && w.live.Some? && w.status.Some? ==>
      after.status == if outcome == RaisedRetryable && w.live.value.retries < MaxRetries(w.live.value.stage)
                      then w.status else Some(Failed)
  {
    var closing := Closing(w, outcome, f);
    if closing != [] {
      ExecFirst(env, w, closing[0]);
      assert closing == [closing[0]];
    }
  }

  lemma {:induction false} ExecFirst(env: Env, w: World, a: Label)
    ensures Exec(env, w, [a]) == if Enabled(env, w, a) then Some(Next(env, w, a)) else None
  {
    assert [a][..0] == [];
  }

  lemma {:induction false} ParseScriptStatus(env: Env, w: World, v: World, f: Faults)
    requires At(w, ParseStage, Start) && Exec(env, w, ParseScript(env, w, f)) == Some(v)
    ensures !Claimable(w, ParseStage) ==> v.status == w.status && v.live.None?
    ensures Claimable(w, ParseStage) && ParseOutcome(env, w, f) == Returned
        ==> v.live.None? && v.status in {Some(Failed), Some(Chunking)}
    ensures Claimable(w, ParseStage) && ParseOutcome(env, w, f) != Returned ==>
      && v.live.Some? && v.live.value.retries == w.live.value.retries && v.live.value.stage == ParseStage
      && v.live.value.at != Start
      && (v.status == if v.live.value.at == Committed then Some(Chunking) else Some(Parsing))
      && (v.live.value.at == Committed <==> f.read == NoFault && f.write == NoFault)
  {
    ExecOne(env, w, Claim);
    if Claimable(w, ParseStage) && f.read == NoFault {
      if !w.hasOriginal || env.parse(env.original).None? {
        ExecTwo(env, w, Claim, Permanent);
      } else if f.write != NoFault {
        if f.torn { ExecTwo(env, w, Claim, TearNormalized); }
      } else {
        ExecThree(env, w, Claim, WriteNormalized, Label.SucceedParse);
        var u := Next(env, Next(env, Next(env, w, Claim), WriteNormalized), Label.SucceedParse);
        Then(env, w, [Claim, WriteNormalized, Label.SucceedParse], Enqueue);
        assert [Claim, WriteNormalized, Label.SucceedParse] + [Enqueue]
            == [Claim, WriteNormalized, Label.SucceedParse, Enqueue];
      }
    }
  }

  /** A provider that answers every attempt with a retryable error, and a broker that takes every message. */
  ghost predicate AlwaysBusy(faults: nat -> Faults) {
    forall r: nat :: faults(r).requeued && faults(r).answers != [] && faults(r).answers[0] == RetryableError
  }

  lemma {:induction false} BusyAttempt(env: Env, w: World, faults: nat -> Faults, r: nat)
    requires AlwaysBusy(faults) && r < RUNNER_CEILING
    requires w.live.None? && Claimable(w, EmbedStage) && Unembedded(w.chunks, 0, env.batch) != []
    ensures var u := NextAttempt(env, EmbedStage, faults, r, w);
            u.Some? && u.value.live.None? && Claimable(u.value, EmbedStage) && u.value.chunks == w.chunks
  {
    var d := Delivered(w, EmbedStage, r);
    assert [Claim] + [] == [Claim];
    ExecOne(env, d, Claim);
    ExecOne(env, Next(env, d, Claim), Transient(true));
  }

  lemma {:induction false} BusyAttempts(env: Env, w: World, faults: nat -> Faults, r: nat)
    requires AlwaysBusy(faults) && r <= RUNNER_CEILING
    requires w.live.None? && Claimable(w, EmbedStage) && Unembedded(w.chunks, 0, env.batch) != []
    ensures var u := BeforeAttempt(env, w, EmbedStage, r, faults);
            u.Some? && u.value.live.None? && Claimable(u.value, EmbedStage) && u.value.chunks == w.chunks
  {
    if r > 0 {
      BusyAttempts(env, w, faults, r - 1);
      BusyAttempt(env, BeforeAttempt(env, w, EmbedStage, r - 1, faults).value, faults, r - 1);
    }
  }

  /**
   * Then a document in `embedding` is dropped at the runner's ceiling, with two of the stage's
   * retries still to come.
   */
  lemma {:induction false} BusyProviderDrops(env: Env, w: World, faults: nat -> Faults)
    requires AlwaysBusy(faults)
    requires w.live.None? && Claimable(w, EmbedStage) && Unembedded(w.chunks, 0, env.batch) != []
    ensures DropsAt(env, w, EmbedStage, RUNNER_CEILING, faults) && RUNNER_CEILING + 2 == MaxRetries(EmbedStage)
  {
    BusyAttempts(env, w, faults, RUNNER_CEILING);
  }
}
