/** What holds of a document in every run, whatever faults, duplicates, delays, retries and races occur. */
module IngestionSafety {
  import opened Text
  import opened Documents
  import opened Ingestion

  function Min(a: nat, b: nat): nat { if a < b then a else b }

  /** How many chunks are embedded after the batches committed so far. */
  function Done(env: Env, w: World): nat { Min(|w.chunks|, w.batches * env.batch) }

  /** The stored chunks are those of the parsed upload. */
  ghost predicate HasChunks(env: Env, w: World) { Target(env) == Some(DraftsOf(w.chunks)) }

  ghost predicate Queued(w: World, stage: Stage) { exists m :: m in w.sent && m.stage == stage }

  ghost predicate Requested(w: World, stage: Stage) { exists i :: 0 <= i < |w.requests| && Names(w.requests[i], stage) }

  predicate Names(r: Request, stage: Stage) { !r.Found? && r.stage == stage }

  /** Something in the world counts on the normalised document. */
  ghost predicate NeedsNormalized(w: World) {
    || Queued(w, ChunkStage) || Requested(w, ChunkStage)
    || ChunkStage in w.jobs || w.status == Some(Chunking)
    || (w.live.Some? && w.live.value.stage == ChunkStage)
    || At(w, ParseStage, Written) || At(w, ParseStage, Committed)
  }

  /** Something in the world counts on the stored chunks. */
  ghost predicate NeedsChunks(w: World) {
    || Queued(w, EmbedStage) || Requested(w, EmbedStage)
    || EmbedStage in w.jobs || w.status == Some(Embedding) || w.status == Some(Ready)
    || (w.live.Some? && w.live.value.stage == EmbedStage)
    || At(w, ChunkStage, Committed)
  }

  /** A prefix of the chunks, of exactly the length the committed batches account for, is embedded. */
  ghost predicate EmbeddedInOrder(env: Env, w: World) {
    && w.chunks == RowsUpTo(env, DraftsOf(w.chunks), Done(env, w))
    && (w.batches > 0 ==> (w.batches - 1) * env.batch < |w.chunks|)
  }

  /** A ready document is completely embedded, and no attempt has got past its claim. */
  ghost predicate ReadyIsDone(env: Env, w: World) {
    w.status == Some(Ready) ==>
      && Done(env, w) == |w.chunks|
      && (w.live.Some? ==> w.live.value.at == Start)
  }

  predicate Allowed(stage: Stage, retries: nat) { retries <= MaxRetries(stage) && retries <= RUNNER_CEILING }

  predicate RetriesBounded(w: World) {
    && (forall m | m in w.sent :: Allowed(m.stage, m.retries))
    && (w.live.Some? ==> Allowed(w.live.value.stage, w.live.value.retries))
  }

  ghost predicate Sound(env: Env, w: World) {
    && w.hasOriginal
    && (w.normalized.Some? && w.normalized.value.Whole? ==> env.parse(env.original) == Some(w.normalized.value.doc))
    && (NeedsNormalized(w) ==> w.normalized.Some?)
    && (NeedsChunks(w) ==> HasChunks(env, w))
    && EmbeddedInOrder(env, w)
    && ReadyIsDone(env, w)
  }

  ghost predicate Inv(env: Env, w: World) {
    && RetriesBounded(w)
    && (w.status.Some? ==> Sound(env, w))
    && (w.status.None? ==> w.chunks == [] && w.batches == 0 && w.jobs == map[])
  }

  // --- embedding -------------------------------------------------------------

  function Positions(k: nat, n: nat): seq<nat>
    requires k <= n
  {
    seq(n - k, i requires 0 <= i < n - k => k + i)
  }

  /** The cursor finds the rows right after the embedded prefix. */
  lemma {:induction false} CursorFollowsPrefix(env: Env, drafts: seq<ChunkDraft>, k: nat, from: nat, limit: nat)
    requires k <= |drafts| && from <= |drafts|
    ensures var start := if from < k then k else from;
            Unembedded(RowsUpTo(env, drafts, k), from, limit) == Positions(start, Min(|drafts|, start + limit))
    decreases |drafts| - from
  {
    if from < |drafts| && limit > 0 {
      if from < k {
        CursorFollowsPrefix(env, drafts, k, from + 1, limit);
      } else {
        CursorFollowsPrefix(env, drafts, k, from + 1, limit - 1);
        assert Positions(from, Min(|drafts|, from + limit))
            == [from] + Positions(from + 1, Min(|drafts|, from + limit));
      }
    }
  }

  /** Embedding what the cursor finds lengthens the embedded prefix by one batch. */
  lemma {:induction false} BatchLengthensPrefix(env: Env, drafts: seq<ChunkDraft>, k: nat)
    requires k <= |drafts|
    ensures var rows := RowsUpTo(env, drafts, k);
            && SetEmbeddings(env, rows, Unembedded(rows, 0, env.batch))
                == RowsUpTo(env, drafts, Min(|drafts|, k + env.batch))
            && (env.batch >= 1 ==> (Unembedded(rows, 0, env.batch) == [] <==> k == |drafts|))
            && DraftsOf(rows) == drafts
  {
    var rows, n := RowsUpTo(env, drafts, k), Min(|drafts|, k + env.batch);
    CursorFollowsPrefix(env, drafts, k, 0, env.batch);
    var picked := Positions(k, n);
    forall i | 0 <= i < |drafts| ensures i in picked <==> k <= i < n {
      if k <= i < n { assert picked[i - k] == i; }
    }
    assert SetEmbeddings(env, rows, picked) == RowsUpTo(env, drafts, n);
  }

  lemma {:induction false} FreshIsUnembedded(env: Env, drafts: seq<ChunkDraft>)
    ensures FreshRows(drafts) == RowsUpTo(env, drafts, 0) && DraftsOf(FreshRows(drafts)) == drafts
  {
  }

  // --- every step keeps the invariant ----------------------------------------

  lemma {:induction false} ForgetForgets(w: World, i: nat, stage: Stage)
    requires i < |w.requests|
    ensures Requested(w.(requests := Forget(w.requests, i)), stage) ==> Requested(w, stage)
    ensures !w.requests[i].Found? ==> Requested(w, w.requests[i].stage)
  {
    var rest := Forget(w.requests, i);
    if j :| 0 <= j < |rest| && Names(rest[j], stage) {
      assert rest[j] == w.requests[if j < i then j else j + 1];
    }
    assert !w.requests[i].Found? ==> Names(w.requests[i], w.requests[i].stage);
  }

  /** Only these parts of the world matter to what is counted on; the rest may change freely. */
  lemma {:induction false} SoundFrame(env: Env, w: World, v: World)
    requires Sound(env, w)
    requires v.hasOriginal && v.normalized == w.normalized && v.chunks == w.chunks && v.batches == w.batches
    requires NeedsNormalized(v) ==> w.normalized.Some?
    requires NeedsChunks(v) ==> HasChunks(env, w)
    requires ReadyIsDone(env, v)
    ensures Sound(env, v)
  {
  }

  lemma {:induction false} DeliverKeeps(env: Env, w: World, m: Message)
    requires Inv(env, w) && Enabled(env, w, Deliver(m))
    ensures Inv(env, Next(env, w, Deliver(m)))
  {
    assert Queued(w, m.stage);
  }

  lemma {:induction false} ClaimKeeps(env: Env, w: World)
    requires Inv(env, w) && Enabled(env, w, Claim)
    ensures Inv(env, Next(env, w, Claim))
  {
    if w.status.Some? {
      SoundFrame(env, w, Next(env, w, Claim));
    }
  }

  lemma {:induction false} ParseStepsKeep(env: Env, w: World, l: Label)
    requires Inv(env, w) && Enabled(env, w, l) && l in {WriteNormalized, TearNormalized, SucceedParse}
    ensures Inv(env, Next(env, w, l))
  {
  }

  lemma {:induction false} SucceedChunkKeeps(env: Env, w: World)
    requires Inv(env, w) && Enabled(env, w, SucceedChunk)
    ensures Inv(env, Next(env, w, SucceedChunk))
  {
    FreshIsUnembedded(env, env.chunk(w.normalized.value.doc));
  }

  lemma {:induction false} EmbedBatchKeeps(env: Env, w: World)
    requires env.batch >= 1 && Inv(env, w) && Enabled(env, w, EmbedBatch)
    ensures Inv(env, Next(env, w, EmbedBatch))
    ensures DraftsOf(Next(env, w, EmbedBatch).chunks) == DraftsOf(w.chunks)
  {
    if w.status.Some? {
      var drafts, v := DraftsOf(w.chunks), Next(env, w, EmbedBatch);
      BatchLengthensPrefix(env, drafts, Done(env, w));
      BatchLengthensPrefix(env, drafts, Done(env, v));
      assert v.batches * env.batch == w.batches * env.batch + env.batch;
    }
  }

  lemma {:induction false} SucceedEmbedKeeps(env: Env, w: World)
    requires env.batch >= 1 && Inv(env, w) && Enabled(env, w, SucceedEmbed)
    ensures Inv(env, Next(env, w, SucceedEmbed))
  {
    BatchLengthensPrefix(env, DraftsOf(w.chunks), Done(env, w));
  }

  lemma {:induction false} EnqueueKeeps(env: Env, w: World)
    requires Inv(env, w) && Enabled(env, w, Enqueue)
    ensures Inv(env, Next(env, w, Enqueue))
  {
    if w.status.Some? {
      SoundFrame(env, w, Next(env, w, Enqueue));
    }
  }

  lemma {:induction false} GiveUpKeeps(env: Env, w: World, requeued: bool)
    requires Inv(env, w) && w.live.Some? && w.live.value.at != Start
    ensures Inv(env, RetryOrGiveUp(w, requeued)) && Inv(env, MarkFailed(w, w.live.value.stage).(live := None))
  {
    if w.status.Some? {
      SoundFrame(env, w, RetryOrGiveUp(w, requeued));
      SoundFrame(env, w, MarkFailed(w, w.live.value.stage).(live := None));
    }
  }

  lemma {:induction false} EnqueueLostKeeps(env: Env, w: World, delivered: bool, retryable: bool, requeued: bool)
    requires Inv(env, w) && Enabled(env, w, EnqueueLost(delivered, retryable, requeued))
    ensures Inv(env, Next(env, w, EnqueueLost(delivered, retryable, requeued)))
  {
    var v := if delivered then w.(sent := w.sent + {Message(NextStage(w.live.value.stage), 0)}) else w;
    if w.status.Some? {
      SoundFrame(env, w, v);
    }
    GiveUpKeeps(env, v, requeued);
  }

  lemma {:induction false} ChooseKeeps(env: Env, w: World, l: Label)
    requires Inv(env, w) && Enabled(env, w, l) && (l.Begin? || l.Choose?)
    ensures Inv(env, Next(env, w, l))
  {
    var v := Next(env, w, l);
    forall stage | Requested(v, stage) ensures Requested(w, stage) || stage == RestartStage(w.jobs) {
      var j :| 0 <= j < |v.requests| && Names(v.requests[j], stage);
      if j < |w.requests| && w.requests[j] == v.requests[j] { assert Names(w.requests[j], stage); }
    }
    if w.status.Some? {
      SoundFrame(env, w, v);
    }
  }

  lemma {:induction false} RequestStepsKeep(env: Env, w: World, l: Label)
    requires Inv(env, w) && Enabled(env, w, l) && (l.Enter? || l.Send? || l.SendFails? || l.Drop?)
    ensures Inv(env, Next(env, w, l))
  {
    ForgetForgets(w, l.i, ChunkStage);
    ForgetForgets(w, l.i, EmbedStage);
    if w.status.Some? {
      SoundFrame(env, w, Next(env, w, l));
    }
  }

  lemma {:induction false} StepKeeps(env: Env, w: World, l: Label)
    requires env.batch >= 1 && Inv(env, w) && Enabled(env, w, l)
    ensures Inv(env, Next(env, w, l))
  {
    match l
    case Deliver(m) => DeliverKeeps(env, w, m);
    case Claim => ClaimKeeps(env, w);
    case WriteNormalized => ParseStepsKeep(env, w, l);
    case TearNormalized => ParseStepsKeep(env, w, l);
    case SucceedParse => ParseStepsKeep(env, w, l);
    case SucceedChunk => SucceedChunkKeeps(env, w);
    case EmbedBatch => EmbedBatchKeeps(env, w);
    case SucceedEmbed => SucceedEmbedKeeps(env, w);
    case Enqueue => EnqueueKeeps(env, w);
    case Transient(requeued) => GiveUpKeeps(env, w, requeued);
    case Permanent => GiveUpKeeps(env, w, true);
    case EnqueueLost(delivered, retryable, requeued) => EnqueueLostKeeps(env, w, delivered, retryable, requeued);
    case Crash =>
    case Begin => ChooseKeeps(env, w, l);
    case Choose(_) => ChooseKeeps(env, w, l);
    case Enter(_) => RequestStepsKeep(env, w, l);
    case Send(_) => RequestStepsKeep(env, w, l);
    case SendFails(_, _) => RequestStepsKeep(env, w, l);
    case Drop(_) => RequestStepsKeep(env, w, l);
    case Delete =>
    case Purge =>
  }

  lemma {:induction false} RunKeeps(env: Env, w: World, run: seq<Label>)
    requires env.batch >= 1 && Inv(env, w) && Exec(env, w, run).Some?
    ensures Inv(env, Exec(env, w, run).value)
  {
    if run != [] {
      RunKeeps(env, w, run[..|run| - 1]);
      StepKeeps(env, Exec(env, w, run[..|run| - 1]).value, run[|run| - 1]);
    }
  }

  lemma {:induction false} InitialIsSound(env: Env)
    ensures Inv(env, INITIAL)
  {
    assert RowsUpTo(env, [], 0) == [] && DraftsOf([]) == [];
  }

  lemma {:induction false} ReachableIsSound(env: Env, w: World)
    requires env.batch >= 1 && Reachable(env, w)
    ensures Inv(env, w)
  {
    var run :| Exec(env, INITIAL, run) == Some(w);
    InitialIsSound(env);
    RunKeeps(env, INITIAL, run);
  }

  // --- where the normalised document comes from ------------------------------

  /** A normalised document comes from a parse attempt on a parsable upload, and that from a parse message. */
  ghost predicate Provenance(env: Env, w: World) {
    && (w.normalized.Some? ==> env.parse(env.original).Some? && Queued(w, ParseStage))
    && (w.live.Some? && w.live.value.stage == ParseStage ==> Queued(w, ParseStage))
  }

  lemma {:induction false} ProvenanceStep(env: Env, w: World, l: Label)
    requires Provenance(env, w) && Enabled(env, w, l)
    ensures Provenance(env, Next(env, w, l))
  {
    var v := Next(env, w, l);
    if m :| m in w.sent && m.stage == ParseStage {
      assert m in v.sent;
    }
    if l.Deliver? { assert l.message in v.sent; }
  }

  lemma {:induction false} RunHasProvenance(env: Env, run: seq<Label>)
    requires Exec(env, INITIAL, run).Some?
    ensures Provenance(env, Exec(env, INITIAL, run).value)
  {
    if run != [] {
      RunHasProvenance(env, run[..|run| - 1]);
      ProvenanceStep(env, Exec(env, INITIAL, run[..|run| - 1]).value, run[|run| - 1]);
    }
  }

  lemma {:induction false} ReachableHasProvenance(env: Env, w: World)
    requires Reachable(env, w)
    ensures Provenance(env, w)
  {
    var run :| Exec(env, INITIAL, run) == Some(w);
    RunHasProvenance(env, run);
  }
}
