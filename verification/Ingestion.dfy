/**
 * One document's way through parse, chunk and embed, as a transition system whose steps are the
 * commits. Messages may be lost, repeated, late and reordered; a worker may die, or storage,
 * provider or broker fail, between any two commits; users may retry and delete.
 */
module Ingestion {
  import opened Text
  import opened Documents

  type Bytes = string
  type Vector = seq<real>

  datatype Stage = ParseStage | ChunkStage | EmbedStage
  datatype Status = Pending | Parsing | Chunking | Embedding | Ready | Failed
  datatype JobStatus = Running | Succeeded | JobFailed

  /** A queued task, with the number of times it has been retried. */
  datatype Message = Message(stage: Stage, retries: nat)

  /** A write of the normalised document may be cut short; what is left then does not parse. */
  datatype Stored = Whole(doc: seq<Block>) | Torn

  datatype ChunkRow = ChunkRow(draft: ChunkDraft, embedding: Option<Vector>, version: Option<string>)

  /** The uploaded bytes, and what parser, chunker and provider make of them. */
  datatype Env = Env(
    original: Bytes, parse: Bytes -> Option<seq<Block>>, chunk: seq<Block> -> seq<ChunkDraft>,
    embed: string -> Vector, version: string, batch: nat)

  /** Where a stage attempt is: before its claim, after it, after its storage write, after its final commit. */
  datatype Progress = Start | Claimed | Written | Broken | Committed

  datatype Attempt = Attempt(stage: Stage, retries: nat, at: Progress)

  /**
   * A user request in flight: it has read `failed`, then chosen the stage to restart, then
   * committed the entry status.
   */
  datatype Request = Found | Chosen(stage: Stage) | Entered(stage: Stage)

  datatype World = World(
    status: Option<Status>,           // None once the document is deleted
    jobs: map<Stage, JobStatus>,
    hasOriginal: bool,
    normalized: Option<Stored>,
    chunks: seq<ChunkRow>,
    batches: nat,                     // embedding batches committed since the chunks were last replaced
    sent: set<Message>,               // every message ever queued: any of them may still be delivered
    live: Option<Attempt>,            // at most one stage attempt at a time
    requests: seq<Request>)

  /** Just after the upload's commit: the upload itself is the request that queues the parse message. */
  const INITIAL := World(Some(Pending), map[], true, None, [], 0, {}, None, [Entered(ParseStage)])

  function MaxRetries(stage: Stage): nat { if stage == EmbedStage then 5 else 3 }

  /** Past this many retries the task runner refuses to queue a task again: its default, which no task overrides. */
  const RUNNER_CEILING: nat := 3

  function AllowedFrom(stage: Stage): set<Status> {
    match stage
    case ParseStage => {Pending, Failed}
    case ChunkStage => {Chunking, Failed}
    case EmbedStage => {Embedding, Failed}
  }

  function Working(stage: Stage): Status {
    match stage
    case ParseStage => Parsing
    case ChunkStage => Chunking
    case EmbedStage => Embedding
  }

  function EntryStatus(stage: Stage): Status {
    match stage
    case ParseStage => Pending
    case ChunkStage => Chunking
    case EmbedStage => Embedding
  }

  function JobFailedAt(jobs: map<Stage, JobStatus>, stage: Stage): bool { stage in jobs && jobs[stage] == JobFailed }

  /** The earliest failed stage; the parse stage when no failure is on record. */
  function RestartStage(jobs: map<Stage, JobStatus>): Stage {
    if JobFailedAt(jobs, ParseStage) then ParseStage
    else if JobFailedAt(jobs, ChunkStage) then ChunkStage
    else if JobFailedAt(jobs, EmbedStage) then EmbedStage
    else ParseStage
  }

  function NextStage(stage: Stage): Stage
    requires stage != EmbedStage
  {
    if stage == ParseStage then ChunkStage else EmbedStage
  }

  // --- chunk rows ------------------------------------------------------------

  function FreshRows(drafts: seq<ChunkDraft>): seq<ChunkRow> {
    seq(|drafts|, i requires 0 <= i < |drafts| => ChunkRow(drafts[i], None, None))
  }

  /** The rows of `drafts`, the first `k` of them embedded. */
  function RowsUpTo(env: Env, drafts: seq<ChunkDraft>, k: nat): seq<ChunkRow> {
    seq(|drafts|, i requires 0 <= i < |drafts| =>
      if i < k then ChunkRow(drafts[i], Some(env.embed(drafts[i].text)), Some(env.version))
          else ChunkRow(drafts[i], None, None))
  }

  function DraftsOf(rows: seq<ChunkRow>): seq<ChunkDraft> { Map((r: ChunkRow) => r.draft, rows) }

  /** The first `limit` positions without an embedding, in seq order. */
  function Unembedded(rows: seq<ChunkRow>, from: nat, limit: nat): seq<nat>
    requires from <= |rows|
    decreases |rows| - from
  {
    if from == |rows| || limit == 0 then []
    else if rows[from].embedding.None? then [from] + Unembedded(rows, from + 1, limit - 1)
    else Unembedded(rows, from + 1, limit)
  }

  function SetEmbeddings(env: Env, rows: seq<ChunkRow>, picked: seq<nat>): seq<ChunkRow> {
    seq(|rows|, i requires 0 <= i < |rows| =>
      if i in picked then rows[i].(embedding := Some(env.embed(rows[i].draft.text)), version := Some(env.version))
          else rows[i])
  }

  /** What chunking the parsed upload gives, if the upload can be parsed. */
  function Target(env: Env): Option<seq<ChunkDraft>> {
    match env.parse(env.original)
    case None => None
    case Some(doc) => Some(env.chunk(doc))
  }

  // --- steps -----------------------------------------------------------------

  datatype Label =
    | Deliver(message: Message)
    | Claim
    | WriteNormalized
    | TearNormalized
    | SucceedParse
    | SucceedChunk
    | EmbedBatch
    | SucceedEmbed
    | Enqueue
    | Transient(requeued: bool)
    | Permanent
    | EnqueueLost(delivered: bool, retryable: bool, requeued: bool)
    | Crash
    | Begin
    | Choose(i: nat)
    | Enter(i: nat)
    | Send(i: nat)
    | SendFails(i: nat, delivered: bool)
    | Drop(i: nat)
    | Delete
    | Purge

  predicate At(w: World, stage: Stage, at: Progress) {
    w.live.Some? && w.live.value.stage == stage && w.live.value.at == at
  }

  predicate Enabled(env: Env, w: World, l: Label) {
    match l
    case Deliver(m) => w.live.None? && m in w.sent
    case Claim => w.live.Some? && w.live.value.at == Start
    case WriteNormalized => At(w, ParseStage, Claimed) && w.hasOriginal && env.parse(env.original).Some?
    case TearNormalized => At(w, ParseStage, Claimed) && w.hasOriginal && env.parse(env.original).Some?
    case SucceedParse => At(w, ParseStage, Written) && w.status.Some?
    case SucceedChunk => At(w, ChunkStage, Claimed) && w.status.Some? && w.normalized.Some? && w.normalized.value.Whole?
    case EmbedBatch => At(w, EmbedStage, Claimed) && Unembedded(w.chunks, 0, env.batch) != []
    case SucceedEmbed => At(w, EmbedStage, Claimed) && w.status.Some? && Unembedded(w.chunks, 0, env.batch) == []
    case Enqueue => w.live.Some? && w.live.value.at == Committed && w.live.value.stage != EmbedStage
    case Transient(_) => w.live.Some? && w.live.value.at != Start
    case Permanent => w.live.Some? && w.live.value.at != Start
    case EnqueueLost(_, _, _) => w.live.Some? && w.live.value.at == Committed && w.live.value.stage != EmbedStage
    case Crash => w.live.Some?
    case Begin => w.status == Some(Failed)
    case Choose(i) => i < |w.requests| && w.requests[i].Found?
    case Enter(i) => i < |w.requests| && w.requests[i].Chosen?
    case Send(i) => i < |w.requests| && w.requests[i].Entered?
    case SendFails(i, _) => i < |w.requests| && w.requests[i].Entered?
    case Drop(i) => i < |w.requests|
    case Delete => w.status.Some?
    case Purge => w.status.None?
  }

  function Advance(w: World, at: Progress): World
    requires w.live.Some?
  {
    w.(live := Some(w.live.value.(at := at)))
  }

  /** The failure commit. Once the document row is gone it changes nothing. */
  function MarkFailed(w: World, stage: Stage): World {
    if w.status.None? then w else w.(jobs := w.jobs[stage := JobFailed], status := Some(Failed))
  }

  function ClaimStep(w: World): World
    requires w.live.Some?
  {
    var stage := w.live.value.stage;
    if w.status.Some? && w.status.value in AllowedFrom(stage)
    then Advance(w, Claimed).(status := Some(Working(stage)), jobs := w.jobs[stage := Running])
    else w.(live := None)
  }

  /**
   * A retryable error: with no retry left the stage is marked failed; otherwise the task asks the
   * runner to queue it again. The runner refuses past its own ceiling, and when the broker does
   * (`requeued`); then the attempt is over and nothing is queued or marked.
   */
  function RetryOrGiveUp(w: World, requeued: bool): World
    requires w.live.Some?
  {
    var a := w.live.value;
    if a.retries >= MaxRetries(a.stage) then MarkFailed(w, a.stage).(live := None)
    else if a.retries < RUNNER_CEILING
        && requeued then w.(sent := w.sent + {Message(a.stage, a.retries + 1)}, live := None)
    else w.(live := None)
  }

  function Forget(requests: seq<Request>, i: nat): seq<Request>
    requires i < |requests|
  {
    requests[..i] + requests[i + 1..]
  }

  function Next(env: Env, w: World, l: Label): World
    requires Enabled(env, w, l)
  {
    match l
    case Deliver(m) => w.(live := Some(Attempt(m.stage, m.retries, Start)))
    case Claim => ClaimStep(w)
    case WriteNormalized => Advance(w, Written).(normalized := Some(Whole(env.parse(env.original).value)))
    case TearNormalized => Advance(w, Broken).(normalized := Some(Torn))
    case SucceedParse => Advance(w, Committed).(jobs := w.jobs[ParseStage := Succeeded], status := Some(Chunking))
    case SucceedChunk =>
      Advance(w, Committed).(chunks := FreshRows(env.chunk(w.normalized.value.doc)), batches := 0,
        jobs := w.jobs[ChunkStage := Succeeded], status := Some(Embedding))
    case EmbedBatch =>
      w.(chunks := SetEmbeddings(env, w.chunks, Unembedded(w.chunks, 0, env.batch)), batches := w.batches + 1)
    case SucceedEmbed => w.(jobs := w.jobs[EmbedStage := Succeeded], status := Some(Ready), live := None)
    case Enqueue => w.(sent := w.sent + {Message(NextStage(w.live.value.stage), 0)}, live := None)
    case Transient(requeued) => RetryOrGiveUp(w, requeued)
    case Permanent => MarkFailed(w, w.live.value.stage).(live := None)
    case EnqueueLost(delivered, retryable, requeued) =>
      var v := if delivered then w.(sent := w.sent + {Message(NextStage(w.live.value.stage), 0)}) else w;
      if retryable then RetryOrGiveUp(v, requeued) else MarkFailed(v, v.live.value.stage).(live := None)
    case Crash => w.(live := None)
    case Begin => w.(requests := w.requests + [Found])
    case Choose(i) => w.(requests := w.requests[i := Chosen(RestartStage(w.jobs))])
    case Enter(i) =>
      if w.status.None? then w.(requests := Forget(w.requests, i))
      else w.(status := Some(EntryStatus(w.requests[i].stage)),
          requests := w.requests[i := Entered(w.requests[i].stage)])
    case Send(i) => w.(sent := w.sent + {Message(w.requests[i].stage, 0)}, requests := Forget(w.requests, i))
    case SendFails(i, delivered) =>
      w.(sent := if delivered then w.sent + {Message(w.requests[i].stage, 0)} else w.sent,
         status := if w.status.Some? then Some(Failed) else None, requests := Forget(w.requests, i))
    case Drop(i) => w.(requests := Forget(w.requests, i))
    case Delete => w.(status := None, jobs := map[], chunks := [], batches := 0)
    case Purge => w.(hasOriginal := false, normalized := None)
  }

  /** The world after the steps of `run`, if each of them is enabled in its turn. */
  function Exec(env: Env, w: World, run: seq<Label>): Option<World> {
    if run == [] then Some(w)
    else
      var n := |run| - 1;
      match Exec(env, w, run[..n])
      case None => None
      case Some(v) => if Enabled(env, v, run[n]) then Some(Next(env, v, run[n])) else None
  }

  /** `w` can come about after an upload. */
  ghost predicate Reachable(env: Env, w: World) {
    exists run :: Exec(env, INITIAL, run) == Some(w)
  }

  lemma {:induction false} ExecAppend(env: Env, w: World, run: seq<Label>, more: seq<Label>)
    requires Exec(env, w, run).Some?
    ensures Exec(env, w, run + more) == Exec(env, Exec(env, w, run).value, more)
  {
    if more == [] {
      assert run + more == run;
    } else {
      var n := |more| - 1;
      ExecAppend(env, w, run, more[..n]);
      assert (run + more)[..|run| + n] == run + more[..n];
    }
  }
}
