/** The user's requests on a document: retry, also as the second upload of a failed file, and deletion. */
module Requests {
  import opened Text
  import opened Ingestion
  import opened IngestionResults
  import opened IngestionInputs
  import opened IngestionService

  const STAGE_ORDER: seq<Stage> := [ParseStage, ChunkStage, EmbedStage]

  /** The stages that come before `stage` have no failure on record. */
  predicate FirstFailed(jobs: map<Stage, JobStatus>, stage: Stage) {
    && JobFailedAt(jobs, stage)
    && (stage != ParseStage ==> !JobFailedAt(jobs, ParseStage))
    && (stage == EmbedStage ==> !JobFailedAt(jobs, ChunkStage))
  }

  datatype Reply = Accepted | NotFound | NotRetryable

  class DocumentService {
    const env: Env
    const owner: nat
    var status: Option<Status>
    var jobs: map<Stage, JobStatus>
    var queue: set<Message>

    /** The protocol state that the fields belong to. */
    ghost var world: World

    ghost predicate Valid()
      reads this
    {
      status == world.status && jobs == world.jobs && queue == world.sent
    }

    /** The search through the stages in their order. */
    method FirstFailedStage() returns (r: Option<Stage>)
      requires Valid()
      ensures r.Some? ==> FirstFailed(jobs, r.value)
      ensures r.None? ==> forall stage :: !JobFailedAt(jobs, stage)
      ensures RestartStage(jobs) == r.GetOr(ParseStage)
    {
      for k := 0 to |STAGE_ORDER|
        invariant forall j | 0 <= j < k :: !JobFailedAt(jobs, STAGE_ORDER[j])
      {
        if JobFailedAt(jobs, STAGE_ORDER[k]) {
          assert STAGE_ORDER[0] == ParseStage && STAGE_ORDER[1] == ChunkStage;
          return Some(STAGE_ORDER[k]);
        }
      }
      assert STAGE_ORDER[0] == ParseStage && STAGE_ORDER[1] == ChunkStage && STAGE_ORDER[2] == EmbedStage;
      forall stage ensures !JobFailedAt(jobs, stage) {
        match stage { case ParseStage => case ChunkStage => case EmbedStage => }
      }
      return None;
    }

    /**
     * `_restart_from_failed_stage`: the entry status of the earliest failed stage is committed, then
     * its message queued; if queueing fails the document is failed again, to be retried later.
     */
    method RestartFromFailedStage(queued: bool, delivered: bool)
      requires Valid() && status == Some(Failed)
      modifies this
      ensures Valid() && Exec(env, old(world), RestartScript(old(world), queued, delivered)) == Some(world)
      ensures jobs == old(jobs) && status == Some(if queued then EntryStatus(RestartStage(jobs)) else Failed)
      ensures queued ==> Message(RestartStage(jobs), 0) in queue
    {
      RestartRuns(env, world, queued, delivered);
      var failed := FirstFailedStage();
      var stage := failed.GetOr(ParseStage);
      status := Some(EntryStatus(stage));
      if queued || delivered {
        queue := queue + {Message(stage, 0)};
      }
      if !queued {
        status := Some(Failed);
      }
      world := Exec(env, world, RestartScript(world, queued, delivered)).value;
    }

    /** Only its owner's failed document is restarted; any other is left as it is. */
    method Retry(user: nat, queued: bool, delivered: bool) returns (reply: Reply)
      requires Valid()
      modifies this
      ensures Valid()
      ensures reply == if old(status).None?
          || user != owner then NotFound else if old(status) != Some(Failed) then NotRetryable else Accepted
      ensures Exec(env, old(world), if reply == Accepted then RestartScript(old(world), queued, delivered) else [])
          == Some(world)
    {
      if status.None? || user != owner {
        return NotFound;
      }
      if status != Some(Failed) {
        return NotRetryable;
      }
      RestartFromFailedStage(queued, delivered);
      return Accepted;
    }

    method Delete(user: nat) returns (reply: Reply)
      requires Valid()
      modifies this
      ensures Valid() && (status.None? <==> old(status).None? || user == owner)
      ensures reply == if old(status).None? || user != owner then NotFound else Accepted
      ensures Exec(env, old(world), if reply == Accepted then [Label.Delete] else []) == Some(world)
    {
      if status.None? || user != owner {
        return NotFound;
      }
      ExecOne(env, world, Label.Delete);
      status, jobs := None, map[];
      world := Next(env, world, Label.Delete);
      return Accepted;
    }
  }

  /**
   * Wherever a run has left a failed document with no attempt running, an accepted retry whose message
   * is queued can be carried through to its claim, with the chunks kept; and the claimed stage then has
   * its input exactly if it is not the chunk stage after a torn write.
   */
  lemma {:induction false} AcceptedRetryIsClaimed(env: Env, run: seq<Label>, delivered: bool)
    requires env.batch >= 1 && Exec(env, INITIAL, run).Some?
    requires var w := Exec(env, INITIAL, run).value; w.status == Some(Failed) && w.live.None?
    ensures var w := Exec(env, INITIAL, run).value;
            var stage := RestartStage(w.jobs);
            var more := RestartScript(w, true, delivered) + [Deliver(Message(stage, 0)), Claim];
            && Exec(env, w, more).Some?
            && var v := Exec(env, w, more).value;
               && At(v, stage, Claimed) && v.chunks == w.chunks
               && (HasInput(env, v, stage) <==> !(stage == ChunkStage && LastWrite(run) == Some(TearNormalized)))
  {
    var w := Exec(env, INITIAL, run).value;
    var stage, script := RestartStage(w.jobs), RestartScript(w, true, delivered);
    RestartRuns(env, w, true, delivered);
    ExecAppend(env, INITIAL, run, script);
    NothingWritten(run, script);
    MessageIsClaimed(env, run + script, Message(stage, 0));
    assert run + script + [Deliver(Message(stage, 0)), Claim] == run + (script + [Deliver(Message(stage, 0)), Claim]);
    ExecAppend(env, INITIAL, run, script + [Deliver(Message(stage, 0)), Claim]);
  }
}
