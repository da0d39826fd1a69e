/** Whether a waiting document still has somebody to move it: exactly which steps let go of it. */
module IngestionProgress {
  import opened Text
  import opened Ingestion
  import opened IngestionSafety
  import opened IngestionResults

  // --- outstanding messages --------------------------------------------------

  /** The message that a retryable error puts back into the queue, if retries are left and it is not refused. */
  function Requeue(w: World, requeued: bool): multiset<Message>
    requires w.live.Some?
  {
    var a := w.live.value;
    if a.retries < MaxRetries(a.stage) && a.retries < RUNNER_CEILING && requeued
    then multiset{Message(a.stage, a.retries + 1)} else multiset{}
  }

  /** The messages that a step puts into the queue. */
  function Puts(env: Env, w: World, l: Label): multiset<Message>
    requires Enabled(env, w, l)
  {
    match l
    case Enqueue => multiset{Message(NextStage(w.live.value.stage), 0)}
    case Transient(requeued) => Requeue(w, requeued)
    case EnqueueLost(delivered, retryable, requeued) =>
      (if delivered then multiset{Message(NextStage(w.live.value.stage), 0)} else multiset{})
      + if retryable then Requeue(w, requeued) else multiset{}
    case Send(i) => multiset{Message(w.requests[i].stage, 0)}
    case SendFails(i, delivered) => if delivered then multiset{Message(w.requests[i].stage, 0)} else multiset{}
    case _ => multiset{}
  }

  /** The messages queued and not yet delivered, after one more step. A message delivered again takes nothing away. */
  function QueueAfter(env: Env, w: World, l: Label, queue: multiset<Message>): multiset<Message>
    requires Enabled(env, w, l)
  {
    (if l.Deliver? then queue - multiset{l.message} else queue) + Puts(env, w, l)
  }

  function Outstanding(env: Env, run: seq<Label>): multiset<Message>
    requires Exec(env, INITIAL, run).Some?
  {
    if run == [] then multiset{}
    else
      var n := |run| - 1;
      QueueAfter(env, Exec(env, INITIAL, run[..n]).value, run[n], Outstanding(env, run[..n]))
  }

  /** What is outstanding has been sent, and what has been sent is outstanding or has been delivered. */
  lemma {:induction false} OutstandingIsSent(env: Env, run: seq<Label>, m: Message)
    requires Exec(env, INITIAL, run).Some?
    ensures m in Outstanding(env, run) ==> m in Exec(env, INITIAL, run).value.sent
    ensures m in Exec(env, INITIAL, run).value.sent ==> m in Outstanding(env, run) || Deliver(m) in run
  {
    if run != [] {
      var n := |run| - 1;
      OutstandingIsSent(env, run[..n], m);
      SentStep(env, Exec(env, INITIAL, run[..n]).value, run[n], m);
      assert run == run[..n] + [run[n]];
    }
  }

  lemma {:induction false} SentStep(env: Env, w: World, l: Label, m: Message)
    requires Enabled(env, w, l)
    ensures m in Next(env, w, l).sent <==> m in w.sent || m in Puts(env, w, l)
  {
    if l.EnqueueLost? {
      LostStep(env, w, l, m);
    } else if l.Transient? {
      RetryStep(w, l.requeued, m);
    }
  }

  lemma {:induction false} RetryStep(w: World, requeued: bool, m: Message)
    requires w.live.Some?
    ensures m in RetryOrGiveUp(w, requeued).sent <==> m in w.sent || m in Requeue(w, requeued)
  {
  }

  lemma {:induction false} LostStep(env: Env, w: World, l: Label, m: Message)
    requires Enabled(env, w, l) && l.EnqueueLost?
    ensures m in Next(env, w, l).sent <==> m in w.sent || m in Puts(env, w, l)
  {
    var next := if l.delivered then {Message(NextStage(w.live.value.stage), 0)} else {};
    LostThen(env, w, l, next, m);
    RetryStep(w.(sent := w.sent + next), l.requeued, m);
    assert m in next <==> l.delivered && m == Message(NextStage(w.live.value.stage), 0);
    assert m in Puts(env, w, l) <==> m in next || (l.retryable && m in Requeue(w, l.requeued));
  }

  lemma {:induction false} LostThen(env: Env, w: World, l: Label, next: set<Message>, m: Message)
    requires Enabled(env, w, l) && l.EnqueueLost?
    requires next == if l.delivered then {Message(NextStage(w.live.value.stage), 0)} else {}
    ensures Next(env, w, l).sent
         == if l.retryable then RetryOrGiveUp(w.(sent := w.sent + next), l.requeued).sent else w.sent + next
  {
    assert w.sent + {} == w.sent;
  }

  // --- who will move a waiting document --------------------------------------

  /** A running attempt that will take the document on from the entry status of `stage`. */
  predicate Carries(w: World, stage: Stage) {
    w.live.Some? &&
      var a := w.live.value;
      || (a.stage == stage && (a.at == Start || (stage != ParseStage && a.at != Committed)))
      || (a.at == Committed && a.stage != EmbedStage && NextStage(a.stage) == stage)
  }

  ghost predicate InQueue(queue: multiset<Message>, stage: Stage) { exists m :: m in queue && m.stage == stage }

  ghost predicate AboutToQueue(w: World, stage: Stage) {
    exists i :: 0 <= i < |w.requests| && w.requests[i] == Entered(stage)
  }

  /** A document in the entry status of a stage has a message, a request or an attempt for that stage. */
  ghost predicate Attended(w: World, queue: multiset<Message>) {
    forall stage | w.status == Some(EntryStatus(stage)) ::
      InQueue(queue, stage) || AboutToQueue(w, stage) || Carries(w, stage)
  }

  /**
   * The steps that take away an attempt or a request without putting anything in its place: a worker or
   * a server dies, a retry is refused or comes after the final commit, or a queueing error that counts
   * as retryable loses the next message.
   */
  predicate LetsGo(env: Env, w: World, l: Label)
    requires Enabled(env, w, l)
  {
    match l
    case Crash => true
    case Drop(i) => w.requests[i].Entered?
    case Transient(requeued) =>
      var a := w.live.value;
      a.retries < MaxRetries(a.stage) && (a.at == Committed || a.retries >= RUNNER_CEILING || !requeued)
    case EnqueueLost(delivered, retryable, _) =>
      !delivered && retryable && w.live.value.retries < MaxRetries(w.live.value.stage)
    case _ => false
  }

  /** Somebody else is there for the stage when the step lets go, or the step's own retry is for it. */
  ghost predicate ElseAttended(env: Env, w: World, l: Label, queue: multiset<Message>, stage: Stage)
    requires Enabled(env, w, l)
  {
    || InQueue(queue, stage)
    || (exists i :: 0 <= i < |w.requests| && w.requests[i] == Entered(stage) && l != Drop(i))
    || (l.Drop? && Carries(w, stage))
    || ((l.Transient? || l.EnqueueLost?) && w.live.value.stage == stage && Requeue(w, l.requeued) != multiset{})
  }

  lemma {:induction false} QueueGrows(env: Env, w: World, l: Label, queue: multiset<Message>, stage: Stage)
    requires Enabled(env, w, l) && InQueue(queue, stage)
    ensures InQueue(QueueAfter(env, w, l, queue), stage) || (l.Deliver? && l.message.stage == stage)
  {
    var m :| m in queue && m.stage == stage;
    if l != Deliver(m) { assert m in QueueAfter(env, w, l, queue); }
  }

  lemma {:induction false} RequestsRemain(env: Env, w: World, l: Label, stage: Stage, i: nat)
    requires Enabled(env, w, l) && i < |w.requests| && w.requests[i] == Entered(stage)
    requires !((l.Send? || l.SendFails? || l.Drop?) && l.i == i)
    ensures AboutToQueue(Next(env, w, l), stage)
  {
    var v := Next(env, w, l);
    if l.Enter? && w.status.None? && l.i == i {
      assert false;
    }
    var j := if (l.Send? || l.SendFails? || l.Drop? || (l.Enter? && w.status.None?)) && l.i < i then i - 1 else i;
    assert v.requests[j] == Entered(stage);
  }

  /** A step that does not let go leaves every waiting document attended. */
  lemma {:induction false} StepAttends(env: Env, w: World, l: Label, queue: multiset<Message>)
    requires Attended(w, queue) && Enabled(env, w, l) && !LetsGo(env, w, l)
    ensures Attended(Next(env, w, l), QueueAfter(env, w, l, queue))
  {
    var v, after := Next(env, w, l), QueueAfter(env, w, l, queue);
    forall stage | v.status == Some(EntryStatus(stage))
      ensures InQueue(after, stage) || AboutToQueue(v, stage) || Carries(v, stage)
    {
      if w.status == v.status {
        WaitingStep(env, w, l, queue, stage);
      } else {
        EnteringStep(env, w, l, queue, stage);
      }
    }
  }

  /** A document that comes into an entry status does so by a request or by the attempt before. */
  lemma {:induction false} EnteringStep(env: Env, w: World, l: Label, queue: multiset<Message>, stage: Stage)
    requires Enabled(env, w, l) && Next(env, w, l).status == Some(EntryStatus(stage)) != w.status
    ensures AboutToQueue(Next(env, w, l), stage) || Carries(Next(env, w, l), stage)
  {
    if l.Enter? { assert Next(env, w, l).requests[l.i] == Entered(stage); }
  }

  lemma {:induction false} WaitingStep(env: Env, w: World, l: Label, queue: multiset<Message>, stage: Stage)
    requires Enabled(env, w, l) && !LetsGo(env, w, l)
    requires w.status == Some(EntryStatus(stage)) == Next(env, w, l).status
    requires InQueue(queue, stage) || AboutToQueue(w, stage) || Carries(w, stage)
    ensures InQueue(QueueAfter(env, w, l, queue), stage) || AboutToQueue(Next(env, w, l), stage)
        || Carries(Next(env, w, l), stage)
  {
    if InQueue(queue, stage) {
      QueueGrows(env, w, l, queue, stage);
    } else if i :| 0 <= i < |w.requests| && w.requests[i] == Entered(stage) {
      if l == Send(i) {
        assert Message(stage, 0) in QueueAfter(env, w, l, queue);
      } else {
        assert !l.SendFails?;
        RequestsRemain(env, w, l, stage, i);
      }
    } else {
      CarriedStep(env, w, l, queue, stage);
    }
  }

  lemma {:induction false} CarriedStep(env: Env, w: World, l: Label, queue: multiset<Message>, stage: Stage)
    requires Enabled(env, w, l) && !LetsGo(env, w, l)
    requires w.status == Some(EntryStatus(stage)) == Next(env, w, l).status && Carries(w, stage)
    ensures InQueue(QueueAfter(env, w, l, queue), stage) || Carries(Next(env, w, l), stage)
  {
    var a, after := w.live.value, QueueAfter(env, w, l, queue);
    if l.Enqueue? || (l.EnqueueLost? && l.delivered) { assert Message(NextStage(a.stage), 0) in after; }
    if l.Transient? && a.retries < MaxRetries(a.stage) { assert Message(a.stage, a.retries + 1) in after; }
  }

  /** A step leaves a waiting document unattended if and only if it lets go and nobody else is there. */
  lemma {:induction false} ForgottenIff(env: Env, w: World, l: Label, queue: multiset<Message>)
    requires Attended(w, queue) && Enabled(env, w, l)
    ensures !Attended(Next(env, w, l), QueueAfter(env, w, l, queue)) <==>
      LetsGo(env, w, l)
      && exists stage :: w.status == Some(EntryStatus(stage)) && !ElseAttended(env, w, l, queue, stage)
  {
    if LetsGo(env, w, l) {
      forall stage | w.status == Some(EntryStatus(stage))
        ensures ElseAttended(env, w, l, queue, stage) <==>
          InQueue(QueueAfter(env, w, l, queue), stage) || AboutToQueue(Next(env, w, l), stage)
              || Carries(Next(env, w, l), stage)
      {
        LettingGo(env, w, l, queue, stage);
      }
      assert Next(env, w, l).status == w.status;
    } else {
      StepAttends(env, w, l, queue);
    }
  }

  lemma {:induction false} LettingGo(env: Env, w: World, l: Label, queue: multiset<Message>, stage: Stage)
    requires Enabled(env, w, l) && LetsGo(env, w, l)
    ensures ElseAttended(env, w, l, queue, stage) <==>
      InQueue(QueueAfter(env, w, l, queue), stage) || AboutToQueue(Next(env, w, l), stage)
          || Carries(Next(env, w, l), stage)
  {
    if InQueue(queue, stage) { QueueGrows(env, w, l, queue, stage); }
    if l.Drop? {
      assert QueueAfter(env, w, l, queue) == queue;
    } else {
      QueueWhenLettingGo(env, w, l, queue, stage);
    }
    RequestsWhenLettingGo(env, w, l, stage);
  }

  lemma {:induction false} QueueWhenLettingGo(env: Env, w: World, l: Label, queue: multiset<Message>, stage: Stage)
    requires Enabled(env, w, l) && LetsGo(env, w, l) && !l.Drop?
    ensures InQueue(QueueAfter(env, w, l, queue), stage) <==>
      InQueue(queue, stage) || (!l.Crash? && w.live.value.stage == stage && Requeue(w, l.requeued) != multiset{})
  {
    if InQueue(queue, stage) { QueueGrows(env, w, l, queue, stage); }
    if !l.Crash? {
      assert Puts(env, w, l) == Requeue(w, l.requeued);
      if w.live.value.stage == stage && Requeue(w, l.requeued) != multiset{} {
        assert Message(stage, w.live.value.retries + 1) in QueueAfter(env, w, l, queue);
      }
    }
  }

  lemma {:induction false} RequestsWhenLettingGo(env: Env, w: World, l: Label, stage: Stage)
    requires Enabled(env, w, l) && LetsGo(env, w, l)
    ensures AboutToQueue(Next(env, w, l), stage)
      <==> exists i :: 0 <= i < |w.requests| && w.requests[i] == Entered(stage) && l != Drop(i)
  {
    var v := Next(env, w, l);
    if i :| 0 <= i < |w.requests| && w.requests[i] == Entered(stage) && l != Drop(i) {
      RequestsRemain(env, w, l, stage, i);
    }
    if j :| 0 <= j < |v.requests| && v.requests[j] == Entered(stage) {
      var i := if l.Drop? && j >= l.i then j + 1 else j;
      assert w.requests[i] == v.requests[j];
    }
  }

  // --- whole runs ------------------------------------------------------------

  /** No step of the run lets go of its attempt or request. */
  ghost predicate HoldsOn(env: Env, run: seq<Label>)
    requires Exec(env, INITIAL, run).Some?
  {
    run == [] ||
      var n := |run| - 1;
      && HoldsOn(env, run[..n]) && !LetsGo(env, Exec(env, INITIAL, run[..n]).value, run[n])
  }

  lemma {:induction false} RunAttends(env: Env, run: seq<Label>)
    requires Exec(env, INITIAL, run).Some? && HoldsOn(env, run)
    ensures Attended(Exec(env, INITIAL, run).value, Outstanding(env, run))
  {
    if run == [] {
      assert INITIAL.requests[0] == Entered(ParseStage);
    } else {
      var n := |run| - 1;
      RunAttends(env, run[..n]);
      StepAttends(env, Exec(env, INITIAL, run[..n]).value, run[n], Outstanding(env, run[..n]));
    }
  }

  /**
   * However deliveries, duplicates, retries, requests and failures interleave: as long as no step lets
   * go, a document in the entry status of a stage with no attempt running has a message of that stage
   * queued and not yet delivered, or a request about to queue one.
   */
  lemma {:induction false} WaitingHasMessage(env: Env, run: seq<Label>, stage: Stage)
    requires Exec(env, INITIAL, run).Some? && HoldsOn(env, run)
    requires var w := Exec(env, INITIAL, run).value; w.status == Some(EntryStatus(stage)) && w.live.None?
    ensures InQueue(Outstanding(env, run), stage) || AboutToQueue(Exec(env, INITIAL, run).value, stage)
  {
    RunAttends(env, run);
  }

  /** And without requests in flight that message can take it to `ready`. */
  lemma {:induction false} WaitingCanStillFinish(env: Env, run: seq<Label>, stage: Stage)
      returns (m: Message, more: seq<Label>)
    requires env.batch >= 1 && env.parse(env.original).Some? && Exec(env, INITIAL, run).Some? && HoldsOn(env, run)
    requires Idle(Exec(env, INITIAL, run).value, stage)
    ensures m in Outstanding(env, run) && m.stage == stage
    ensures Exec(env, INITIAL, run + more).Some? && Exec(env, INITIAL, run + more).value.status == Some(Ready)
  {
    var w := Exec(env, INITIAL, run).value;
    WaitingHasMessage(env, run, stage);
    m :| m in Outstanding(env, run) && m.stage == stage;
    OutstandingIsSent(env, run, m);
    var v;
    if stage == ParseStage {
      ReachableIsSound(env, w);
      more, v := FailureFreeRunIsReady(env, w, m);
    } else {
      more, v := WaitingCanFinish(env, w, m);
    }
    ExecAppend(env, INITIAL, run, more);
  }

  // --- requests that die -----------------------------------------------------

  /** A server that dies between the commit of a restart and its queueing leaves an entry status and nothing queued. */
  lemma {:induction false} DeadRestart(env: Env, w: World)
    requires w.status == Some(Failed)
    ensures var n := |w.requests|;
            Exec(env, w, [Begin, Choose(n), Enter(n), Drop(n)])
                == Some(w.(status := Some(EntryStatus(RestartStage(w.jobs)))))
  {
    var n := |w.requests|;
    var run, u := EnteredStage(env, w);
    var longer, v := Extend(env, w, run, u, Drop(n));
    assert Forget(u.requests, n) == w.requests;
    assert longer == [Begin, Choose(n), Enter(n), Drop(n)];
  }

  /** An upload whose server dies before queueing leaves a document that nothing but deletion can ever move. */
  predicate Unsent(w: World) { w.status == Some(Pending) && w.live.None? && w.requests == [] && w.sent == {} }

  lemma {:induction false} UnsentStays(env: Env, w: World, run: seq<Label>)
    requires Unsent(w) && Exec(env, w, run).Some? && Delete !in run
    ensures Unsent(Exec(env, w, run).value)
  {
    if run != [] {
      assert run[|run| - 1] in run;
      UnsentStays(env, w, run[..|run| - 1]);
    }
  }

  lemma {:induction false} DeadUploadStaysPending(env: Env, run: seq<Label>)
    requires Exec(env, INITIAL, [Drop(0)] + run).Some? && Delete !in run
    ensures Exec(env, INITIAL, [Drop(0)] + run).value.status == Some(Pending)
  {
    var first, w := Extend(env, INITIAL, [], INITIAL, Drop(0));
    assert first == [Drop(0)] && w.requests == [];
    ExecAppend(env, INITIAL, first, run);
    UnsentStays(env, w, run);
  }
}
