/** What becomes of a batch when its jobs run: posted, waiting, handed on, given up; and of its rows and jobs. */
module SubagentOutcomes {
  import opened Prelude
  import opened SubagentBatches
  import opened SubagentBatchProofs
  import SubagentTheorems

  // ---------------------------------------------------------------- how a batch ends

  /** Batch `b` ends as `status` now, its tasks and jobs are gone, and every other batch, task and job stands. */
  ghost predicate Ended(s: State, u: State, b: BatchId, status: BatchStatus) {
    && b in s.batches && u.batches.Keys == s.batches.Keys
    && u.batches[b] == Batch(s.batches[b].origin, s.batches[b].conversation, s.batches[b].request, status, Some(s.now))
    && (forall x :: x in s.batches && x != b ==> u.batches[x] == s.batches[x])
    && (forall t :: t in u.tasks ==> t in s.tasks && s.tasks[t].batch != b && u.tasks[t] == s.tasks[t])
    && (forall t :: t in s.tasks && s.tasks[t].batch != b ==> t in u.tasks)
    && (forall id: JobId :: id in u.jobs ==> id in s.jobs && id.batch != b && u.jobs[id] == s.jobs[id])
    && (forall id: JobId :: id in s.jobs && id.batch != b ==> id in u.jobs)
  }

  /** The conversation of the batch, if it still exists, has the message, and no other message changes. */
  ghost predicate Posts(s: State, u: State, b: BatchId, content: Content)
    requires b in s.batches
  {
    match s.batches[b].conversation
    case Some(c) =>
      if c in s.conversations then
        && u.appended == s.appended + [(b, content)]
        && u.messages.Keys == s.messages.Keys + {b} && u.messages[b] == MessageRow(c, content)
        && (forall x :: x in s.messages && x != b ==> u.messages[x] == s.messages[x])
      else u.messages == s.messages && u.appended == s.appended
    case None => u.messages == s.messages && u.appended == s.appended
  }

  /** One section for every task of the batch, in the order they were spawned, with its status and result. */
  ghost predicate TellsAll(s: State, b: BatchId, content: Content) {
    && b in s.order && content.Findings? && |content.sections| == |s.order[b]|
    && forall k :: 0 <= k < |content.sections| ==>
         var t := s.order[b][k];
         t in s.tasks && s.tasks[t].batch == b && content.sections[k] == Section(t, s.tasks[t].status, s.tasks[t].result)
  }

  /** Nothing but jobs, batches, tasks, messages and the alarm is touched. */
  predicate KeepsRest(s: State, u: State) {
    u == s.(batches := u.batches, tasks := u.tasks, jobs := u.jobs, messages := u.messages, appended := u.appended, alarm := u.alarm)
  }

  lemma {:induction false} FinishCloses(s: State, b: BatchId, status: BatchStatus)
    requires b in s.batches
    ensures Ended(s, Finish(s, b, status), b, status)
    ensures Finish(s, b, status).messages == s.messages && Finish(s, b, status).appended == s.appended && KeepsRest(s, Finish(s, b, status))
  {
  }

  lemma {:induction false} PostToPosts(s: State, b: BatchId, content: Content)
    requires b in s.batches && b !in s.messages
    ensures var u := PostTo(s, b, content); Posts(s, u, b, content) && u == s.(messages := u.messages, appended := u.appended)
  {
  }

  lemma {:induction false} PublishesAs(s: State, b: BatchId, content: Content, status: BatchStatus)
    requires b in s.batches && b !in s.messages
    ensures var u := Finish(PostTo(s, b, content), b, status);
      Ended(s, u, b, status) && Posts(s, u, b, content) && KeepsRest(s, u)
  {
    PostToPosts(s, b, content);
    FinishCloses(PostTo(s, b, content), b, status);
  }

  // ---------------------------------------------------------------- a picked job

  /** A synthesis job that finds its batch settled and active, or the fifth pick of any job that finds it active. */
  predicate Decides(s: State) {
    && s.alarm.Picked? && IsActive(s, s.alarm.id.batch)
    && (s.alarm.retry >= 5 || (s.alarm.id.SynthesisJob? && AllSettled(s, s.alarm.id.batch)))
  }

  /** How the decision goes: later if the conversation is busy, over to the wake agent, or posted and closed. */
  ghost predicate Decided(s: State, u: State)
    requires Decides(s)
  {
    var b, given := s.alarm.id.batch, s.alarm.retry >= 5;
    && KeepsRest(s, u)
    && if !given && s.batches[b].origin.Wake? then
         u == s.(batches := s.batches[b := s.batches[b].(status := Synthesizing)], alarm := WakeRunning(b, s.alarm.retry, s.alarm.recoveryAt))
       else
         && u.alarm == Handled(s.alarm.id, s.alarm.retry, s.alarm.recoveryAt)
         && if s.batches[b].conversation.Some? && s.batches[b].conversation.value in s.processing then
              && u.jobs == s.jobs[SynthesisJob(b) := if given then Job(s.now + 30_000, Some(5)) else Job(s.now + 1_000, None)]
              && u.batches == s.batches && u.tasks == s.tasks && u.messages == s.messages && u.appended == s.appended
            else
              && Ended(s, u, b, if given then BatchFailed else BatchCompleted)
              && exists content :: Posts(s, u, b, content) && (if given then content == CouldNotDeliver else TellsAll(s, b, content))
  }

  lemma {:induction false} LastResort(s: State)
    requires Decides(s) && s.alarm.retry >= 5 && s.alarm.id.batch !in s.messages
    ensures Decided(s, RunPicked(s))
  {
    var b := s.alarm.id.batch;
    FailIs(s, b);
    assert RunPicked(s) == Fail(s, b).(alarm := Handled(s.alarm.id, s.alarm.retry, s.alarm.recoveryAt));
    if !Busy(s, b) {
      PublishesAs(s, b, CouldNotDeliver, BatchFailed);
      var u := Finish(PostTo(s, b, CouldNotDeliver), b, BatchFailed);
      assert Posts(s, RunPicked(s), b, CouldNotDeliver);
    }
  }

  lemma {:induction false} SynthesisIs(s: State, b: BatchId, retry: nat, recoveryAt: nat)
    requires AllSettled(s, b) && IsActive(s, b) && s.batches[b].origin.Chat? && !Busy(s, b)
    ensures Synthesize(s, b, retry, recoveryAt)
      == Finish(PostTo(s, b, Findings(Render(s, Rows(s, b)))), b, BatchCompleted).(alarm := Handled(SynthesisJob(b), retry, recoveryAt))
  {
  }

  lemma {:induction false} SynthesisPublishes(s: State)
    requires Decides(s) && s.alarm.retry < 5 && s.alarm.id.batch !in s.messages && RowsAgree(s)
    requires s.batches[s.alarm.id.batch].origin.Chat? && !Busy(s, s.alarm.id.batch)
    ensures Decided(s, RunPicked(s))
  {
    var b := s.alarm.id.batch;
    var content := Findings(Render(s, Rows(s, b)));
    SynthesisIs(s, b, s.alarm.retry, s.alarm.recoveryAt);
    SubagentTheorems.RenderedRows(s, b);
    PublishesAs(s, b, content, BatchCompleted);
    assert Posts(s, RunPicked(s), b, content) && TellsAll(s, b, content);
  }

  lemma {:induction false} SynthesisDefers(s: State)
    requires Decides(s) && s.alarm.retry < 5
    requires s.batches[s.alarm.id.batch].origin.Wake? || Busy(s, s.alarm.id.batch)
    ensures Decided(s, RunPicked(s))
  {
  }

  lemma {:induction false} PickDecides(s: State)
    requires RowsAgree(s) && PostsFinal(s) && Decides(s)
    ensures Decided(s, RunPicked(s))
  {
    OpenHasNoMessage(s, s.alarm.id.batch);
    if s.alarm.retry >= 5 {
      LastResort(s);
    } else if s.batches[s.alarm.id.batch].origin.Wake? || Busy(s, s.alarm.id.batch) {
      SynthesisDefers(s);
    } else {
      SynthesisPublishes(s);
    }
  }

  /** In every run, a job that decides about its batch decides as it must: at most one of later, over, posted and closed. */
  lemma {:induction false} JobDecides(cap: nat, es: seq<Event>)
    requires Decides(Run(Init(cap), es))
    ensures Decided(Run(Init(cap), es), Step(Run(Init(cap), es), EvRunPicked))
  {
    RunKeepsInv(cap, es);
    PickDecides(Run(Init(cap), es));
  }

  /** A picked job that has nothing to decide: it clears up after a finished batch, times out the tasks of a batch whose
      deadline has come, or does nothing. */
  ghost predicate Otherwise(s: State, u: State)
    requires s.alarm.Picked?
  {
    var b, given := s.alarm.id.batch, s.alarm.retry >= 5;
    var done := Handled(s.alarm.id, s.alarm.retry, s.alarm.recoveryAt);
    if s.alarm.id.DeadlineJob? && !given then TimesOut(s, u, b) && u.alarm == Swept(b, s.alarm.retry, false)
    else if b in s.batches && !s.batches[b].Open() && (given || AllSettled(s, b)) then
      Ended(s, u, b, s.batches[b].status) && KeepsRest(s, u) && u.messages == s.messages && u.appended == s.appended && u.alarm == done
    else u == s.(alarm := done)
  }

  /** The open tasks of `b` that have run out are timed out, and its synthesis is due now if that settles an active batch. */
  ghost predicate TimesOut(s: State, u: State, b: BatchId) {
    && u == s.(tasks := u.tasks, jobs := u.jobs, alarm := u.alarm) && u.tasks.Keys == s.tasks.Keys
    && (forall t :: t in s.tasks ==>
          u.tasks[t] == if s.tasks[t].batch == b && !s.tasks[t].status.Terminal() && s.tasks[t].deadline <= s.now
                        then s.tasks[t].(status := Timeout, result := None) else s.tasks[t])
    && u.jobs == if (b in s.batches ==> s.batches[b].status.Active?) && AllSettled(u, b)
                 then s.jobs[SynthesisJob(b) := Job(s.now, None)] else s.jobs
  }

  lemma {:induction false} DeadlineTimesOut(s: State, b: BatchId, alarm: Alarm)
    ensures TimesOut(s, MaybeScheduleSynthesis(SweepTimeouts(s, b), b).(alarm := alarm), b)
  {
    var swept, u := SweepTimeouts(s, b), MaybeScheduleSynthesis(SweepTimeouts(s, b), b).(alarm := alarm);
    assert u.tasks == swept.tasks && TasksOf(u, b) == TasksOf(swept, b);
  }

  lemma {:induction false} GivenOtherwise(s: State)
    requires s.alarm.Picked? && !Decides(s) && s.alarm.retry >= 5
    ensures Otherwise(s, RunPicked(s))
  {
    var b := s.alarm.id.batch;
    FailIs(s, b);
    assert RunPicked(s) == Fail(s, b).(alarm := Handled(s.alarm.id, s.alarm.retry, s.alarm.recoveryAt));
    if b in s.batches && !s.batches[b].Open() { FinishCloses(s, b, s.batches[b].status); }
  }

  lemma {:induction false} SynthesisOtherwise(s: State)
    requires s.alarm.Picked? && !Decides(s) && s.alarm.retry < 5 && s.alarm.id.SynthesisJob?
    ensures Otherwise(s, RunPicked(s))
  {
    var b := s.alarm.id.batch;
    if b in s.batches && !s.batches[b].Open() { FinishCloses(s, b, s.batches[b].status); }
  }

  /** Every other picked job, in any state. */
  lemma {:induction false} JobOtherwise(s: State)
    requires s.alarm.Picked? && !Decides(s)
    ensures Otherwise(s, Step(s, EvRunPicked))
  {
    if s.alarm.retry >= 5 {
      GivenOtherwise(s);
    } else if s.alarm.id.SynthesisJob? {
      SynthesisOtherwise(s);
    } else {
      DeadlineTimesOut(s, s.alarm.id.batch, Swept(s.alarm.id.batch, s.alarm.retry, false));
    }
  }

  // ---------------------------------------------------------------- the last callback

  function Follow(s: State, e: Event): State { if Enabled(s, e) then Step(s, e) else s }

  lemma {:induction false} RunSnoc(s: State, es: seq<Event>, e: Event)
    ensures Run(s, es + [e]) == Follow(Run(s, es), e)
  {
    assert (es + [e])[..|es|] == es;
  }

  lemma {:induction false} RunFour(s: State, a: Event, b: Event, c: Event, d: Event)
    ensures Run(s, [a, b, c, d]) == Follow(Follow(Follow(Follow(s, a), b), c), d)
  {
    assert [a] == [] + [a] && [a, b] == [a] + [b] && [a, b, c] == [a, b] + [c] && [a, b, c, d] == [a, b, c] + [d];
    RunSnoc(s, [], a);
    RunSnoc(s, [a], b);
    RunSnoc(s, [a, b], c);
    RunSnoc(s, [a, b, c], d);
  }

  /** Only task `t` of its batch is open. */
  ghost predicate LastOpen(s: State, t: TaskId) {
    && t in s.tasks && !s.tasks[t].status.Terminal()
    && forall x :: x in s.tasks && s.tasks[x].batch == s.tasks[t].batch && x != t ==> s.tasks[x].status.Terminal()
  }

  lemma {:induction false} CallbackSchedules(s: State, t: TaskId, status: TaskStatus, result: Option<string>)
    requires LastOpen(s, t) && status.Terminal() && IsActive(s, s.tasks[t].batch)
    ensures var b, tasks := s.tasks[t].batch, s.tasks[t := s.tasks[t].(status := status, result := result)];
      var u := MaybeScheduleSynthesis(Settle(s, t, status, result), b);
      u == s.(tasks := tasks, jobs := s.jobs[SynthesisJob(b) := Job(s.now, None)]) && AllSettled(u, b)
  {
    var b, u := s.tasks[t].batch, Settle(s, t, status, result);
    assert t in TasksOf(u, b);
  }

  /** The stretch that picks the synthesis job just scheduled. */
  lemma {:induction false} PicksSynthesis(s: State, b: BatchId)
    requires s.alarm.AlarmIdle? && SynthesisJob(b) in s.jobs && s.jobs[SynthesisJob(b)] == Job(s.now, None)
    ensures Follow(s, EvPick(SynthesisJob(b)))
      == s.(jobs := s.jobs[SynthesisJob(b) := Job(s.now + 30_000, Some(1))], alarm := Picked(SynthesisJob(b), 0, s.now + 30_000))
  {
  }

  lemma {:induction false} AfterClosed(s: State)
    requires s.alarm.Handled? && s.alarm.id !in s.jobs
    ensures Follow(s, EvAfterJob) == s.(alarm := AlarmIdle)
  {
  }

  /** The batch of the last callback is answered. */
  ghost predicate Answered(s: State, u: State, t: TaskId, status: TaskStatus, result: Option<string>)
    requires t in s.tasks
  {
    var b := s.tasks[t].batch;
    && b in s.batches && b in u.batches && b in s.order
    && u.batches[b] == s.batches[b].(status := BatchCompleted, finishedAt := Some(s.now))
    && (forall x :: x in u.tasks ==> u.tasks[x].batch != b) && (forall id: JobId :: id in u.jobs ==> id.batch != b)
    && u.alarm.AlarmIdle? && b in u.messages && Some(u.messages[b].conversation) == s.batches[b].conversation
    && var content := u.messages[b].content;
    && content.Findings? && |content.sections| == |s.order[b]|
    && forall k :: 0 <= k < |content.sections| ==>
         var x := s.order[b][k];
         && x in s.tasks && content.sections[k].task == x
         && (if x == t then content.sections[k].status == status && content.sections[k].result == result
             else content.sections[k].status == s.tasks[x].status && content.sections[k].result == s.tasks[x].result)
  }

  /** What the callback leaves to be picked. */
  function Settled(s: State, t: TaskId, status: TaskStatus, result: Option<string>): State
    requires t in s.tasks
  {
    s.(tasks := s.tasks[t := s.tasks[t].(status := status, result := result)],
       jobs := s.jobs[SynthesisJob(s.tasks[t].batch) := Job(s.now, None)])
  }

  lemma {:induction false} SettledDecides(s: State, t: TaskId, status: TaskStatus, result: Option<string>)
    requires LastOpen(s, t) && status.Terminal() && s.alarm.AlarmIdle? && IsActive(s, s.tasks[t].batch)
    requires status.Done? || status.Failed? || status.Cancelled?
    ensures var b := s.tasks[t].batch;
      var p := Settled(s, t, status, result).(jobs := s.jobs[SynthesisJob(b) := Job(s.now + 30_000, Some(1))],
                                             alarm := Picked(SynthesisJob(b), 0, s.now + 30_000));
      Follow(Follow(s, EvCallback(t, status, result)), EvPick(SynthesisJob(b))) == p && Decides(p)
  {
    var b := s.tasks[t].batch;
    CallbackSchedules(s, t, status, result);
    var u := Settled(s, t, status, result);
    assert Follow(s, EvCallback(t, status, result)) == u;
    PicksSynthesis(u, b);
    assert u.jobs[SynthesisJob(b) := Job(s.now + 30_000, Some(1))] == s.jobs[SynthesisJob(b) := Job(s.now + 30_000, Some(1))];
    assert TasksOf(u.(jobs := s.jobs[SynthesisJob(b) := Job(s.now + 30_000, Some(1))], alarm := Picked(SynthesisJob(b), 0, s.now + 30_000)), b)
      == TasksOf(u, b);
  }

  lemma {:induction false} PickedKeepsInv(s: State, t: TaskId, status: TaskStatus, result: Option<string>)
    requires Inv(s) && t in s.tasks && (status.Done? || status.Failed? || status.Cancelled?)
    ensures Inv(Follow(Follow(s, EvCallback(t, status, result)), EvPick(SynthesisJob(s.tasks[t].batch))))
  {
    var a, pick := Follow(s, EvCallback(t, status, result)), EvPick(SynthesisJob(s.tasks[t].batch));
    SubagentBatchProofs.StepKeepsInv(s, EvCallback(t, status, result));
    if Enabled(a, pick) { SubagentBatchProofs.StepKeepsInv(a, pick); }
  }

  lemma {:induction false} DecidedAnswers(s: State, p: State, u: State, t: TaskId, status: TaskStatus, result: Option<string>)
    requires LastOpen(s, t) && IsActive(s, s.tasks[t].batch) && s.batches[s.tasks[t].batch].conversation.Some?
    requires s.batches[s.tasks[t].batch].conversation.value in s.conversations && s.batches[s.tasks[t].batch].conversation.value !in s.processing
    requires s.batches[s.tasks[t].batch].origin.Chat?
    requires p == Settled(s, t, status, result).(jobs := p.jobs, alarm := p.alarm) && Decides(p) && p.alarm.retry == 0
      && p.alarm.id == SynthesisJob(s.tasks[t].batch)
    requires Decided(p, u)
    ensures Answered(s, Follow(u, EvAfterJob), t, status, result)
  {
    var b := s.tasks[t].batch;
    assert Ended(p, u, b, BatchCompleted);
    AfterClosed(u);
    var content :| Posts(p, u, b, content) && TellsAll(p, b, content);
    assert u.messages[b] == MessageRow(s.batches[b].conversation.value, content);
  }

  lemma {:induction false} PickedAnswers(s: State, p: State, t: TaskId, status: TaskStatus, result: Option<string>)
    requires LastOpen(s, t) && IsActive(s, s.tasks[t].batch) && s.batches[s.tasks[t].batch].conversation.Some?
    requires s.batches[s.tasks[t].batch].conversation.value in s.conversations && s.batches[s.tasks[t].batch].conversation.value !in s.processing
    requires s.batches[s.tasks[t].batch].origin.Chat?
    requires p == Settled(s, t, status, result).(jobs := p.jobs, alarm := p.alarm) && Decides(p) && p.alarm.retry == 0
      && p.alarm.id == SynthesisJob(s.tasks[t].batch)
    requires Decided(p, RunPicked(p))
    ensures Answered(s, Follow(Follow(p, EvRunPicked), EvAfterJob), t, status, result)
  {
    DecidedAnswers(s, p, RunPicked(p), t, status, result);
  }

  lemma {:induction false} CallbackAnswers(s: State, t: TaskId, status: TaskStatus, result: Option<string>)
    requires Inv(s) && LastOpen(s, t) && s.alarm.AlarmIdle? && (status.Done? || status.Failed? || status.Cancelled?)
    requires var b := s.tasks[t].batch;
      && IsActive(s, b) && s.batches[b].origin.Chat? && s.batches[b].conversation.Some?
      && s.batches[b].conversation.value in s.conversations && s.batches[b].conversation.value !in s.processing
    ensures Answered(s, Run(s, [EvCallback(t, status, result), EvPick(SynthesisJob(s.tasks[t].batch)), EvRunPicked, EvAfterJob]), t, status, result)
  {
    RunFour(s, EvCallback(t, status, result), EvPick(SynthesisJob(s.tasks[t].batch)), EvRunPicked, EvAfterJob);
    SettledDecides(s, t, status, result);
    PickedKeepsInv(s, t, status, result);
    var p := Follow(Follow(s, EvCallback(t, status, result)), EvPick(SynthesisJob(s.tasks[t].batch)));
    PickDecides(p);
    PickedAnswers(s, p, t, status, result);
  }

  /** From every reachable state, when the callback of the last open task of a chat batch comes and the object is left
      alone, its conversation gets a message that tells this result and all the others, and the batch is cleared away. */
  lemma {:induction false} LastCallbackIsAnswered(cap: nat, es: seq<Event>, t: TaskId, status: TaskStatus, result: Option<string>)
    requires var s := Run(Init(cap), es);
      && LastOpen(s, t) && s.alarm.AlarmIdle? && (status.Done? || status.Failed? || status.Cancelled?)
      && var b := s.tasks[t].batch;
      && IsActive(s, b) && s.batches[b].origin.Chat? && s.batches[b].conversation.Some?
      && s.batches[b].conversation.value in s.conversations && s.batches[b].conversation.value !in s.processing
    ensures var s := Run(Init(cap), es);
      var u := Run(s, [EvCallback(t, status, result), EvPick(SynthesisJob(s.tasks[t].batch)), EvRunPicked, EvAfterJob]);
      Answered(s, u, t, status, result)
  {
    RunKeepsInv(cap, es);
    CallbackAnswers(Run(Init(cap), es), t, status, result);
  }

  // ---------------------------------------------------------------- a job run through

  lemma {:induction false} RunThree(s: State, a: Event, b: Event, c: Event)
    ensures Run(s, [a, b, c]) == Follow(Follow(Follow(s, a), b), c)
  {
    assert [a] == [] + [a] && [a, b] == [a] + [b] && [a, b, c] == [a, b] + [c];
    RunSnoc(s, [], a);
    RunSnoc(s, [a], b);
    RunSnoc(s, [a, b], c);
  }

  /** Picking a due job leaves a recovery row thirty seconds ahead with the pick counted. */
  lemma {:induction false} PickLeaves(s: State, id: JobId)
    requires s.alarm.AlarmIdle? && id in s.jobs && s.jobs[id].runAt <= s.now
    ensures Follow(s, EvPick(id)) == s.(jobs := s.jobs[id := Job(s.now + 30_000, Some(s.jobs[id].Retry() + 1))],
                                      alarm := Picked(id, s.jobs[id].Retry(), s.now + 30_000))
  {
  }

  /** A synthesis job that is due with nothing to decide is gone once it has run through. */
  lemma {:induction false} IdleSynthesisGoes(s: State, b: BatchId)
    requires s.alarm.AlarmIdle? && SynthesisJob(b) in s.jobs && s.jobs[SynthesisJob(b)].runAt <= s.now
    requires !IsActive(s, b) || (!AllSettled(s, b) && s.jobs[SynthesisJob(b)].Retry() < 5)
    ensures var u := Run(s, [EvPick(SynthesisJob(b)), EvRunPicked, EvAfterJob]); u.alarm.AlarmIdle? && SynthesisJob(b) !in u.jobs
  {
    RunThree(s, EvPick(SynthesisJob(b)), EvRunPicked, EvAfterJob);
    PickLeaves(s, SynthesisJob(b));
    var p := Follow(s, EvPick(SynthesisJob(b)));
    assert TasksOf(p, b) == TasksOf(s, b);
    JobOtherwise(p);
    HandledGoes(p, RunPicked(p));
  }

  lemma {:induction false} HandledGoes(p: State, u: State)
    requires p.alarm.Picked? && p.alarm.id.SynthesisJob? && Otherwise(p, u)
    requires p.alarm.id in p.jobs && p.jobs[p.alarm.id] == Job(p.alarm.recoveryAt, Some(p.alarm.retry + 1))
    ensures u.alarm.Handled? && Follow(u, EvAfterJob).alarm.AlarmIdle? && p.alarm.id !in Follow(u, EvAfterJob).jobs
  {
  }

  /** All tasks of the batch are past their deadline. */
  predicate Overdue(s: State, b: BatchId) { TasksOf(s, b) != {} && forall t :: t in TasksOf(s, b) ==> s.tasks[t].deadline <= s.now }

  /** What a deadline job that is due leaves of an active batch whose time is over: its open tasks timed out, its
      synthesis due now, no deadline job. */
  ghost predicate DeadlineOver(s: State, u: State, b: BatchId) {
    && u == s.(tasks := u.tasks, jobs := (s.jobs - {DeadlineJob(b)})[SynthesisJob(b) := Job(s.now, None)], alarm := AlarmIdle)
    && AllSettled(u, b) && u.tasks.Keys == s.tasks.Keys
    && forall t :: t in s.tasks ==>
         u.tasks[t] == if s.tasks[t].batch == b && !s.tasks[t].status.Terminal() then s.tasks[t].(status := Timeout, result := None) else s.tasks[t]
  }

  lemma {:induction false} TimedOutSettles(s: State, u: State, b: BatchId)
    requires TimesOut(s, u, b) && IsActive(s, b) && Overdue(s, b)
    ensures AllSettled(u, b) && u.jobs == s.jobs[SynthesisJob(b) := Job(s.now, None)]
  {
    assert TasksOf(u, b) == TasksOf(s, b);
  }

  lemma {:induction false} SweptEnds(u: State, b: BatchId, retry: nat)
    requires u.alarm == Swept(b, retry, false)
    ensures Follow(Follow(u, EvDeadlineCancelled), EvDeadlineEnds) == u.(jobs := u.jobs - {DeadlineJob(b)}, alarm := AlarmIdle)
  {
  }

  lemma {:induction false} PickedDeadlineOver(s: State, p: State, u: State, b: BatchId)
    requires IsActive(s, b) && Overdue(s, b) && s.alarm.AlarmIdle?
    requires p == s.(jobs := p.jobs, alarm := p.alarm) && p.alarm.Picked? && p.jobs == s.jobs[DeadlineJob(b) := Job(s.now + 30_000, Some(p.alarm.retry + 1))]
    requires TimesOut(p, u, b)
    ensures DeadlineOver(s, u.(jobs := u.jobs - {DeadlineJob(b)}, alarm := AlarmIdle), b)
  {
    assert TasksOf(p, b) == TasksOf(s, b);
    TimedOutSettles(p, u, b);
    var end := u.(jobs := u.jobs - {DeadlineJob(b)}, alarm := AlarmIdle);
    assert end.jobs == (s.jobs - {DeadlineJob(b)})[SynthesisJob(b) := Job(s.now, None)];
    assert TasksOf(end, b) == TasksOf(u, b);
  }

  lemma {:induction false} DeadlineSettles(s: State, b: BatchId)
    requires s.alarm.AlarmIdle? && DeadlineJob(b) in s.jobs && s.jobs[DeadlineJob(b)].runAt <= s.now && s.jobs[DeadlineJob(b)].Retry() < 5
    requires IsActive(s, b) && Overdue(s, b)
    ensures DeadlineOver(s, Run(s, [EvPick(DeadlineJob(b)), EvRunPicked, EvDeadlineCancelled, EvDeadlineEnds]), b)
  {
    RunFour(s, EvPick(DeadlineJob(b)), EvRunPicked, EvDeadlineCancelled, EvDeadlineEnds);
    PickLeaves(s, DeadlineJob(b));
    var p := Follow(s, EvPick(DeadlineJob(b)));
    JobOtherwise(p);
    SweptEnds(RunPicked(p), b, p.alarm.retry);
    PickedDeadlineOver(s, p, RunPicked(p), b);
  }

  /** A deadline job that fails half-way is tried again in a minute, three times; after that its recovery row stays. */
  lemma {:induction false} FailedDeadlineIsRetried(s: State, b: BatchId)
    requires s.alarm.AlarmIdle? && DeadlineJob(b) in s.jobs && s.jobs[DeadlineJob(b)].runAt <= s.now && s.jobs[DeadlineJob(b)].Retry() < 5
    ensures var u, n := Run(s, [EvPick(DeadlineJob(b)), EvRunPicked, EvDeadlineThrew]), s.jobs[DeadlineJob(b)].Retry();
      && u.alarm.AlarmIdle? && DeadlineJob(b) in u.jobs
      && u.jobs[DeadlineJob(b)] == Job(s.now + (if n < 3 then 60_000 else 30_000), Some(n + 1))
  {
    RunThree(s, EvPick(DeadlineJob(b)), EvRunPicked, EvDeadlineThrew);
    PickLeaves(s, DeadlineJob(b));
    var p := Follow(s, EvPick(DeadlineJob(b)));
    JobOtherwise(p);
    SweptThrows(p, RunPicked(p), b, p.alarm.retry);
  }

  lemma {:induction false} SweptThrows(p: State, u: State, b: BatchId, n: nat)
    requires TimesOut(p, u, b) && DeadlineJob(b) in p.jobs && u.alarm == Swept(b, n, false)
    ensures var v := Follow(u, EvDeadlineThrew);
      && v.alarm.AlarmIdle? && DeadlineJob(b) in v.jobs
      && v.jobs[DeadlineJob(b)] == if n < 3 then Job(p.now + 60_000, Some(n + 1)) else p.jobs[DeadlineJob(b)]
  {
  }
}
