/**
  The invariant of the coordinator, kept by every event. Open batches have all their task rows and
  closed ones none; an active batch owns a deadline or a synthesis job, which at pick-up is replaced
  by its recovery row in the same stretch; a batch message is written once and matches the ledger at
  that moment. Each handler is a sequence of stretches that refine task rows, close batches or move jobs,
  so the lemmas are grouped by what a stretch may touch, and a step only chooses among them.
*/
module SubagentBatchProofs {
  import opened Prelude
  import opened SubagentBatches

  // ---------------------------------------------------------------- invariants

  /** Task rows and their batches agree: only open batches have rows, and they have all of them. */
  ghost predicate RowsAgree(s: State) {
    && (forall t :: t in s.tasks ==> s.tasks[t].batch in s.batches && s.batches[s.tasks[t].batch].Open()
                                     && s.tasks[t].batch in s.order && t in s.order[s.tasks[t].batch])
    && (forall b :: b in s.batches ==> b in s.order)
    && (forall b :: b in s.batches && s.batches[b].Open() ==>
          s.order[b] != [] && s.batches[b].finishedAt.None?
          && forall t :: t in s.order[b] ==> t in s.tasks && s.tasks[t].batch == b)
    && (forall t, u :: t in s.tasks && u in s.tasks && s.tasks[t].batch == s.tasks[u].batch ==> s.tasks[t].deadline == s.tasks[u].deadline)
    && (forall b :: b in s.order ==> Distinct(s.order[b]))
    && (forall id :: id in s.jobs ==> id.batch in s.order)
  }

  /** Every active batch is reachable from the job table; every synthesizing one from the running alarm. */
  ghost predicate NoneStranded(s: State) {
    ActiveHaveJobs(s) && SynthesizingRuns(s)
  }

  ghost predicate ActiveHaveJobs(s: State) {
    forall b :: IsActive(s, b) ==>
      DeadlineJob(b) in s.jobs
      || (SynthesisJob(b) in s.jobs && (AllSettled(s, b) || s.jobs[SynthesisJob(b)].Retry() >= MAX_BATCH_ATTEMPTS))
  }

  ghost predicate SynthesizingRuns(s: State) {
    forall b :: b in s.batches && s.batches[b].status.Synthesizing? ==> s.alarm.WakeRunning? && s.alarm.batch == b
  }

  /** A synthesis job that is not a last resort exists only for settled batches. */
  ghost predicate SynthesisWhenSettled(s: State) {
    forall b :: IsActive(s, b) && SynthesisJob(b) in s.jobs && s.jobs[SynthesisJob(b)].Retry() < MAX_BATCH_ATTEMPTS
      ==> AllSettled(s, b)
  }

  ghost predicate Overdue(s: State, b: BatchId, at: nat) {
    forall t :: t in s.tasks && s.tasks[t].batch == b ==> s.tasks[t].deadline <= at
  }

  /** A deadline job never fires before the tasks it sweeps are overdue. */
  ghost predicate DeadlinesInTime(s: State) {
    forall b :: DeadlineJob(b) in s.jobs ==> Overdue(s, b, s.jobs[DeadlineJob(b)].runAt)
  }

  /** What the local variables of the running alarm handler know. */
  ghost predicate AlarmKnows(s: State) {
    match s.alarm
    case AlarmIdle => true
    case Picked(id, retry, _) =>
      && id.batch in s.order
      && (IsActive(s, id.batch) ==> id in s.jobs)
      && (id.DeadlineJob? ==> Overdue(s, id.batch, s.now))
      && (id.SynthesisJob? && IsActive(s, id.batch) && retry < MAX_BATCH_ATTEMPTS ==> AllSettled(s, id.batch))
    case Swept(b, _, _) =>
      && b in s.order
      && Overdue(s, b, s.now)
      && (IsActive(s, b) ==> AllSettled(s, b) && SynthesisJob(b) in s.jobs)
    case WakeRunning(b, _, _) => b in s.order
    case Handled(id, retry, _) =>
      && id.batch in s.order
      && (id.SynthesisJob? && IsActive(s, id.batch) ==>
            SynthesisJob(id.batch) in s.jobs && s.jobs[SynthesisJob(id.batch)].retry != Some(retry + 1))
  }

  /** One finding per spawned task, in spawn order, each from a settled row. */
  ghost predicate Complete(content: Content, spawned: seq<TaskId>) {
    content.Findings? ==>
      && |content.sections| == |spawned|
      && (forall i :: 0 <= i < |spawned| ==> content.sections[i].task == spawned[i] && content.sections[i].status.Terminal())
  }

  ghost predicate PostsFinal(s: State) {
    && (forall i, j :: 0 <= i < j < |s.appended| ==> s.appended[i].0 != s.appended[j].0)
    && (forall i :: 0 <= i < |s.appended| ==>
          var b := s.appended[i].0;
          b in s.order && Complete(s.appended[i].1, s.order[b]) && (b in s.batches ==> !s.batches[b].Open()))
    && (forall b :: b in s.messages ==> WasPosted(s.appended, b, s.messages[b].content))
  }

  ghost predicate WasPosted(appended: seq<(BatchId, Content)>, b: BatchId, content: Content) {
    exists i :: 0 <= i < |appended| && appended[i] == (b, content)
  }

  lemma {:induction false} StillPosted(appended: seq<(BatchId, Content)>, more: seq<(BatchId, Content)>, b: BatchId, content: Content)
    requires WasPosted(appended, b, content) && appended <= more
    ensures WasPosted(more, b, content)
  {
    var i :| 0 <= i < |appended| && appended[i] == (b, content);
    assert more[i] == (b, content);
  }

  ghost predicate Inv(s: State) {
    RowsAgree(s) && NoneStranded(s) && SynthesisWhenSettled(s) && DeadlinesInTime(s) && AlarmKnows(s) && PostsFinal(s)
  }

  // ---------------------------------------------------------------- steps that change task rows only

  /** s1 differs from s in rows of s.tasks, the pump and the clock; terminal rows and deadlines are as they were. */
  ghost predicate RowsRefined(s: State, s1: State) {
    && s1 == s.(tasks := s1.tasks, pump := s1.pump, now := s1.now, cancellations := s1.cancellations,
                processing := s1.processing, conversations := s1.conversations)
    && s.now <= s1.now
    && s1.tasks.Keys == s.tasks.Keys
    && (forall t :: t in s.tasks ==> s1.tasks[t].batch == s.tasks[t].batch && s1.tasks[t].deadline == s.tasks[t].deadline
                                     && (s.tasks[t].status.Terminal() ==> s1.tasks[t].status.Terminal()))
  }

  lemma {:induction false} SettledStaysSettled(s: State, s1: State, b: BatchId)
    requires RowsRefined(s, s1) && AllSettled(s, b)
    ensures AllSettled(s1, b)
  {
    assert TasksOf(s1, b) == TasksOf(s, b);
  }

  lemma {:induction false} RefinedRows(s: State, s1: State)
    requires RowsRefined(s, s1) && RowsAgree(s) && PostsFinal(s)
    ensures RowsAgree(s1) && PostsFinal(s1)
  {
  }

  lemma {:induction false} RefinedKeepsInv(s: State, s1: State)
    requires Inv(s) && RowsRefined(s, s1)
    ensures Inv(s1)
  {
    RefinedRows(s, s1);
    forall b | AllSettled(s, b) ensures AllSettled(s1, b) { SettledStaysSettled(s, s1, b); }
    assert forall b :: IsActive(s1, b) <==> IsActive(s, b);
  }

  /** s1 is s with other job rows and another handler position. */
  ghost predicate SameLedger(s: State, s1: State) {
    s1 == s.(jobs := s1.jobs, alarm := s1.alarm)
  }

  lemma {:induction false} SameLedgerFacts(s: State, s1: State)
    requires SameLedger(s, s1)
    ensures forall b :: IsActive(s1, b) <==> IsActive(s, b)
    ensures forall b :: AllSettled(s1, b) <==> AllSettled(s, b)
  {
    assert forall b :: TasksOf(s1, b) == TasksOf(s, b);
  }

  /** Other job rows of known batches change nothing about task rows and messages. */
  lemma {:induction false} LedgerStays(s: State, s1: State)
    requires RowsAgree(s) && PostsFinal(s) && SameLedger(s, s1) && forall id :: id in s1.jobs ==> id.batch in s.order
    ensures RowsAgree(s1) && PostsFinal(s1)
  {
  }

  lemma {:induction false} SynthesisJobsFit(s: State, b: BatchId)
    requires ActiveHaveJobs(s) && SynthesisWhenSettled(s) && DeadlinesInTime(s) && SynthesizingRuns(s) && AllSettled(s, b)
    ensures var s1 := Schedule(s, SynthesisJob(b), s.now, None);
      ActiveHaveJobs(s1) && SynthesisWhenSettled(s1) && DeadlinesInTime(s1) && SynthesizingRuns(s1)
  {
    SameLedgerFacts(s, Schedule(s, SynthesisJob(b), s.now, None));
  }

  lemma {:induction false} SynthesisAlarmKnows(s: State, b: BatchId)
    requires AlarmKnows(s) && AllSettled(s, b)
    ensures AlarmKnows(Schedule(s, SynthesisJob(b), s.now, None))
  {
    SameLedgerFacts(s, Schedule(s, SynthesisJob(b), s.now, None));
  }

  lemma {:induction false} SynthesisKeepsInv(s: State, b: BatchId)
    requires Inv(s) && b in s.order && AllSettled(s, b)
    ensures Inv(Schedule(s, SynthesisJob(b), s.now, None))
  {
    LedgerStays(s, Schedule(s, SynthesisJob(b), s.now, None));
    SynthesisJobsFit(s, b);
    SynthesisAlarmKnows(s, b);
  }

  lemma {:induction false} MaybeScheduleKeepsInv(s: State, b: BatchId)
    requires Inv(s) && b in s.order
    ensures Inv(MaybeScheduleSynthesis(s, b))
  {
    if (b in s.batches ==> s.batches[b].status.Active?) && AllSettled(s, b) {
      SynthesisKeepsInv(s, b);
    } else {
      assert MaybeScheduleSynthesis(s, b) == s;
    }
  }

  // ---------------------------------------------------------------- finishing

  /** s1 is s with the batches `bs` closed and their rows and jobs gone; messages may have grown. */
  ghost predicate Closes(s: State, s1: State, bs: set<BatchId>) {
    && s1.now == s.now && s1.order == s.order && s1.alarm == s.alarm
    && s1.batches.Keys == s.batches.Keys
    && (forall b :: b in s.batches ==> if b in bs then !s1.batches[b].Open() else s1.batches[b] == s.batches[b])
    && s1.tasks == (map t | t in s.tasks && s.tasks[t].batch !in bs :: s.tasks[t])
    && s1.jobs == (map id | id in s.jobs && id.batch !in bs :: s.jobs[id])
  }

  lemma {:induction false} ClosedElsewhere(s: State, s1: State, bs: set<BatchId>, b: BatchId)
    requires Closes(s, s1, bs) && b !in bs
    ensures TasksOf(s1, b) == TasksOf(s, b)
    ensures AllSettled(s1, b) <==> AllSettled(s, b)
    ensures IsActive(s1, b) <==> IsActive(s, b)
  {
    assert TasksOf(s1, b) == TasksOf(s, b);
  }

  lemma {:induction false} ClosedRows(s: State, s1: State, bs: set<BatchId>)
    requires RowsAgree(s) && Closes(s, s1, bs)
    ensures RowsAgree(s1)
  {
    forall b | b in s1.batches && s1.batches[b].Open()
      ensures s1.order[b] != [] && s1.batches[b].finishedAt.None? && forall t :: t in s1.order[b] ==> t in s1.tasks && s1.tasks[t].batch == b
    {
      assert b !in bs;
    }
  }

  lemma {:induction false} ClosedJobs(s: State, s1: State, bs: set<BatchId>)
    requires NoneStranded(s) && SynthesisWhenSettled(s) && DeadlinesInTime(s) && Closes(s, s1, bs)
    ensures NoneStranded(s1) && SynthesisWhenSettled(s1) && DeadlinesInTime(s1)
  {
    forall b | b !in bs
      ensures TasksOf(s1, b) == TasksOf(s, b) && (AllSettled(s1, b) <==> AllSettled(s, b)) && (IsActive(s1, b) <==> IsActive(s, b))
    {
      ClosedElsewhere(s, s1, bs, b);
    }
    assert forall b :: IsActive(s1, b) ==> b !in bs;
  }

  lemma {:induction false} ClosedAlarm(s: State, s1: State, bs: set<BatchId>)
    requires AlarmKnows(s) && Closes(s, s1, bs)
    ensures AlarmKnows(s1)
  {
    forall b | b !in bs
      ensures TasksOf(s1, b) == TasksOf(s, b) && (AllSettled(s1, b) <==> AllSettled(s, b)) && (IsActive(s1, b) <==> IsActive(s, b))
    {
      ClosedElsewhere(s, s1, bs, b);
    }
    assert forall b :: IsActive(s1, b) ==> b !in bs;
  }

  lemma {:induction false} ClosedKeepsInv(s: State, s1: State, bs: set<BatchId>)
    requires Inv(s) && Closes(s, s1, bs) && PostsFinal(s1)
    ensures Inv(s1)
  {
    ClosedRows(s, s1, bs);
    ClosedJobs(s, s1, bs);
    ClosedAlarm(s, s1, bs);
  }

  lemma {:induction false} OpenHasNoMessage(s: State, b: BatchId)
    requires PostsFinal(s) && b in s.batches && s.batches[b].Open()
    ensures b !in s.messages
    ensures forall i :: 0 <= i < |s.appended| ==> s.appended[i].0 != b
  {
  }

  /** Posting (or not) and finishing in one stretch; `PostTo` alone would leave an open batch with a message. */
  lemma {:induction false} PostAndFinishKeepsInv(s: State, b: BatchId, content: Content, status: BatchStatus)
    requires Inv(s) && b in s.batches && s.batches[b].Open() && !status.Active? && !status.Synthesizing?
    requires Complete(content, s.order[b])
    ensures Inv(Finish(PostTo(s, b, content), b, status))
  {
    PostAndFinishCloses(s, b, content, status);
    PostIsFinal(s, b, content, status);
    ClosedKeepsInv(s, Finish(PostTo(s, b, content), b, status), {b});
  }

  lemma {:induction false} PostAndFinishCloses(s: State, b: BatchId, content: Content, status: BatchStatus)
    requires b in s.batches && !status.Active? && !status.Synthesizing?
    ensures Closes(s, Finish(PostTo(s, b, content), b, status), {b})
  {
    var s0 := PostTo(s, b, content);
    assert s0 == s.(messages := s0.messages, appended := s0.appended);
    assert TasksOf(s0, b) == TasksOf(s, b);
  }

  lemma {:induction false} PostIsFinal(s: State, b: BatchId, content: Content, status: BatchStatus)
    requires PostsFinal(s) && b in s.batches && b in s.order && s.batches[b].Open() && !status.Active? && !status.Synthesizing?
    requires Complete(content, s.order[b])
    ensures PostsFinal(Finish(PostTo(s, b, content), b, status))
  {
    var s1 := Finish(PostTo(s, b, content), b, status);
    OpenHasNoMessage(s, b);
    forall x | x in s1.messages ensures WasPosted(s1.appended, x, s1.messages[x].content) {
      if x in s.messages {
        StillPosted(s.appended, s1.appended, x, s.messages[x].content);
      } else {
        assert s1.appended[|s.appended|] == (x, s1.messages[x].content);
      }
    }
  }

  lemma {:induction false} FinishKeepsInv(s: State, b: BatchId, status: BatchStatus)
    requires Inv(s) && !status.Active? && !status.Synthesizing?
    ensures Inv(Finish(s, b, status))
  {
    assert Closes(s, Finish(s, b, status), {b});
    ClosedKeepsInv(s, Finish(s, b, status), {b});
  }

  lemma {:induction false} CancelKeepsInv(s: State, c: ConversationId, request: Option<RequestId>)
    requires Inv(s)
    ensures Inv(CancelTurn(s, c, request))
  {
    ClosedKeepsInv(s, CancelTurn(s, c, request), CancelTargets(s, c, request));
  }

  // ---------------------------------------------------------------- the alarm handler

  /** The last resort of a busy conversation: a synthesis job with no attempts left. */
  lemma {:induction false} LastResortKeepsInv(s: State, b: BatchId)
    requires Inv(s) && s.alarm.Picked? && b in s.order && IsActive(s, b)
    ensures Inv(Schedule(s, SynthesisJob(b), s.now + BATCH_RETRY_MS, Some(MAX_BATCH_ATTEMPTS)))
  {
    var s1 := Schedule(s, SynthesisJob(b), s.now + BATCH_RETRY_MS, Some(MAX_BATCH_ATTEMPTS));
    SameLedgerFacts(s, s1);
    LedgerStays(s, s1);
  }

  lemma {:induction false} FailIs(s: State, b: BatchId)
    ensures b !in s.batches || s.batches[b].status.Synthesizing? ==> Fail(s, b) == s
    ensures b in s.batches && !s.batches[b].Open() ==> Fail(s, b) == Finish(s, b, s.batches[b].status)
    ensures IsActive(s, b) && Busy(s, b) ==>
      Fail(s, b) == Schedule(s, SynthesisJob(b), s.now + BATCH_RETRY_MS, Some(MAX_BATCH_ATTEMPTS))
    ensures IsActive(s, b) && !Busy(s, b) && b !in s.messages ==> Fail(s, b) == Finish(PostTo(s, b, CouldNotDeliver), b, BatchFailed)
  {
  }

  lemma {:induction false} FailKeepsInv(s: State, b: BatchId)
    requires Inv(s) && s.alarm.Picked? && b in s.order
    ensures Inv(Fail(s, b)) && Fail(s, b).alarm == s.alarm
    ensures IsActive(Fail(s, b), b) ==>
              SynthesisJob(b) in Fail(s, b).jobs && Fail(s, b).jobs[SynthesisJob(b)].retry == Some(MAX_BATCH_ATTEMPTS)
  {
    FailIs(s, b);
    if b !in s.batches || s.batches[b].status.Synthesizing? {
    } else if !s.batches[b].status.Active? {
      FinishKeepsInv(s, b, s.batches[b].status);
    } else if Busy(s, b) {
      LastResortKeepsInv(s, b);
    } else {
      OpenHasNoMessage(s, b);
      PostAndFinishKeepsInv(s, b, CouldNotDeliver, BatchFailed);
    }
  }

  lemma {:induction false} RenderIsComplete(s: State, b: BatchId)
    requires RowsAgree(s) && AllSettled(s, b) && b in s.batches && s.batches[b].Open()
    ensures Complete(Findings(Render(s, Rows(s, b))), s.order[b])
  {
    assert Rows(s, b) == s.order[b];
    assert forall t :: t in s.order[b] ==> t in TasksOf(s, b);
  }

  /** Handing over to `Handled` is safe once the batch is closed or its synthesis row was replaced. */
  lemma {:induction false} HandledKeepsInv(s: State, id: JobId, retry: nat, recoveryAt: nat)
    requires Inv(s) && !s.alarm.WakeRunning? && id.batch in s.order
    requires id.SynthesisJob? && IsActive(s, id.batch) ==>
               SynthesisJob(id.batch) in s.jobs && s.jobs[SynthesisJob(id.batch)].retry != Some(retry + 1)
    ensures Inv(s.(alarm := Handled(id, retry, recoveryAt)))
  {
    SameLedgerFacts(s, s.(alarm := Handled(id, retry, recoveryAt)));
    LedgerStays(s, s.(alarm := Handled(id, retry, recoveryAt)));
  }

  lemma {:induction false} WakeStartFacts(s: State, s1: State, b: BatchId)
    requires IsActive(s, b)
    requires s1 == s.(batches := s.batches[b := s.batches[b].(status := Synthesizing)], alarm := s1.alarm)
    ensures forall x :: TasksOf(s1, x) == TasksOf(s, x)
    ensures forall x :: AllSettled(s1, x) <==> AllSettled(s, x)
    ensures forall x :: IsActive(s1, x) <==> IsActive(s, x) && x != b
    ensures RowsAgree(s) && PostsFinal(s) ==> RowsAgree(s1) && PostsFinal(s1)
  {
    assert forall x :: TasksOf(s1, x) == TasksOf(s, x);
  }

  lemma {:induction false} WakeStartsKeepsInv(s: State, b: BatchId, retry: nat, recoveryAt: nat)
    requires Inv(s) && s.alarm.Picked? && AllSettled(s, b) && IsActive(s, b) && s.batches[b].origin.Wake?
    ensures Inv(Synthesize(s, b, retry, recoveryAt))
  {
    var s1 := s.(batches := s.batches[b := s.batches[b].(status := Synthesizing)], alarm := WakeRunning(b, retry, recoveryAt));
    assert Synthesize(s, b, retry, recoveryAt) == s1;
    WakeStartFacts(s, s1, b);
  }

  lemma {:induction false} SynthesizeWaits(s: State, b: BatchId, retry: nat, recoveryAt: nat)
    requires AllSettled(s, b) && IsActive(s, b) && s.batches[b].origin.Chat? && Busy(s, b)
    ensures Synthesize(s, b, retry, recoveryAt)
         == Schedule(s, SynthesisJob(b), s.now + 1000, None).(alarm := Handled(SynthesisJob(b), retry, recoveryAt))
  {
  }

  lemma {:induction false} PostponeKeepsInv(s: State, b: BatchId, runAt: nat, retry: nat, recoveryAt: nat)
    requires Inv(s) && s.alarm.Picked? && AllSettled(s, b) && b in s.order
    ensures Inv(Schedule(s, SynthesisJob(b), runAt, None).(alarm := Handled(SynthesisJob(b), retry, recoveryAt)))
  {
    SameLedgerFacts(s, Schedule(s, SynthesisJob(b), runAt, None).(alarm := Handled(SynthesisJob(b), retry, recoveryAt)));
    LedgerStays(s, Schedule(s, SynthesisJob(b), runAt, None).(alarm := Handled(SynthesisJob(b), retry, recoveryAt)));
  }

  lemma {:induction false} FinishAgainKeepsInv(s: State, b: BatchId, retry: nat, recoveryAt: nat)
    requires Inv(s) && s.alarm.Picked? && b in s.batches && !s.batches[b].Open()
    ensures Inv(Finish(s, b, s.batches[b].status).(alarm := Handled(SynthesisJob(b), retry, recoveryAt)))
  {
    FinishKeepsInv(s, b, s.batches[b].status);
    HandledKeepsInv(Finish(s, b, s.batches[b].status), SynthesisJob(b), retry, recoveryAt);
  }

  lemma {:induction false} PublishKeepsInv(s: State, b: BatchId, retry: nat, recoveryAt: nat)
    requires Inv(s) && s.alarm.Picked? && AllSettled(s, b) && IsActive(s, b) && s.batches[b].origin.Chat? && !Busy(s, b)
    ensures Inv(Synthesize(s, b, retry, recoveryAt))
  {
    RenderIsComplete(s, b);
    var content := Findings(Render(s, Rows(s, b)));
    PostAndFinishKeepsInv(s, b, content, BatchCompleted);
    PostAndFinishCloses(s, b, content, BatchCompleted);
    HandledKeepsInv(Finish(PostTo(s, b, content), b, BatchCompleted), SynthesisJob(b), retry, recoveryAt);
  }

  lemma {:induction false} SynthesizeActiveKeepsInv(s: State, b: BatchId, retry: nat, recoveryAt: nat)
    requires Inv(s) && s.alarm.Picked? && AllSettled(s, b) && IsActive(s, b)
    ensures Inv(Synthesize(s, b, retry, recoveryAt))
  {
    if s.batches[b].origin.Wake? {
      WakeStartsKeepsInv(s, b, retry, recoveryAt);
    } else if Busy(s, b) {
      SynthesizeWaits(s, b, retry, recoveryAt);
      PostponeKeepsInv(s, b, s.now + 1000, retry, recoveryAt);
    } else {
      PublishKeepsInv(s, b, retry, recoveryAt);
    }
  }

  lemma {:induction false} SynthesizeKeepsInv(s: State, b: BatchId, retry: nat, recoveryAt: nat)
    requires Inv(s) && s.alarm == Picked(SynthesisJob(b), retry, recoveryAt) && retry < MAX_BATCH_ATTEMPTS
    ensures Inv(Synthesize(s, b, retry, recoveryAt))
  {
    if !AllSettled(s, b) || b !in s.batches || s.batches[b].status.Synthesizing? {
      HandledKeepsInv(s, SynthesisJob(b), retry, recoveryAt);
    } else if IsActive(s, b) {
      SynthesizeActiveKeepsInv(s, b, retry, recoveryAt);
    } else {
      FinishAgainKeepsInv(s, b, retry, recoveryAt);
    }
  }

  lemma {:induction false} SweepSettles(s: State, b: BatchId)
    requires Inv(s) && Overdue(s, b, s.now)
    ensures Inv(SweepTimeouts(s, b)) && Overdue(SweepTimeouts(s, b), b, s.now)
    ensures IsActive(s, b) ==> AllSettled(SweepTimeouts(s, b), b)
  {
    SweepRefines(s, b);
    RefinedKeepsInv(s, SweepTimeouts(s, b));
    if IsActive(s, b) {
      assert s.order[b][0] in TasksOf(s, b);
    }
  }

  lemma {:induction false} SweepRefines(s: State, b: BatchId)
    requires Overdue(s, b, s.now)
    ensures RowsRefined(s, SweepTimeouts(s, b))
    ensures TasksOf(SweepTimeouts(s, b), b) == TasksOf(s, b)
    ensures forall t :: t in TasksOf(s, b) ==> SweepTimeouts(s, b).tasks[t].status.Terminal()
  {
    assert TasksOf(SweepTimeouts(s, b), b) == TasksOf(s, b);
  }

  lemma {:induction false} SweepKeepsInv(s: State, b: BatchId, retry: nat)
    requires Inv(s) && s.alarm.Picked? && s.alarm.id == DeadlineJob(b)
    ensures Inv(MaybeScheduleSynthesis(SweepTimeouts(s, b), b).(alarm := Swept(b, retry, false)))
  {
    SweepSettles(s, b);
    var s2 := SweepTimeouts(s, b);
    MaybeScheduleKeepsInv(s2, b);
    var s3 := MaybeScheduleSynthesis(s2, b);
    SameLedgerFacts(s2, s3);
    SameLedgerFacts(s3, s3.(alarm := Swept(b, retry, false)));
    LedgerStays(s3, s3.(alarm := Swept(b, retry, false)));
  }

  lemma {:induction false} RunPickedKeepsInv(s: State)
    requires Inv(s) && s.alarm.Picked?
    ensures Inv(RunPicked(s))
  {
    var Picked(id, retry, recoveryAt) := s.alarm;
    if retry >= MAX_BATCH_ATTEMPTS {
      FailKeepsInv(s, id.batch);
      HandledKeepsInv(Fail(s, id.batch), id, retry, recoveryAt);
    } else if id.DeadlineJob? {
      SweepKeepsInv(s, id.batch, retry);
    } else {
      SynthesizeKeepsInv(s, id.batch, retry, recoveryAt);
    }
  }

  lemma {:induction false} PickKeepsInv(s: State, id: JobId)
    requires Inv(s) && Enabled(s, EvPick(id))
    ensures Inv(Pick(s, id))
  {
    SameLedgerFacts(s, Pick(s, id));
    LedgerStays(s, Pick(s, id));
  }

  /** The job rows of a batch that is not active are not needed. */
  lemma {:induction false} ClosedJobIsFree(s: State, b: BatchId)
    requires Inv(s) && s.alarm.AlarmIdle? && !IsActive(s, b)
    ensures Inv(s.(jobs := s.jobs - {SynthesisJob(b)}))
  {
    SameLedgerFacts(s, s.(jobs := s.jobs - {SynthesisJob(b)}));
    LedgerStays(s, s.(jobs := s.jobs - {SynthesisJob(b)}));
  }

  lemma {:induction false} AfterJobKeepsInv(s: State)
    requires Inv(s) && s.alarm.Handled?
    ensures Inv(AfterJob(s))
  {
    var Handled(id, retry, recoveryAt) := s.alarm;
    AlarmEndsKeepsInv(s);
    if id.SynthesisJob? && id in s.jobs && s.jobs[id] == Job(recoveryAt, Some(retry + 1)) {
      ClosedJobIsFree(s.(alarm := AlarmIdle), id.batch);
    }
  }

  lemma {:induction false} DeadlineCancelKeepsInv(s: State)
    requires Inv(s) && s.alarm.Swept?
    ensures Inv(s.(jobs := s.jobs - {DeadlineJob(s.alarm.batch)}, alarm := s.alarm.(deadlineCancelled := true)))
  {
    SameLedgerFacts(s, s.(jobs := s.jobs - {DeadlineJob(s.alarm.batch)}, alarm := s.alarm.(deadlineCancelled := true)));
    LedgerStays(s, s.(jobs := s.jobs - {DeadlineJob(s.alarm.batch)}, alarm := s.alarm.(deadlineCancelled := true)));
  }

  lemma {:induction false} DeadlineThrewKeepsInv(s: State)
    requires Inv(s) && s.alarm.Swept?
    ensures Inv(DeadlineThrew(s))
  {
    SameLedgerFacts(s, DeadlineThrew(s));
    LedgerStays(s, DeadlineThrew(s));
  }

  lemma {:induction false} AlarmEndsKeepsInv(s: State)
    requires Inv(s) && !s.alarm.WakeRunning?
    ensures Inv(s.(alarm := AlarmIdle))
  {
    SameLedgerFacts(s, s.(alarm := AlarmIdle));
  }

  /** Another handler position that knows no more than that its batch was ordered and is closed. */
  lemma {:induction false} HandedOver(s: State, s1: State, b: BatchId, retry: nat, recoveryAt: nat)
    requires RowsAgree(s) && PostsFinal(s) && ActiveHaveJobs(s) && SynthesisWhenSettled(s) && DeadlinesInTime(s)
    requires s1 == s.(alarm := Handled(SynthesisJob(b), retry, recoveryAt)) && b in s.order && !IsActive(s, b)
    requires forall x :: x in s.batches ==> !s.batches[x].status.Synthesizing?
    ensures Inv(s1)
  {
    SameLedgerFacts(s, s1);
    LedgerStays(s, s1);
  }

  lemma {:induction false} WakeEndsKeepsInv(s: State, ok: bool)
    requires Inv(s) && s.alarm.WakeRunning?
    ensures Inv(Step(s, EvWakeEnds(ok)))
  {
    var b := s.alarm.batch;
    var s1 := Finish(s, b, if ok then BatchCompleted else BatchFailed);
    FinishKeepsInv(s, b, if ok then BatchCompleted else BatchFailed);
    HandedOver(s1, Step(s, EvWakeEnds(ok)), b, s.alarm.retry, s.alarm.recoveryAt);
  }

  // ---------------------------------------------------------------- spawn, dispatch and restart

  /** Outside the new batch nothing moves, and the new batch is not settled. */
  ghost predicate Spawns(s: State, s1: State, b: BatchId) {
    && s1.now == s.now && s1.alarm == s.alarm && s1.messages == s.messages && s1.appended == s.appended
    && s1.jobs.Keys == s.jobs.Keys + {DeadlineJob(b)}
    && (forall id :: id in s.jobs ==> s1.jobs[id] == s.jobs[id])
    && Overdue(s1, b, s1.jobs[DeadlineJob(b)].runAt)
    && b in s1.batches && s1.batches[b].status.Active? && !AllSettled(s1, b)
    && (forall x :: x != b ==> TasksOf(s1, x) == TasksOf(s, x) && (AllSettled(s1, x) <==> AllSettled(s, x)))
    && (forall x :: x != b ==> (IsActive(s1, x) <==> IsActive(s, x)))
    && (forall t :: t in s.tasks ==> t in s1.tasks && s1.tasks[t] == s.tasks[t])
    && (forall x :: x != b ==> (x in s1.batches <==> x in s.batches) && (x in s.batches ==> s1.batches[x] == s.batches[x]))
    && (forall x :: x in s.order ==> x in s1.order && s1.order[x] == s.order[x])
  }

  ghost predicate Unused(s: State, b: BatchId, ts: seq<TaskId>) {
    && b !in s.batches && b !in s.order && DeadlineJob(b) !in s.jobs
    && forall t :: t in s.tasks ==> t !in ts && s.tasks[t].batch != b
  }

  lemma {:induction false} SpawnIsFresh(s: State, b: BatchId, ts: seq<TaskId>, origin: Origin, conversation: Option<ConversationId>, request: Option<RequestId>)
    requires RowsAgree(s) && Enabled(s, EvSpawn(b, ts, origin, conversation, request))
    ensures Unused(s, b, ts)
  {
  }

  lemma {:induction false} SpawnSpawns(s: State, b: BatchId, ts: seq<TaskId>, origin: Origin, conversation: Option<ConversationId>, request: Option<RequestId>)
    requires Unused(s, b, ts) && ts != []
    ensures Spawns(s, Spawn(s, b, ts, origin, conversation, request), b)
  {
    var s1 := Spawn(s, b, ts, origin, conversation, request);
    forall x | x != b ensures TasksOf(s1, x) == TasksOf(s, x) && (AllSettled(s1, x) <==> AllSettled(s, x)) {
      assert TasksOf(s1, x) == TasksOf(s, x);
    }
    assert ts[0] in TasksOf(s1, b) && !s1.tasks[ts[0]].status.Terminal();
  }

  lemma {:induction false} SpawnRows(s: State, b: BatchId, ts: seq<TaskId>, origin: Origin, conversation: Option<ConversationId>, request: Option<RequestId>)
    requires RowsAgree(s) && Enabled(s, EvSpawn(b, ts, origin, conversation, request))
    ensures RowsAgree(Spawn(s, b, ts, origin, conversation, request))
  {
    SpawnIsFresh(s, b, ts, origin, conversation, request);
  }

  lemma {:induction false} SpawnedJobs(s: State, s1: State, b: BatchId)
    requires RowsAgree(s) && NoneStranded(s) && SynthesisWhenSettled(s) && DeadlinesInTime(s)
    requires Spawns(s, s1, b) && b !in s.order
    ensures NoneStranded(s1) && SynthesisWhenSettled(s1) && DeadlinesInTime(s1)
  {
    assert SynthesisJob(b) !in s1.jobs;
    forall x | DeadlineJob(x) in s1.jobs ensures Overdue(s1, x, s1.jobs[DeadlineJob(x)].runAt) {
      if x != b { SpawnOverdue(s, s1, b, x, s.jobs[DeadlineJob(x)].runAt); }
    }
  }

  lemma {:induction false} SpawnOverdue(s: State, s1: State, b: BatchId, x: BatchId, at: nat)
    requires Spawns(s, s1, b) && x != b && Overdue(s, x, at)
    ensures Overdue(s1, x, at)
  {
    assert forall t :: t in s1.tasks && s1.tasks[t].batch == x ==> t in TasksOf(s1, x);
  }

  lemma {:induction false} SpawnedAlarm(s: State, s1: State, b: BatchId)
    requires AlarmKnows(s) && Spawns(s, s1, b) && b !in s.order
    ensures AlarmKnows(s1)
  {
    match s.alarm
    case Picked(id, _, _) =>
      if id.DeadlineJob? { SpawnOverdue(s, s1, b, id.batch, s.now); }
    case Swept(x, _, _) => SpawnOverdue(s, s1, b, x, s.now);
    case _ =>
  }

  lemma {:induction false} SpawnKeepsInv(s: State, b: BatchId, ts: seq<TaskId>, origin: Origin, conversation: Option<ConversationId>, request: Option<RequestId>)
    requires Inv(s) && Enabled(s, EvSpawn(b, ts, origin, conversation, request))
    ensures Inv(Spawn(s, b, ts, origin, conversation, request))
  {
    var s1 := Spawn(s, b, ts, origin, conversation, request);
    SpawnIsFresh(s, b, ts, origin, conversation, request);
    SpawnSpawns(s, b, ts, origin, conversation, request);
    SpawnRows(s, b, ts, origin, conversation, request);
    SpawnedJobs(s, s1, b);
    SpawnedAlarm(s, s1, b);
    SpawnedPosts(s, s1, b);
  }

  lemma {:induction false} SpawnedPosts(s: State, s1: State, b: BatchId)
    requires PostsFinal(s) && Spawns(s, s1, b) && b !in s.order
    ensures PostsFinal(s1)
  {
  }

  lemma {:induction false} ExhaustedRefines(s: State, retry: set<TaskId>)
    requires forall t :: t in retry ==> t in s.tasks
    ensures RowsRefined(s, SettleExhausted(s, retry))
  {
  }

  lemma {:induction false} ClaimRefines(s: State, retry: set<TaskId>, claims: set<TaskId>)
    requires s.pump.Claiming? && ClaimAllowed(s, retry, claims)
    ensures RowsRefined(s, Claim(s, retry, claims))
  {
    ExhaustedRefines(s, retry);
    var s1 := SettleExhausted(s, retry);
    var s2 := Claim(s, retry, claims);
    assert s2 == s1.(tasks := s2.tasks, pump := s2.pump);
    forall t | t in s.tasks
      ensures s2.tasks[t].batch == s.tasks[t].batch && s2.tasks[t].deadline == s.tasks[t].deadline
      ensures s.tasks[t].status.Terminal() ==> s2.tasks[t].status.Terminal()
    {
      assert s.tasks[t].status.Terminal() ==> t !in retry && t !in claims;
    }
  }

  lemma {:induction false} DispatchResultsRefines(s: State, accepted: set<TaskId>)
    requires s.pump.AwaitingChildren?
    ensures RowsRefined(s, DispatchResults(s, accepted))
  {
  }

  lemma {:induction false} DeleteRetiredFacts(s: State)
    ensures forall x :: TasksOf(DeleteRetired(s), x) == TasksOf(s, x)
    ensures forall x :: AllSettled(DeleteRetired(s), x) <==> AllSettled(s, x)
    ensures RowsAgree(s) ==> forall x :: IsActive(DeleteRetired(s), x) <==> IsActive(s, x)
  {
    assert forall x :: TasksOf(DeleteRetired(s), x) == TasksOf(s, x);
  }

  lemma {:induction false} DeleteRetiredRows(s: State)
    requires RowsAgree(s) && PostsFinal(s)
    ensures RowsAgree(DeleteRetired(s)) && PostsFinal(DeleteRetired(s))
  {
  }

  lemma {:induction false} DeleteRetiredKeepsInv(s: State)
    requires RowsAgree(s) && ActiveHaveJobs(s) && SynthesisWhenSettled(s) && DeadlinesInTime(s) && PostsFinal(s)
    ensures var s1 := DeleteRetired(s);
      RowsAgree(s1) && ActiveHaveJobs(s1) && SynthesisWhenSettled(s1) && DeadlinesInTime(s1) && PostsFinal(s1)
    ensures SynthesizingRuns(s) ==> SynthesizingRuns(DeleteRetired(s))
    ensures AlarmKnows(s) ==> AlarmKnows(DeleteRetired(s))
  {
    DeleteRetiredFacts(s);
    DeleteRetiredRows(s);
  }

  lemma {:induction false} RecoverActiveFacts(s: State, b: BatchId)
    requires RowsAgree(s) && IsActive(s, b)
    ensures TasksOf(s, b) != {}
    ensures Overdue(s, b, RecoveryRunAt(s, DeadlineJob(b)))
  {
    assert s.order[b][0] in TasksOf(s, b);
    assert Rows(s, b) == s.order[b];
  }

  /** Recovery alone, from any consistent tables, leaves no active batch without its job. */
  lemma {:induction false} RecoverActiveEquips(s: State)
    requires RowsAgree(s) && SynthesisWhenSettled(s) && DeadlinesInTime(s)
    ensures var s1 := RecoverActive(s);
      RowsAgree(s1) && ActiveHaveJobs(s1) && SynthesisWhenSettled(s1) && DeadlinesInTime(s1)
  {
    RecoverActiveJobs(s);
    RecoverActiveDeadlines(s);
  }

  lemma {:induction false} RecoverActiveJobs(s: State)
    requires RowsAgree(s) && SynthesisWhenSettled(s)
    ensures ActiveHaveJobs(RecoverActive(s)) && SynthesisWhenSettled(RecoverActive(s))
  {
    SameLedgerFacts(s, RecoverActive(s));
    forall b | IsActive(s, b) ensures RecoveryJob(s, b) in RecoverActive(s).jobs {
      RecoveryJobIsThere(s, b);
    }
  }

  lemma {:induction false} RecoveryJobIsThere(s: State, b: BatchId)
    requires RowsAgree(s) && IsActive(s, b)
    ensures RecoveryJob(s, b) in RecoverActive(s).jobs
  {
    RecoverActiveFacts(s, b);
  }

  lemma {:induction false} RecoverActiveDeadlines(s: State)
    requires RowsAgree(s) && DeadlinesInTime(s)
    ensures DeadlinesInTime(RecoverActive(s))
  {
    var s1 := RecoverActive(s);
    forall b | DeadlineJob(b) in s1.jobs ensures Overdue(s1, b, s1.jobs[DeadlineJob(b)].runAt) {
      if DeadlineJob(b) !in s.jobs {
        RecoverActiveFacts(s, b);
      }
    }
  }

  lemma {:induction false} InterruptedAll(s: State)
    requires RowsAgree(s)
    ensures forall b :: b in s.batches && s.batches[b].status.Synthesizing? ==> b in Interrupted(s)
  {
    forall b | b in s.batches && s.batches[b].status.Synthesizing? ensures b in Interrupted(s) {
      assert s.order[b][0] in TasksOf(s, b);
    }
  }

  lemma {:induction false} InterruptedCloses(s: State)
    ensures Closes(s, FailInterrupted(s), Interrupted(s))
  {
  }

  lemma {:induction false} FailInterruptedKeeps(s: State)
    requires RowsAgree(s) && ActiveHaveJobs(s) && SynthesisWhenSettled(s) && DeadlinesInTime(s) && PostsFinal(s) && s.alarm.AlarmIdle?
    ensures var s1 := FailInterrupted(s);
      RowsAgree(s1) && NoneStranded(s1) && SynthesisWhenSettled(s1) && DeadlinesInTime(s1) && PostsFinal(s1) && s1.alarm.AlarmIdle?
  {
    var s1 := FailInterrupted(s);
    InterruptedAll(s);
    InterruptedCloses(s);
    ClosedRows(s, s1, Interrupted(s));
    InterruptedLeaves(s, s1);
  }

  lemma {:induction false} InterruptedLeaves(s: State, s1: State)
    requires s1 == FailInterrupted(s) && Closes(s, s1, Interrupted(s)) && RowsAgree(s1) && s.alarm.AlarmIdle?
    requires ActiveHaveJobs(s) && SynthesisWhenSettled(s) && DeadlinesInTime(s)
    requires forall b :: b in s.batches && s.batches[b].status.Synthesizing? ==> b in Interrupted(s)
    ensures NoneStranded(s1) && SynthesisWhenSettled(s1) && DeadlinesInTime(s1)
  {
    forall b | b !in Interrupted(s)
      ensures TasksOf(s1, b) == TasksOf(s, b) && (AllSettled(s1, b) <==> AllSettled(s, b)) && (IsActive(s1, b) <==> IsActive(s, b))
    {
      ClosedElsewhere(s, s1, Interrupted(s), b);
    }
  }

  lemma {:induction false} HandlersLost(s: State)
    requires Inv(s)
    ensures var s1 := s.(alarm := AlarmIdle, pump := PumpIdle, processing := {});
      RowsAgree(s1) && ActiveHaveJobs(s1) && SynthesisWhenSettled(s1) && DeadlinesInTime(s1) && PostsFinal(s1)
  {
    var s1 := s.(alarm := AlarmIdle, pump := PumpIdle, processing := {});
    assert forall x :: TasksOf(s1, x) == TasksOf(s, x);
    assert forall x :: AllSettled(s1, x) <==> AllSettled(s, x);
    assert forall x :: IsActive(s1, x) <==> IsActive(s, x);
  }

  lemma {:induction false} RecoveredKeepsInv(s: State)
    requires Inv(s) && s.alarm.AlarmIdle?
    ensures Inv(ForgetDispatchTimes(RecoverActive(DropFinishedRows(s))))
  {
    assert DropFinishedRows(s) == s;
    RecoverActiveEquips(s);
    var s1 := RecoverActive(s);
    assert Inv(s1);
    RefinedKeepsInv(s1, ForgetDispatchTimes(s1));
  }

  lemma {:induction false} RestartKeepsInv(s: State)
    requires Inv(s)
    ensures Inv(Restart(s))
  {
    HandlersLost(s);
    var s1 := s.(alarm := AlarmIdle, pump := PumpIdle, processing := {});
    DeleteRetiredKeepsInv(s1);
    FailInterruptedKeeps(DeleteRetired(s1));
    RecoveredKeepsInv(FailInterrupted(DeleteRetired(s1)));
  }

  /** The messages play no part in jobs, deadlines and the alarm. */
  lemma {:induction false} MessagesAreFree(s: State, s1: State)
    requires s1 == s.(messages := s1.messages)
    ensures NoneStranded(s) ==> NoneStranded(s1)
    ensures SynthesisWhenSettled(s) ==> SynthesisWhenSettled(s1)
    ensures DeadlinesInTime(s) ==> DeadlinesInTime(s1)
    ensures AlarmKnows(s) ==> AlarmKnows(s1)
  {
    assert forall x :: TasksOf(s1, x) == TasksOf(s, x);
    assert forall x :: AllSettled(s1, x) <==> AllSettled(s, x);
    assert forall x :: IsActive(s1, x) <==> IsActive(s, x);
  }

  lemma {:induction false} ClearRows(s: State, c: ConversationId)
    requires RowsAgree(s) && PostsFinal(s)
    ensures RowsAgree(Step(s, EvClearMessages(c))) && PostsFinal(Step(s, EvClearMessages(c)))
  {
  }

  lemma {:induction false} ClearKeepsInv(s: State, c: ConversationId)
    requires Inv(s)
    ensures Inv(Step(s, EvClearMessages(c)))
  {
    MessagesAreFree(s, Step(s, EvClearMessages(c)));
    ClearRows(s, c);
  }

  lemma {:induction false} CallbackKeepsInv(s: State, t: TaskId, status: TaskStatus, result: Option<string>)
    requires Inv(s) && Enabled(s, EvCallback(t, status, result))
    ensures Inv(Step(s, EvCallback(t, status, result)))
  {
    if t in s.tasks && !s.tasks[t].status.Terminal() {
      var s1 := Settle(s, t, status, result);
      RefinedKeepsInv(s, s1);
      MaybeScheduleKeepsInv(s1, s.tasks[t].batch);
    }
  }

  lemma {:induction false} TouchKeepsInv(s: State, b: BatchId)
    requires Inv(s) && s.pump.Touching?
    ensures Inv(Touch(s, b))
  {
    var s1 := MaybeScheduleSynthesis(s, b);
    if TasksOf(s, b) == {} {
      assert s1 == s;
    } else {
      MaybeScheduleKeepsInv(s, b);
    }
    RefinedKeepsInv(s1, Touch(s, b));
  }

  // ---------------------------------------------------------------- main results

  lemma {:induction false} AlarmStepKeepsInv(s: State, e: Event)
    requires Inv(s) && Enabled(s, e)
    requires e.EvPick? || e.EvRunPicked? || e.EvDeadlineCancelled? || e.EvDeadlineThrew? || e.EvDeadlineEnds? || e.EvWakeEnds?
             || e.EvAfterJob? || e.EvAlarmThrew?
    ensures Inv(Step(s, e))
  {
    match e
    case EvPick(id) => PickKeepsInv(s, id);
    case EvRunPicked => RunPickedKeepsInv(s);
    case EvDeadlineCancelled => DeadlineCancelKeepsInv(s);
    case EvDeadlineThrew => DeadlineThrewKeepsInv(s);
    case EvDeadlineEnds => AlarmEndsKeepsInv(s);
    case EvWakeEnds(ok) => WakeEndsKeepsInv(s, ok);
    case EvAfterJob => AfterJobKeepsInv(s);
    case EvAlarmThrew => AlarmEndsKeepsInv(s);
  }

  lemma {:induction false} PlainRefines(s: State, e: Event)
    requires Enabled(s, e)
    requires e.Tick? || e.EvPumpStarts? || e.EvPumpEnds? || e.EvTurnStarts? || e.EvTurnEnds? || e.EvCreateConversation?
             || e.EvDeleteConversation? || e.EvClaim? || e.EvDispatchResults?
    ensures RowsRefined(s, Step(s, e))
  {
    if e.EvClaim? { ClaimRefines(s, e.retry, e.claims); }
    if e.EvDispatchResults? { DispatchResultsRefines(s, e.accepted); }
  }

  lemma {:induction false} TableStepKeepsInv(s: State, e: Event)
    requires Inv(s) && Enabled(s, e)
    requires !(e.EvPick? || e.EvRunPicked? || e.EvDeadlineCancelled? || e.EvDeadlineThrew? || e.EvDeadlineEnds? || e.EvWakeEnds?
               || e.EvAfterJob? || e.EvAlarmThrew?)
    ensures Inv(Step(s, e))
  {
    if e.EvSpawn? {
      SpawnKeepsInv(s, e.batch, e.tasks, e.origin, e.conversation, e.request);
    } else if e.EvCallback? {
      CallbackKeepsInv(s, e.task, e.status, e.result);
    } else if e.EvTouch? {
      TouchKeepsInv(s, e.touch);
    } else if e.EvCancelTurn? {
      CancelKeepsInv(s, e.stopped, e.scope);
    } else if e.EvClearMessages? {
      ClearKeepsInv(s, e.cleared);
    } else if e.EvDeleteRetired? {
      DeleteRetiredKeepsInv(s);
    } else if e.EvRestart? {
      RestartKeepsInv(s);
    } else {
      PlainRefines(s, e);
      RefinedKeepsInv(s, Step(s, e));
    }
  }

  lemma {:induction false} StepKeepsInv(s: State, e: Event)
    requires Inv(s) && Enabled(s, e)
    ensures Inv(Step(s, e))
  {
    if e.EvPick? || e.EvRunPicked? || e.EvDeadlineCancelled? || e.EvDeadlineThrew? || e.EvDeadlineEnds? || e.EvWakeEnds?
       || e.EvAfterJob? || e.EvAlarmThrew? {
      AlarmStepKeepsInv(s, e);
    } else {
      TableStepKeepsInv(s, e);
    }
  }

  lemma {:induction false} RunKeepsInv(cap: nat, es: seq<Event>)
    ensures Inv(Run(Init(cap), es))
  {
    if es != [] {
      RunKeepsInv(cap, es[..|es| - 1]);
      var s1 := Run(Init(cap), es[..|es| - 1]);
      if Enabled(s1, es[|es| - 1]) { StepKeepsInv(s1, es[|es| - 1]); }
    }
  }

  /** What every stretch other than spawning and claiming does to task rows: some go, terminal ones stay as they are. */
  ghost predicate RowsKept(s: State, s1: State) {
    && s1.order == s.order && s1.cap == s.cap && s.appended <= s1.appended
    && s1.tasks.Keys <= s.tasks.Keys
    && (forall t :: t in s1.tasks ==>
          && (s.tasks[t].status.Terminal() ==> s1.tasks[t].status == s.tasks[t].status && s1.tasks[t].result == s.tasks[t].result)
          && (s1.tasks[t].status.InFlight() ==> s.tasks[t].status.InFlight()))
  }

  lemma {:induction false} SameRowsKept(s: State, s1: State)
    requires s1.tasks == s.tasks && s1.order == s.order && s1.cap == s.cap && s.appended <= s1.appended
    ensures RowsKept(s, s1)
  {
  }

  lemma {:induction false} FinishKeepsRows(s: State, s1: State, b: BatchId, status: BatchStatus)
    requires s1.tasks == s.tasks && s1.order == s.order && s1.cap == s.cap && s.appended <= s1.appended
    ensures RowsKept(s, Finish(s1, b, status))
  {
  }

  lemma {:induction false} PostToGrows(s: State, b: BatchId, content: Content)
    requires b in s.batches
    ensures var s1 := PostTo(s, b, content); s1.tasks == s.tasks && s1.order == s.order && s1.cap == s.cap && s.appended <= s1.appended
  {
  }

  lemma {:induction false} FailKeepsRows(s: State, b: BatchId)
    ensures RowsKept(s, Fail(s, b))
  {
    if b in s.batches {
      PostToGrows(s, b, CouldNotDeliver);
      FinishKeepsRows(s, s, b, s.batches[b].status);
      FinishKeepsRows(s, s, b, BatchCompleted);
      FinishKeepsRows(s, PostTo(s, b, CouldNotDeliver), b, BatchFailed);
    }
  }

  lemma {:induction false} SynthesizeKeepsRows(s: State, b: BatchId, retry: nat, recoveryAt: nat)
    ensures RowsKept(s, Synthesize(s, b, retry, recoveryAt))
  {
    if b in s.batches && AllSettled(s, b) && !s.batches[b].status.Synthesizing? {
      if !s.batches[b].status.Active? {
        FinishKeepsRows(s, s, b, s.batches[b].status);
      } else if s.batches[b].origin.Wake? || Busy(s, b) {
        SameRowsKept(s, Synthesize(s, b, retry, recoveryAt));
      } else {
        var posted := PostTo(s, b, Findings(Render(s, Rows(s, b))));
        PostToGrows(s, b, Findings(Render(s, Rows(s, b))));
        FinishKeepsRows(s, posted, b, BatchCompleted);
      }
    } else {
      SameRowsKept(s, Synthesize(s, b, retry, recoveryAt));
    }
  }

  lemma {:induction false} RunPickedKeepsRows(s: State)
    requires s.alarm.Picked?
    ensures RowsKept(s, RunPicked(s))
  {
    var Picked(id, retry, recoveryAt) := s.alarm;
    if retry >= MAX_BATCH_ATTEMPTS {
      FailKeepsRows(s, id.batch);
    } else if id.SynthesisJob? {
      SynthesizeKeepsRows(s, id.batch, retry, recoveryAt);
    } else {
      assert RowsKept(s, SweepTimeouts(s, id.batch));
    }
  }

  lemma {:induction false} RestartKeepsRows(s: State)
    ensures RowsKept(s, Restart(s))
  {
    var s1 := DeleteRetired(s.(alarm := AlarmIdle, pump := PumpIdle, processing := {}));
    assert RowsKept(s, s1);
    var s2 := FailInterrupted(s1);
    assert RowsKept(s, s2);
    var s3 := RecoverActive(DropFinishedRows(s2));
    assert RowsKept(s, s3);
  }

  lemma {:induction false} StepKeepsRows(s: State, e: Event)
    requires Enabled(s, e) && !e.EvSpawn? && !e.EvClaim?
    ensures RowsKept(s, Step(s, e))
  {
    match e
    case EvRunPicked => RunPickedKeepsRows(s);
    case EvRestart => RestartKeepsRows(s);
    case EvDispatchResults(accepted) => DispatchResultsKeepsRows(s, accepted);
    case EvCallback(t, status, result) => CallbackKeepsRows(s, t, status, result);
    case EvCancelTurn(c, request) => CancelKeepsRows(s, c, request);
    case EvWakeEnds(ok) => WakeEndsKeepsRows(s, ok);
    case _ => PlainStepKeepsRows(s, e);
  }

  lemma {:induction false} DispatchResultsKeepsRows(s: State, accepted: set<TaskId>)
    requires s.pump.AwaitingChildren?
    ensures RowsKept(s, DispatchResults(s, accepted))
  {
  }

  lemma {:induction false} CallbackKeepsRows(s: State, t: TaskId, status: TaskStatus, result: Option<string>)
    requires Enabled(s, EvCallback(t, status, result))
    ensures RowsKept(s, Step(s, EvCallback(t, status, result)))
  {
    assert RowsKept(s, Settle(s, t, status, result));
  }

  lemma {:induction false} CancelKeepsRows(s: State, c: ConversationId, request: Option<RequestId>)
    ensures RowsKept(s, CancelTurn(s, c, request))
  {
  }

  lemma {:induction false} WakeEndsKeepsRows(s: State, ok: bool)
    requires s.alarm.WakeRunning?
    ensures RowsKept(s, Step(s, EvWakeEnds(ok)))
  {
    assert RowsKept(s, Finish(s, s.alarm.batch, if ok then BatchCompleted else BatchFailed));
  }

  /** The remaining stretches do not look at task rows at all. */
  predicate SameRows(s: State, s1: State) {
    s1.tasks == s.tasks && s1.order == s.order && s1.cap == s.cap && s1.appended == s.appended
  }

  lemma {:induction false} HandlersKeepRows(s: State)
    ensures s.alarm.Handled? ==> SameRows(s, AfterJob(s))
    ensures s.alarm.Swept? ==> SameRows(s, DeadlineThrew(s))
    ensures forall id :: id in s.jobs ==> SameRows(s, Pick(s, id))
  {
  }

  lemma {:induction false} PlainAlarmRows(s: State, e: Event)
    requires Enabled(s, e) && (e.EvPick? || e.EvDeadlineCancelled? || e.EvDeadlineThrew? || e.EvDeadlineEnds? || e.EvAfterJob? || e.EvAlarmThrew?)
    ensures SameRows(s, Step(s, e))
  {
    HandlersKeepRows(s);
  }

  lemma {:induction false} PlainStepKeepsRows(s: State, e: Event)
    requires Enabled(s, e) && !e.EvSpawn? && !e.EvClaim? && !e.EvRunPicked? && !e.EvRestart?
    requires !e.EvDispatchResults? && !e.EvCallback? && !e.EvCancelTurn? && !e.EvWakeEnds?
    ensures RowsKept(s, Step(s, e))
  {
    if e.EvPick? || e.EvDeadlineCancelled? || e.EvDeadlineThrew? || e.EvDeadlineEnds? || e.EvAfterJob? || e.EvAlarmThrew? {
      PlainAlarmRows(s, e);
    }
    SameRowsKept(s, Step(s, e));
  }

  /** A row that is terminal keeps its status and result until it is deleted; its id is never used again. */
  ghost predicate Final(s: State, t: TaskId, status: TaskStatus, result: Option<string>) {
    && (exists b :: b in s.order && t in s.order[b])
    && (t in s.tasks ==> s.tasks[t].status == status && s.tasks[t].result == result)
  }

  lemma {:induction false} StepKeepsFinal(s: State, e: Event, t: TaskId, status: TaskStatus, result: Option<string>)
    requires Enabled(s, e) && Final(s, t, status, result) && status.Terminal()
    ensures Final(Step(s, e), t, status, result)
  {
    var s1 := Step(s, e);
    var b :| b in s.order && t in s.order[b];
    if e.EvSpawn? {
      assert s1.order[b] == s.order[b];
    } else if e.EvClaim? {
      assert t in s.tasks ==> t !in e.claims && t !in e.retry;
    } else {
      StepKeepsRows(s, e);
    }
    assert b in s1.order && t in s1.order[b];
  }

  lemma {:induction false} FinalOverRun(cap: nat, es: seq<Event>, more: seq<Event>, t: TaskId, status: TaskStatus, result: Option<string>)
    requires Final(Run(Init(cap), es), t, status, result) && status.Terminal()
    ensures Final(Run(Init(cap), es + more), t, status, result)
  {
    if more == [] {
      assert es + more == es;
    } else {
      var all := es + more;
      var last := |more| - 1;
      FinalOverRun(cap, es, more[..last], t, status, result);
      assert all[..|all| - 1] == es + more[..last];
      var s1 := Run(Init(cap), all[..|all| - 1]);
      if Enabled(s1, all[|all| - 1]) { StepKeepsFinal(s1, all[|all| - 1], t, status, result); }
    }
  }

  /** The history of inserted batch messages only grows. */
  lemma {:induction false} StepExtendsAppended(s: State, e: Event)
    requires Enabled(s, e)
    ensures s.appended <= Step(s, e).appended
  {
    if !e.EvSpawn? && !e.EvClaim? { StepKeepsRows(s, e); }
  }

  lemma {:induction false} RunExtendsAppended(cap: nat, es: seq<Event>, more: seq<Event>)
    ensures Run(Init(cap), es).appended <= Run(Init(cap), es + more).appended
  {
    if more == [] {
      assert es + more == es;
    } else {
      var all := es + more;
      RunExtendsAppended(cap, es, more[..|more| - 1]);
      assert all[..|all| - 1] == es + more[..|more| - 1];
      var s1 := Run(Init(cap), all[..|all| - 1]);
      if Enabled(s1, all[|all| - 1]) { StepExtendsAppended(s1, all[|all| - 1]); }
    }
  }

  lemma {:induction false} RowsAreOrder(s: State, b: BatchId)
    requires RowsAgree(s) && IsActive(s, b)
    ensures Rows(s, b) == s.order[b]
  {
  }

  lemma {:induction false} ExhaustedInFlight(s: State, retry: set<TaskId>)
    requires forall t :: t in retry ==> t in s.tasks
    ensures InFlightTasks(SettleExhausted(s, retry)) <= InFlightTasks(s)
  {
  }

  lemma {:induction false} ClaimedInFlight(s: State, retry: set<TaskId>, claims: set<TaskId>)
    requires s.pump.Claiming? && ClaimAllowed(s, retry, claims)
    ensures InFlightTasks(Claim(s, retry, claims)) <= InFlightTasks(SettleExhausted(s, retry)) + claims
  {
  }

  lemma {:induction false} ClaimStaysInCap(s: State, retry: set<TaskId>, claims: set<TaskId>)
    requires s.pump.Claiming? && ClaimAllowed(s, retry, claims) && |InFlightTasks(s)| <= s.cap
    ensures |InFlightTasks(Claim(s, retry, claims))| <= s.cap
  {
    var before := InFlightTasks(SettleExhausted(s, retry));
    ExhaustedInFlight(s, retry);
    SubsetSize(before, InFlightTasks(s));
    ClaimedInFlight(s, retry, claims);
    SubsetSize(InFlightTasks(Claim(s, retry, claims)), before + claims);
    if claims == {} { assert before + claims == before; }
  }

  lemma {:induction false} SpawnClaimsNothing(s: State, b: BatchId, ts: seq<TaskId>, origin: Origin, conversation: Option<ConversationId>, request: Option<RequestId>)
    ensures |InFlightTasks(Spawn(s, b, ts, origin, conversation, request))| <= |InFlightTasks(s)|
  {
    assert InFlightTasks(Spawn(s, b, ts, origin, conversation, request)) <= InFlightTasks(s);
    SubsetSize(InFlightTasks(Spawn(s, b, ts, origin, conversation, request)), InFlightTasks(s));
  }

  lemma {:induction false} KeptInFlight(s: State, s1: State)
    requires RowsKept(s, s1)
    ensures |InFlightTasks(s1)| <= |InFlightTasks(s)|
  {
    assert InFlightTasks(s1) <= InFlightTasks(s);
    SubsetSize(InFlightTasks(s1), InFlightTasks(s));
  }
}
