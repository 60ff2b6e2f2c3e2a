/** The coordinator's handlers as methods on its tables, each tied to the step it specifies. */
module SubagentCoordinator {
  import opened Prelude
  import opened SubagentBatches

  class Coordinator {
    const cap: nat
    var now: nat
    var batches: map<BatchId, Batch>
    var tasks: map<TaskId, Task>
    var order: map<BatchId, seq<TaskId>>
    var jobs: map<JobId, Job>
    var messages: map<BatchId, MessageRow>
    var appended: seq<(BatchId, Content)>
    var conversations: set<ConversationId>
    var processing: set<ConversationId>
    var cancellations: set<TaskId>
    var alarm: Alarm
    var pump: Pump

    function View(): State
      reads this
    {
      State(now, cap, batches, tasks, order, jobs, messages, appended, conversations, processing, cancellations, alarm, pump)
    }

    constructor (cap: nat)
      ensures View() == Init(cap)
    {
      this.cap := cap;
      now, batches, tasks, order, jobs := 0, map[], map[], map[], map[];
      messages, appended, conversations, processing, cancellations := map[], [], {}, {}, {};
      alarm, pump := AlarmIdle, PumpIdle;
    }

    method ScheduleJob(id: JobId, runAt: nat, retry: Option<nat>)
      modifies this`jobs
      ensures View() == Schedule(old(View()), id, runAt, retry)
    {
      jobs := jobs[id := Job(runAt, retry)];
    }

    method SettleTask(t: TaskId, status: TaskStatus, result: Option<string>) returns (settled: bool)
      modifies this`tasks
      ensures View() == Settle(old(View()), t, status, result)
      ensures settled <==> t in old(tasks) && !old(tasks)[t].status.Terminal()
    {
      settled := t in tasks && !tasks[t].status.Terminal();
      if settled {
        tasks := tasks[t := tasks[t].(status := status, result := result)];
      }
    }

    method ScheduleSynthesisIfSettled(b: BatchId)
      modifies this`jobs
      ensures View() == MaybeScheduleSynthesis(old(View()), b)
    {
      if b in batches && !batches[b].status.Active? { return; }
      var rows := TasksOf(View(), b);
      var settled := set t | t in rows && tasks[t].status.Terminal();
      if rows == {} || settled < rows {
        assert rows != {} ==> exists t :: t in rows && t !in settled;
        return;
      }
      assert settled == rows;
      assert forall t :: t in rows ==> t in settled;
      ScheduleJob(SynthesisJob(b), now, None);
    }

    /** handleSubagentResult: late and repeated callbacks change nothing. */
    method HandleResult(t: TaskId, status: TaskStatus, result: Option<string>) returns (settled: bool)
      requires Enabled(View(), EvCallback(t, status, result))
      modifies this
      ensures View() == Step(old(View()), EvCallback(t, status, result))
      ensures settled <==> t in old(tasks) && !old(tasks)[t].status.Terminal()
    {
      settled := false;
      if t in tasks {
        var b := tasks[t].batch;
        settled := SettleTask(t, status, result);
        if settled { ScheduleSynthesisIfSettled(b); }
      }
    }

    method FinishBatch(b: BatchId, status: BatchStatus)
      modifies this`batches, this`tasks, this`jobs
      ensures View() == Finish(old(View()), b, status)
    {
      if b in batches {
        batches := batches[b := batches[b].(status := status, finishedAt := Some(now))];
      }
      tasks := tasks - (set t | t in tasks && tasks[t].batch == b);
      jobs := jobs - {DeadlineJob(b)};
      jobs := jobs - {SynthesisJob(b)};
      assert old(jobs) - {DeadlineJob(b)} - {SynthesisJob(b)} == old(jobs) - {DeadlineJob(b), SynthesisJob(b)};
    }

    method Post(b: BatchId, content: Content)
      requires b in batches
      modifies this`messages, this`appended
      ensures View() == PostTo(old(View()), b, content)
    {
      if batches[b].conversation.Some? && batches[b].conversation.value in conversations {
        if b !in messages {
          messages := messages[b := MessageRow(batches[b].conversation.value, content)];
          appended := appended + [(b, content)];
        }
      }
    }

    method FailBatch(b: BatchId)
      modifies this
      ensures View() == Fail(old(View()), b)
    {
      if b !in batches || batches[b].status.Synthesizing? { return; }
      if !batches[b].status.Active? {
        FinishBatch(b, batches[b].status);
        return;
      }
      if batches[b].conversation.Some? && batches[b].conversation.value in processing {
        ScheduleJob(SynthesisJob(b), now + BATCH_RETRY_MS, Some(MAX_BATCH_ATTEMPTS));
        return;
      }
      if batches[b].conversation.Some? && b in messages && messages[b].conversation == batches[b].conversation.value {
        FinishBatch(b, BatchCompleted);
        return;
      }
      Post(b, CouldNotDeliver);
      FinishBatch(b, BatchFailed);
    }

    method RunBatchSynthesis(b: BatchId, retry: nat, recoveryAt: nat)
      modifies this
      ensures View() == Synthesize(old(View()), b, retry, recoveryAt)
    {
      if !AllSettled(View(), b) || b !in batches || batches[b].status.Synthesizing? {
        alarm := Handled(SynthesisJob(b), retry, recoveryAt);
      } else if !batches[b].status.Active? {
        FinishBatch(b, batches[b].status);
        alarm := Handled(SynthesisJob(b), retry, recoveryAt);
      } else if batches[b].origin.Wake? {
        batches := batches[b := batches[b].(status := Synthesizing)];
        alarm := WakeRunning(b, retry, recoveryAt);
      } else if Busy(View(), b) {
        ScheduleJob(SynthesisJob(b), now + 1000, None);
        alarm := Handled(SynthesisJob(b), retry, recoveryAt);
      } else {
        var rows := Rows(View(), b);
        var sections: seq<Section> := [];
        for i := 0 to |rows|
          invariant sections == Render(View(), rows)[..i]
        {
          sections := sections + [Section(rows[i], tasks[rows[i]].status, tasks[rows[i]].result)];
        }
        assert sections == Render(View(), rows);
        Post(b, Findings(sections));
        FinishBatch(b, BatchCompleted);
        alarm := Handled(SynthesisJob(b), retry, recoveryAt);
      }
    }

    method PickJob(id: JobId)
      requires Enabled(View(), EvPick(id))
      modifies this
      ensures View() == Step(old(View()), EvPick(id))
    {
      var retry := jobs[id].Retry();
      jobs := jobs - {id};
      ScheduleJob(id, now + BATCH_RETRY_MS, Some(retry + 1));
      alarm := Picked(id, retry, now + BATCH_RETRY_MS);
      assert jobs == old(jobs)[id := Job(now + BATCH_RETRY_MS, Some(retry + 1))];
    }

    method RunPickedJob()
      requires alarm.Picked?
      modifies this
      ensures View() == RunPicked(old(View()))
    {
      var Picked(id, retry, recoveryAt) := alarm;
      if retry >= MAX_BATCH_ATTEMPTS {
        FailBatch(id.batch);
        alarm := Handled(id, retry, recoveryAt);
      } else if id.DeadlineJob? {
        tasks := SweepTimeouts(View(), id.batch).tasks;
        ScheduleSynthesisIfSettled(id.batch);
        alarm := Swept(id.batch, retry, false);
      } else {
        RunBatchSynthesis(id.batch, retry, recoveryAt);
      }
    }

    method FinishJob()
      requires alarm.Handled?
      modifies this
      ensures View() == AfterJob(old(View()))
    {
      var Handled(id, retry, recoveryAt) := alarm;
      alarm := AlarmIdle;
      if id.SynthesisJob? && id in jobs && jobs[id].runAt == recoveryAt && jobs[id].retry == Some(retry + 1) {
        jobs := jobs - {id};
      }
    }

    method StopTask(t: TaskId)
      requires t in tasks
      modifies this`tasks, this`cancellations
      ensures View() == Settle(old(View()), t, Cancelled, None).(cancellations := cancellations)
      ensures OneRowStopped(old(tasks), tasks, t)
      ensures cancellations == old(cancellations) + if old(tasks)[t].status.InFlight() then {t} else {}
    {
      if tasks[t].status.InFlight() { cancellations := cancellations + {t}; }
      var _ := SettleTask(t, Cancelled, None);
    }

    /** The loop over the tasks of a batch in handleCancelTurn. */
    method StopAll(all: set<TaskId>)
      requires all <= tasks.Keys
      modifies this`tasks, this`cancellations
      ensures RowsStopped(old(tasks), tasks, all)
      ensures cancellations == old(cancellations) + InFlightAmong(old(tasks), all)
    {
      var rows := all;
      ghost var done: set<TaskId> := {};
      assert InFlightAmong(old(tasks), {}) == {};
      while rows != {}
        invariant done !! rows && done + rows == all <= tasks.Keys
        invariant RowsStopped(old(tasks), tasks, done)
        invariant cancellations == old(cancellations) + InFlightAmong(old(tasks), done)
        decreases rows
      {
        var t :| t in rows;
        ghost var before := tasks;
        StopTask(t);
        StopRow(old(tasks), before, tasks, done, t);
        rows, done := rows - {t}, done + {t};
      }
      assert done == all;
    }

    /** One batch of handleCancelTurn: a tombstone for every task in flight, then every task is settled. */
    method SettleRows(b: BatchId)
      modifies this`tasks, this`cancellations
      ensures View() == old(View()).(tasks := tasks, cancellations := cancellations)
      ensures RowsStopped(old(tasks), tasks, TasksOf(old(View()), b))
      ensures cancellations == old(cancellations) + InFlightAmong(old(tasks), TasksOf(old(View()), b))
    {
      StopAll(TasksOf(View(), b));
    }

    /** The batch loop of handleCancelTurn. */
    method StopBatches(c: ConversationId, request: Option<RequestId>)
      modifies this
      ensures View() == CancelTurn(old(View()), c, request)
    {
      var todo := CancelTargets(View(), c, request);
      ghost var s0, targets := View(), todo;
      assert CancelBatches(s0, targets - todo) == s0;
      while todo != {}
        invariant todo <= targets <= s0.batches.Keys
        invariant View() == CancelBatches(s0, targets - todo)
        decreases todo
      {
        var b :| b in todo;
        ghost var before := View();
        SettleRows(b);
        ghost var settled := View();
        FinishBatch(b, BatchCancelled);
        StopOne(s0, before, settled, View(), targets - todo, b);
        assert targets - (todo - {b}) == (targets - todo) + {b};
        todo := todo - {b};
      }
      assert targets - todo == targets;
    }

    /** recoverSubagentJobs: the loop that gives every active batch its missing job. */
    method EquipActive()
      requires forall b :: b in batches && batches[b].status.Active? && TasksOf(View(), b) != {} ==> Rows(View(), b) != []
      modifies this`jobs
      ensures View() == RecoverActive(old(View()))
    {
      var todo := Unequipped(View());
      ghost var s0 := View();
      assert jobs == Equipped(s0, Unequipped(s0) - todo);
      while todo != {}
        invariant todo <= Unequipped(s0)
        invariant View() == s0.(jobs := jobs)
        invariant jobs == Equipped(s0, Unequipped(s0) - todo)
        decreases todo
      {
        var b :| b in todo;
        ghost var done := Unequipped(s0) - todo;
        EquipOne(s0, done, b);
        if AllSettled(View(), b) {
          ScheduleJob(SynthesisJob(b), now, None);
        } else {
          var first := tasks[Rows(View(), b)[0]];
          ScheduleJob(DeadlineJob(b), if first.deadline > now then first.deadline else now, None);
        }
        assert Unequipped(s0) - (todo - {b}) == done + {b};
        todo := todo - {b};
      }
      assert Unequipped(s0) - todo == Unequipped(s0);
    }
  }

  ghost function InFlightAmong(tasks: map<TaskId, Task>, ts: set<TaskId>): set<TaskId> {
    set t | t in ts && t in tasks && tasks[t].status.InFlight()
  }

  /** Exactly the rows in `stopped` were settled; the others kept their values. */
  ghost predicate RowsStopped(was: map<TaskId, Task>, tasks: map<TaskId, Task>, stopped: set<TaskId>) {
    && tasks.Keys == was.Keys
    && (forall t :: t in tasks ==> tasks[t].batch == was[t].batch)
    && (forall t :: t in tasks && t !in stopped ==> tasks[t] == was[t])
    && (forall t :: t in tasks && t in stopped ==> tasks[t].status.Terminal())
  }

  /** Row `t` is settled and every other row is as it was. */
  ghost predicate OneRowStopped(before: map<TaskId, Task>, after: map<TaskId, Task>, t: TaskId) {
    && t in before && after.Keys == before.Keys && after[t].status.Terminal() && after[t].batch == before[t].batch
    && forall x :: x in before && x != t ==> after[x] == before[x]
  }

  lemma {:induction false} StopRow(was: map<TaskId, Task>, before: map<TaskId, Task>, after: map<TaskId, Task>, done: set<TaskId>, t: TaskId)
    requires RowsStopped(was, before, done) && OneRowStopped(before, after, t) && t !in done
    ensures RowsStopped(was, after, done + {t})
    ensures InFlightAmong(was, done + {t}) == InFlightAmong(was, done) + if was[t].status.InFlight() then {t} else {}
  {
    var grown := InFlightAmong(was, done) + if was[t].status.InFlight() then {t} else {};
    assert forall x :: x in InFlightAmong(was, done + {t}) <==> x in grown;
  }

  /** The job table once the batches in `bs` have been given their recovery job. */
  ghost function Equipped(s: State, bs: set<BatchId>): map<JobId, Job> {
    map id | id in s.jobs.Keys + (set b | b in bs :: RecoveryJob(s, b)) ::
      if id in s.jobs then s.jobs[id] else Job(RecoveryRunAt(s, id), None)
  }

  lemma {:induction false} EquipOne(s0: State, done: set<BatchId>, b: BatchId)
    requires b in Unequipped(s0)
    ensures Equipped(s0, done)[RecoveryJob(s0, b) := Job(RecoveryRunAt(s0, RecoveryJob(s0, b)), None)] == Equipped(s0, done + {b})
    ensures forall jobs :: var s := s0.(jobs := jobs); AllSettled(s, b) == AllSettled(s0, b) && Rows(s, b) == Rows(s0, b)
  {
    forall jobs ensures var s := s0.(jobs := jobs); AllSettled(s, b) == AllSettled(s0, b) && Rows(s, b) == Rows(s0, b) {
      assert TasksOf(s0.(jobs := jobs), b) == TasksOf(s0, b);
    }
    assert (set x | x in done + {b} :: RecoveryJob(s0, x)) == (set x | x in done :: RecoveryJob(s0, x)) + {RecoveryJob(s0, b)};
  }

  lemma {:induction false} StopOneTasks(s0: State, before: State, settled: State, after: State, done: set<BatchId>, b: BatchId)
    requires before == CancelBatches(s0, done) && RowsStopped(before.tasks, settled.tasks, TasksOf(before, b))
    requires settled == before.(tasks := settled.tasks, cancellations := settled.cancellations)
    requires after == Finish(settled, b, BatchCancelled)
    ensures after.tasks == CancelBatches(s0, done + {b}).tasks
  {
  }

  lemma {:induction false} StopOneCancellations(s0: State, before: State, settled: State, done: set<BatchId>, b: BatchId)
    requires before == CancelBatches(s0, done) && b !in done
    requires settled.cancellations == before.cancellations + InFlightAmong(before.tasks, TasksOf(before, b))
    ensures settled.cancellations == CancelBatches(s0, done + {b}).cancellations
  {
  }

  lemma {:induction false} StopOne(s0: State, before: State, settled: State, after: State, done: set<BatchId>, b: BatchId)
    requires before == CancelBatches(s0, done) && b !in done && b in s0.batches
    requires settled == before.(tasks := settled.tasks, cancellations := settled.cancellations)
    requires RowsStopped(before.tasks, settled.tasks, TasksOf(before, b))
    requires settled.cancellations == before.cancellations + InFlightAmong(before.tasks, TasksOf(before, b))
    requires after == Finish(settled, b, BatchCancelled)
    ensures after == CancelBatches(s0, done + {b})
  {
    var goal := CancelBatches(s0, done + {b});
    StopOneTasks(s0, before, settled, after, done, b);
    assert after.batches == goal.batches;
    assert after.jobs == goal.jobs;
    StopOneCancellations(s0, before, settled, done, b);
  }
}
