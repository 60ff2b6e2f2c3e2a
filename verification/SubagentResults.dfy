/** Where the results of tasks and the sections of posted findings come from. */
module SubagentResults {
  import opened Prelude
  import opened SubagentBatches
  import opened SubagentBatchProofs
  import SubagentTheorems

  /** What a child reported about its task. */
  datatype Report = Report(status: TaskStatus, result: Option<string>)

  /** The first callback for the task that found it still open; history alone, whatever was stored. */
  ghost function FirstReport(cap: nat, es: seq<Event>, t: TaskId): Option<Report> {
    if es == [] then None
    else
      var before := FirstReport(cap, es[..|es| - 1], t);
      if before.Some? then before else Reported(Run(Init(cap), es[..|es| - 1]), es[|es| - 1], t)
  }

  predicate OpenTask(s: State, t: TaskId) {
    t in s.tasks && (s.tasks[t].status.Queued? || s.tasks[t].status.Dispatched? || s.tasks[t].status.Running?)
  }

  function Reported(s: State, e: Event, t: TaskId): Option<Report> {
    if e.EvCallback? && e.task == t && Enabled(s, e) && OpenTask(s, t) then Some(Report(e.status, e.result)) else None
  }

  /** A task holds the report it got; without one it has no result and can only have run out of time or of attempts. */
  predicate Explained(report: Option<Report>, status: TaskStatus, result: Option<string>) {
    if report.Some? then status == report.value.status && result == report.value.result
    else result.None? && !status.Done? && !status.Cancelled?
  }

  /** Why a task without a report is settled. */
  predicate GivenUp(row: Task, now: nat) {
    && (row.status.Timeout? ==> row.deadline <= now)
    && (row.status.Failed? ==> row.attempt >= MAX_DISPATCH_ATTEMPTS)
  }

  // ---------------------------------------------------------------- one step

  /** What a stretch other than a report may do to a row. */
  predicate RowDrifts(a: Task, b: Task, now: nat) {
    && b.batch == a.batch && b.deadline == a.deadline && a.attempt <= b.attempt
    && (if a.status.Terminal() then b.status == a.status && b.result == a.result
        else b.result == (if b.status.Terminal() then None else a.result) && !b.status.Done? && !b.status.Cancelled?
             && GivenUp(b, now))
  }

  predicate Known(s: State, t: TaskId) { exists b :: b in s.order && t in s.order[b] }

  /** The pump knows the attempt it is making of each task. */
  ghost predicate AttemptsCounted(s: State) {
    s.pump.AwaitingChildren? ==>
      forall t :: t in s.pump.claimed ==> Known(s, t) && (t in s.tasks ==> s.pump.claimed[t] + 1 <= s.tasks[t].attempt)
  }

  ghost predicate Drifts(s: State, u: State) {
    forall t :: t in u.tasks ==> t in s.tasks && RowDrifts(s.tasks[t], u.tasks[t], u.now)
  }

  lemma {:induction false} FewerDrift(s: State, u: State)
    requires forall t :: t in u.tasks ==> t in s.tasks && u.tasks[t] == s.tasks[t]
    ensures Drifts(s, u)
  {
  }

  lemma {:induction false} SweepDrifts(s: State, b: BatchId)
    ensures Drifts(s, SweepTimeouts(s, b))
  {
  }

  lemma {:induction false} ExhaustedRow(s: State, retry: set<TaskId>, t: TaskId)
    requires (forall x :: x in retry ==> x in s.tasks) && t in s.tasks
    ensures var s1 := SettleExhausted(s, retry);
      t in s1.tasks && RowDrifts(s.tasks[t], s1.tasks[t], s.now) && s1.tasks[t].attempt == s.tasks[t].attempt
    ensures t !in Exhausted(s, retry) ==> SettleExhausted(s, retry).tasks[t] == s.tasks[t]
  {
  }

  lemma {:induction false} ClaimedRowIs(s: State, retry: set<TaskId>, claims: set<TaskId>, t: TaskId)
    requires s.pump.Claiming? && ClaimAllowed(s, retry, claims) && t in s.tasks
    ensures var u, s1 := Claim(s, retry, claims), SettleExhausted(s, retry);
      && t in u.tasks && t in s1.tasks
      && (if t in (retry - Exhausted(s, retry)) + claims
          then u.tasks[t] == s1.tasks[t].(status := Dispatched, attempt := s1.tasks[t].attempt + 1, startedAt := Some(s.now))
               && u.pump.AwaitingChildren? && t in u.pump.claimed && u.pump.claimed[t] == s.tasks[t].attempt
          else u.tasks[t] == s1.tasks[t] && (u.pump.AwaitingChildren? ==> t !in u.pump.claimed))
  {
  }

  lemma {:induction false} ClaimedRow(s: State, retry: set<TaskId>, claims: set<TaskId>, t: TaskId)
    requires s.pump.Claiming? && ClaimAllowed(s, retry, claims) && t in s.tasks
    ensures var u := Claim(s, retry, claims);
      && t in u.tasks && RowDrifts(s.tasks[t], u.tasks[t], s.now)
      && (u.pump.AwaitingChildren? && t in u.pump.claimed ==> u.tasks[t].attempt == u.pump.claimed[t] + 1)
  {
    ExhaustedRow(s, retry, t);
    ClaimedRowIs(s, retry, claims, t);
    if t in claims { assert t !in Exhausted(s, retry); }
  }

  lemma {:induction false} ClaimKeys(s: State, retry: set<TaskId>, claims: set<TaskId>)
    requires s.pump.Claiming? && ClaimAllowed(s, retry, claims)
    ensures var u := Claim(s, retry, claims);
      && u.tasks.Keys == s.tasks.Keys && u.order == s.order && u.now == s.now
      && (u.pump.AwaitingChildren? ==> u.pump.claimed.Keys <= s.tasks.Keys)
  {
  }

  lemma {:induction false} ClaimDrifts(s: State, retry: set<TaskId>, claims: set<TaskId>)
    requires s.pump.Claiming? && ClaimAllowed(s, retry, claims) && RowsAgree(s)
    ensures Drifts(s, Claim(s, retry, claims)) && AttemptsCounted(Claim(s, retry, claims))
  {
    var u := Claim(s, retry, claims);
    ClaimKeys(s, retry, claims);
    forall t | t in s.tasks
      ensures RowDrifts(s.tasks[t], u.tasks[t], s.now) && Known(u, t)
      ensures u.pump.AwaitingChildren? && t in u.pump.claimed ==> u.tasks[t].attempt == u.pump.claimed[t] + 1
    {
      ClaimedRow(s, retry, claims, t);
      assert t in u.order[s.tasks[t].batch];
    }
  }

  lemma {:induction false} DispatchDrifts(s: State, accepted: set<TaskId>)
    requires s.pump.AwaitingChildren? && AttemptsCounted(s)
    ensures Drifts(s, DispatchResults(s, accepted))
  {
  }

  lemma {:induction false} FailDrifts(s: State, b: BatchId)
    ensures Drifts(s, Fail(s, b))
  {
    if b in s.batches { PostToGrows(s, b, CouldNotDeliver); }
    FewerDrift(s, Fail(s, b));
  }

  lemma {:induction false} SynthesizeFewer(s: State, b: BatchId, retry: nat, recoveryAt: nat)
    ensures Drifts(s, Synthesize(s, b, retry, recoveryAt))
  {
    if b in s.batches { PostToGrows(s, b, Findings(Render(s, Rows(s, b)))); }
    FewerDrift(s, Synthesize(s, b, retry, recoveryAt));
  }

  lemma {:induction false} RunPickedDrifts(s: State)
    requires s.alarm.Picked?
    ensures Drifts(s, RunPicked(s))
  {
    if s.alarm.retry >= MAX_BATCH_ATTEMPTS {
      FailDrifts(s, s.alarm.id.batch);
    } else if s.alarm.id.SynthesisJob? {
      SynthesizeFewer(s, s.alarm.id.batch, s.alarm.retry, s.alarm.recoveryAt);
    } else {
      SweepDrifts(s, s.alarm.id.batch);
    }
  }

  lemma {:induction false} RestartDrifts(s: State)
    ensures Drifts(s, Restart(s))
  {
    var s1 := DropFinishedRows(FailInterrupted(DeleteRetired(s.(alarm := AlarmIdle, pump := PumpIdle, processing := {}))));
    FewerDrift(s, s1);
    assert Restart(s) == ForgetDispatchTimes(RecoverActive(s1));
  }

  lemma {:induction false} OthersDrift(s: State, e: Event)
    requires Enabled(s, e) && !e.EvSpawn? && !e.EvCallback? && !e.EvRunPicked? && !e.EvRestart? && !e.EvClaim? && !e.EvDispatchResults?
    ensures Drifts(s, Step(s, e))
  {
    FewerDrift(s, Step(s, e));
  }

  lemma {:induction false} StepDrifts(s: State, e: Event)
    requires Enabled(s, e) && !e.EvSpawn? && !e.EvCallback? && RowsAgree(s) && AttemptsCounted(s)
    ensures Drifts(s, Step(s, e))
  {
    if e.EvRunPicked? {
      RunPickedDrifts(s);
    } else if e.EvRestart? {
      RestartDrifts(s);
    } else if e.EvClaim? {
      ClaimDrifts(s, e.retry, e.claims);
    } else if e.EvDispatchResults? {
      DispatchDrifts(s, e.accepted);
    } else {
      OthersDrift(s, e);
    }
  }

  /** A callback that finds its task open writes its status and result there; any other changes nothing. No other
      row, nothing else of the row, no batch and no message is touched. */
  lemma {:induction false} CallbackSettlesItsTask(s: State, e: Event)
    requires e.EvCallback? && Enabled(s, e)
    ensures var u := Step(s, e);
      && (!OpenTask(s, e.task) ==> u == s)
      && u.tasks.Keys == s.tasks.Keys
      && (forall t :: t in s.tasks && (t != e.task || !OpenTask(s, t)) ==> u.tasks[t] == s.tasks[t])
      && (OpenTask(s, e.task) ==>
            && u.tasks[e.task].status == e.status && u.tasks[e.task].result == e.result
            && u.tasks[e.task].batch == s.tasks[e.task].batch && u.tasks[e.task].attempt == s.tasks[e.task].attempt
            && u.tasks[e.task].startedAt == s.tasks[e.task].startedAt && u.tasks[e.task].deadline == s.tasks[e.task].deadline)
      && u.batches == s.batches && u.order == s.order && u.messages == s.messages && u.appended == s.appended
      && u.cancellations == s.cancellations && u.pump == s.pump && u.alarm == s.alarm && u.now == s.now
  {
  }

  lemma {:induction false} SpawnedRows(s: State, e: Event)
    requires e.EvSpawn? && Enabled(s, e)
    ensures var u := Step(s, e);
      && (forall t :: t in u.tasks ==>
            if t in e.tasks then u.tasks[t] == Task(e.batch, Queued, None, 0, None, s.now + SUBAGENT_BATCH_TIMEOUT_MS)
            else t in s.tasks && u.tasks[t] == s.tasks[t])
      && (forall t :: t in e.tasks ==> t in u.tasks)
      && (forall b :: b in s.order ==> b in u.order && u.order[b] == s.order[b])
  {
  }

  lemma {:induction false} OrderGrows(s: State, e: Event, t: TaskId)
    requires Enabled(s, e) && Known(s, t)
    ensures Known(Step(s, e), t)
  {
    var b :| b in s.order && t in s.order[b];
    if e.EvSpawn? {
      SpawnedRows(s, e);
    } else if e.EvClaim? {
      ClaimKeys(s, e.retry, e.claims);
    } else {
      StepKeepsRows(s, e);
    }
    assert b in Step(s, e).order && t in Step(s, e).order[b];
  }

  lemma {:induction false} RunPickedFrame(s: State)
    requires s.alarm.Picked?
    ensures RunPicked(s).pump == s.pump && RunPicked(s).now == s.now
  {
    var b := s.alarm.id.batch;
    if s.alarm.retry >= MAX_BATCH_ATTEMPTS {
      FailIs(s, b);
    }
  }

  lemma {:induction false} PumpStands(s: State, e: Event)
    requires Enabled(s, e) && Step(s, e).pump.AwaitingChildren? && !e.EvClaim?
    ensures Step(s, e).pump == s.pump
  {
    if e.EvRunPicked? { RunPickedFrame(s); }
  }

  lemma {:induction false} TimeGrows(s: State, e: Event)
    requires Enabled(s, e)
    ensures s.now <= Step(s, e).now
  {
    if e.EvRunPicked? {
      RunPickedFrame(s);
    } else if e.EvCallback? {
      CallbackSettlesItsTask(s, e);
    } else if e.EvClaim? {
      ClaimKeys(s, e.retry, e.claims);
    }
  }

  /** The row is known and moves as a report, a drift or not at all. */
  predicate RowSteps(s: State, e: Event, u: State, t: TaskId) {
    t in u.tasks ==>
      if e.EvSpawn? && t in e.tasks then u.tasks[t].status.Queued? && u.tasks[t].result.None?
      else
        && t in s.tasks && s.tasks[t].attempt <= u.tasks[t].attempt
        && (if e.EvCallback? && e.task == t && OpenTask(s, t) then u.tasks[t].status == e.status && u.tasks[t].result == e.result
            else RowDrifts(s.tasks[t], u.tasks[t], u.now))
  }

  lemma {:induction false} SpawnRowSteps(s: State, e: Event, u: State, t: TaskId)
    requires e.EvSpawn? && Enabled(s, e) && u == Step(s, e)
    ensures RowSteps(s, e, u, t)
  {
    SpawnedRows(s, e);
  }

  lemma {:induction false} CallbackRowSteps(s: State, e: Event, u: State, t: TaskId)
    requires e.EvCallback? && Enabled(s, e) && u == Step(s, e)
    ensures RowSteps(s, e, u, t)
  {
    CallbackSettlesItsTask(s, e);
  }

  lemma {:induction false} EveryRowSteps(s: State, e: Event, u: State, t: TaskId)
    requires Enabled(s, e) && RowsAgree(s) && AttemptsCounted(s) && u == Step(s, e)
    ensures RowSteps(s, e, u, t)
  {
    if e.EvSpawn? {
      SpawnRowSteps(s, e, u, t);
    } else if e.EvCallback? {
      CallbackRowSteps(s, e, u, t);
    } else {
      StepDrifts(s, e);
    }
  }

  lemma {:induction false} AttemptsStayCounted(s: State, e: Event)
    requires Enabled(s, e) && RowsAgree(s) && AttemptsCounted(s)
    ensures AttemptsCounted(Step(s, e))
  {
    var u := Step(s, e);
    if e.EvClaim? {
      ClaimDrifts(s, e.retry, e.claims);
    } else if u.pump.AwaitingChildren? {
      PumpStands(s, e);
      forall t | t in u.pump.claimed ensures Known(u, t) && (t in u.tasks ==> u.pump.claimed[t] + 1 <= u.tasks[t].attempt) {
        OrderGrows(s, e, t);
        EveryRowSteps(s, e, u, t);
      }
    }
  }

  lemma {:induction false} RunCountsAttempts(cap: nat, es: seq<Event>)
    ensures AttemptsCounted(Run(Init(cap), es))
  {
    if es != [] {
      RunCountsAttempts(cap, es[..|es| - 1]);
      RunKeepsInv(cap, es[..|es| - 1]);
      var s := Run(Init(cap), es[..|es| - 1]);
      if Enabled(s, es[|es| - 1]) { AttemptsStayCounted(s, es[|es| - 1]); }
    }
  }

  // ---------------------------------------------------------------- main theorems

  /** A report names a task that was spawned, and one of the three ways in which a child ends. */
  predicate Answers(s: State, t: TaskId, report: Option<Report>) {
    report.Some? ==> Known(s, t) && (report.value.status.Done? || report.value.status.Failed? || report.value.status.Cancelled?)
  }

  predicate HoldsReport(s: State, t: TaskId, report: Option<Report>) {
    t in s.tasks ==> Explained(report, s.tasks[t].status, s.tasks[t].result) && (report.None? ==> GivenUp(s.tasks[t], s.now))
  }

  lemma {:induction false} RowHolds(a: Task, b: Task, now: nat, later: nat, report: Option<Report>)
    requires RowDrifts(a, b, later) && now <= later
    requires Explained(report, a.status, a.result) && (report.None? ==> GivenUp(a, now))
    requires report.Some? ==> a.status.Terminal()
    ensures Explained(report, b.status, b.result) && (report.None? ==> GivenUp(b, later))
  {
  }

  lemma {:induction false} StepAnswers(s: State, e: Event, t: TaskId, report: Option<Report>)
    requires Enabled(s, e) && RowsAgree(s) && Answers(s, t, report)
    ensures Answers(Step(s, e), t, if report.Some? then report else Reported(s, e, t))
  {
    if report.None? && Reported(s, e, t).Some? { assert t in s.order[s.tasks[t].batch]; }
    if report.Some? || Reported(s, e, t).Some? { OrderGrows(s, e, t); }
  }

  lemma {:induction false} SteppedRowHolds(s: State, e: Event, u: State, t: TaskId, report: Option<Report>)
    requires Answers(s, t, report) && HoldsReport(s, t, report) && RowSteps(s, e, u, t) && s.now <= u.now
    requires e.EvSpawn? && t in e.tasks ==> report.None?
    requires e.EvCallback? ==> Enabled(s, e)
    ensures HoldsReport(u, t, if report.Some? then report else Reported(s, e, t))
  {
    if t in u.tasks && !(e.EvSpawn? && t in e.tasks) && !(e.EvCallback? && e.task == t && OpenTask(s, t)) {
      RowHolds(s.tasks[t], u.tasks[t], s.now, u.now, report);
    }
  }

  lemma {:induction false} StepHoldsReport(s: State, e: Event, t: TaskId, report: Option<Report>)
    requires Enabled(s, e) && RowsAgree(s) && AttemptsCounted(s) && Answers(s, t, report) && HoldsReport(s, t, report)
    ensures HoldsReport(Step(s, e), t, if report.Some? then report else Reported(s, e, t))
  {
    var u := Step(s, e);
    EveryRowSteps(s, e, u, t);
    TimeGrows(s, e);
    if e.EvSpawn? && t in e.tasks { SpawnIsUnknown(s, e, t); }
    SteppedRowHolds(s, e, u, t, report);
  }

  lemma {:induction false} SpawnIsUnknown(s: State, e: Event, t: TaskId)
    requires e.EvSpawn? && Enabled(s, e) && t in e.tasks
    ensures !Known(s, t)
  {
  }

  /** In every run a task holds exactly the status and result of the first callback that found it open; without
      one it has no result, and it is settled only as timed out after its deadline or failed after its attempts. */
  lemma {:induction false} TasksHoldTheirReports(cap: nat, es: seq<Event>, t: TaskId)
    ensures Answers(Run(Init(cap), es), t, FirstReport(cap, es, t))
    ensures HoldsReport(Run(Init(cap), es), t, FirstReport(cap, es, t))
  {
    if es != [] {
      var init, e := es[..|es| - 1], es[|es| - 1];
      TasksHoldTheirReports(cap, init, t);
      RunKeepsInv(cap, init);
      RunCountsAttempts(cap, init);
      var s := Run(Init(cap), init);
      if Enabled(s, e) {
        StepAnswers(s, e, t, FirstReport(cap, init, t));
        StepHoldsReport(s, e, t, FirstReport(cap, init, t));
      }
    }
  }

  /** The section repeats its task's report, and the task can get no other. */
  ghost predicate Quotes(s: State, section: Section, report: Option<Report>) {
    && Explained(report, section.status, section.result)
    && section.status.Terminal() && Final(s, section.task, section.status, section.result)
  }

  lemma {:induction false} QuotesStay(s: State, e: Event, section: Section, report: Option<Report>)
    requires Enabled(s, e) && Quotes(s, section, report)
    ensures Reported(s, e, section.task).None? && Quotes(Step(s, e), section, report)
  {
    StepKeepsFinal(s, e, section.task, section.status, section.result);
  }

  ghost predicate AllQuote(cap: nat, es: seq<Event>, content: Content) {
    content.Findings? ==>
      forall k :: 0 <= k < |content.sections| ==>
        Quotes(Run(Init(cap), es), content.sections[k], FirstReport(cap, es, content.sections[k].task))
  }

  lemma {:induction false} NewFindingsQuote(cap: nat, es: seq<Event>, i: nat)
    requires es != [] && i < |Run(Init(cap), es).appended| && Run(Init(cap), es).appended[i].1.Findings?
    requires var s := Run(Init(cap), es[..|es| - 1]); Enabled(s, es[|es| - 1]) && |s.appended| <= i
    ensures AllQuote(cap, es, Run(Init(cap), es).appended[i].1)
  {
    var init, e := es[..|es| - 1], es[|es| - 1];
    var s := Run(Init(cap), init);
    var added := Step(s, e).appended[i];
    SubagentTheorems.FindingsMatchTheLedger(cap, init, e, i);
    forall k | 0 <= k < |added.1.sections|
      ensures Quotes(Step(s, e), added.1.sections[k], FirstReport(cap, es, added.1.sections[k].task))
    {
      var t := s.order[added.0][k];
      TasksHoldTheirReports(cap, init, t);
      assert Final(s, t, s.tasks[t].status, s.tasks[t].result);
      QuotesStay(s, e, added.1.sections[k], FirstReport(cap, init, t));
    }
  }

  /** Every section of every findings message ever posted quotes the first callback of its task. */
  lemma {:induction false} FindingsQuoteTheReports(cap: nat, es: seq<Event>, i: nat)
    requires i < |Run(Init(cap), es).appended|
    ensures AllQuote(cap, es, Run(Init(cap), es).appended[i].1)
  {
    if es != [] {
      var init, e := es[..|es| - 1], es[|es| - 1];
      var s := Run(Init(cap), init);
      var content := Run(Init(cap), es).appended[i].1;
      if content.Findings? {
        if Enabled(s, e) && |s.appended| <= i {
          NewFindingsQuote(cap, es, i);
        } else {
          FindingsQuoteTheReports(cap, init, i);
          if Enabled(s, e) { StepExtendsAppended(s, e); }
          assert content == s.appended[i].1;
          forall k | 0 <= k < |content.sections|
            ensures Quotes(Run(Init(cap), es), content.sections[k], FirstReport(cap, es, content.sections[k].task))
          {
            if Enabled(s, e) { QuotesStay(s, e, content.sections[k], FirstReport(cap, init, content.sections[k].task)); }
          }
        }
      }
    }
  }
}
