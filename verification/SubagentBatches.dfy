/**
  The coordinator half of the research-subagent runtime: spawning a batch, dispatching its
  tasks, settling callbacks, the deadline and synthesis jobs, cancellation and recovery.

  One `Event` is one stretch of code between two awaits. A crash may come between any two
  events; it loses `alarm` and `pump`, which are the local variables of running handlers.
*/
module SubagentBatches {
  import opened Prelude

  const BATCH_RETRY_MS: nat := 30_000
  const MAX_BATCH_ATTEMPTS: nat := 5
  const SUBAGENT_BATCH_TIMEOUT_MS: nat := 300_000
  const DEADLINE_RETRY_MS: nat := 60_000
  const DEADLINE_MAX_RETRIES: nat := 3
  const MAX_DISPATCH_ATTEMPTS: nat := 3
  const DISPATCH_PUMP_LIMIT: nat := 25
  const BATCH_RETENTION_MS: nat := 86_400_000

  type BatchId = nat
  type TaskId = nat
  type ConversationId = nat
  type RequestId = nat

  datatype TaskStatus = Queued | Dispatched | Running | Done | Failed | Timeout | Cancelled {
    predicate Terminal() { !Queued? && !InFlight() }
    predicate InFlight() { Dispatched? || Running? }
  }

  datatype Task = Task(batch: BatchId, status: TaskStatus, result: Option<string>,
                       attempt: nat, startedAt: Option<nat>, deadline: nat)

  datatype Origin = Chat | Wake
  datatype BatchStatus = Active | Synthesizing | BatchCompleted | BatchCancelled | BatchFailed

  datatype Batch = Batch(origin: Origin, conversation: Option<ConversationId>, request: Option<RequestId>,
                         status: BatchStatus, finishedAt: Option<nat>) {
    predicate Open() { status.Active? || status.Synthesizing? }
  }

  /** The two job rows a batch can own. The id determines the kind. */
  datatype JobId = DeadlineJob(batch: BatchId) | SynthesisJob(batch: BatchId)

  /** `retry` is absent from the payload of a freshly scheduled job. */
  datatype Job = Job(runAt: nat, retry: Option<nat>) {
    function Retry(): nat { retry.GetOr(0) }
  }

  datatype Section = Section(task: TaskId, status: TaskStatus, result: Option<string>)
  datatype Content = Findings(sections: seq<Section>) | CouldNotDeliver
  datatype MessageRow = MessageRow(conversation: ConversationId, content: Content)

  /** Where the (never overlapping) alarm handler of this object stands. */
  datatype Alarm =
    | AlarmIdle
    | Picked(id: JobId, retry: nat, recoveryAt: nat)
    | Swept(batch: BatchId, retry: nat, deadlineCancelled: bool)
    | WakeRunning(batch: BatchId, retry: nat, recoveryAt: nat)
    | Handled(id: JobId, retry: nat, recoveryAt: nat)

  /** Where the dispatch pump stands; anything but `PumpIdle` is the `dispatching` flag. */
  datatype Pump =
    | PumpIdle
    | Claiming(touched: set<BatchId>)
    | AwaitingChildren(claimed: map<TaskId, nat>, touched: set<BatchId>)
    | Touching(touched: set<BatchId>)

  datatype State = State(
    now: nat,
    cap: nat,
    batches: map<BatchId, Batch>,
    tasks: map<TaskId, Task>,
    order: map<BatchId, seq<TaskId>>,      // insertion order of a batch's rows; kept after deletion as history
    jobs: map<JobId, Job>,
    messages: map<BatchId, MessageRow>,    // the rows whose id is batch_<id>
    appended: seq<(BatchId, Content)>,     // history: every such row ever inserted
    conversations: set<ConversationId>,
    processing: set<ConversationId>,
    cancellations: set<TaskId>,
    alarm: Alarm,
    pump: Pump)

  function Init(cap: nat): State {
    State(0, cap, map[], map[], map[], map[], map[], [], {}, {}, {}, AlarmIdle, PumpIdle)
  }

  // ---------------------------------------------------------------- ledger

  function TasksOf(s: State, b: BatchId): set<TaskId> {
    set t | t in s.tasks && s.tasks[t].batch == b
  }

  /** `total > 0` and `settled == total` of batchState. */
  predicate AllSettled(s: State, b: BatchId) {
    TasksOf(s, b) != {} && forall t :: t in TasksOf(s, b) ==> s.tasks[t].status.Terminal()
  }

  function InFlightTasks(s: State): set<TaskId> {
    set t | t in s.tasks && s.tasks[t].status.InFlight()
  }

  /** Compare-and-swap: only a row that is not terminal yet moves. */
  function Settle(s: State, t: TaskId, status: TaskStatus, result: Option<string>): State {
    if t in s.tasks && !s.tasks[t].status.Terminal()
    then s.(tasks := s.tasks[t := s.tasks[t].(status := status, result := result)])
    else s
  }

  function SettleAll(s: State, ts: set<TaskId>, status: TaskStatus): State {
    s.(tasks := map t | t in s.tasks ::
      if t in ts && !s.tasks[t].status.Terminal()
      then s.tasks[t].(status := status, result := None) else s.tasks[t])
  }

  function SweepTimeouts(s: State, b: BatchId): State {
    SettleAll(s, (set t | t in TasksOf(s, b) && s.tasks[t].deadline <= s.now), Timeout)
  }

  function Schedule(s: State, id: JobId, runAt: nat, retry: Option<nat>): State {
    s.(jobs := s.jobs[id := Job(runAt, retry)])
  }

  // ---------------------------------------------------------------- handlers

  predicate IsActive(s: State, b: BatchId) {
    b in s.batches && s.batches[b].status.Active?
  }

  /** spawnSubagentBatch: one transaction. */
  function Spawn(s: State, b: BatchId, ts: seq<TaskId>, origin: Origin, conversation: Option<ConversationId>,
                 request: Option<RequestId>): State {
    var deadline := s.now + SUBAGENT_BATCH_TIMEOUT_MS;
    s.(batches := s.batches[b := Batch(origin, conversation, request, Active, None)],
       tasks := map t | t in s.tasks.Keys + (set x | x in ts) ::
         if t in ts then Task(b, Queued, None, 0, None, deadline) else s.tasks[t],
       order := s.order[b := ts],
       jobs := s.jobs[DeadlineJob(b) := Job(deadline, None)])
  }

  function MaybeScheduleSynthesis(s: State, b: BatchId): State {
    if b in s.batches && !s.batches[b].status.Active? then s
    else if !AllSettled(s, b) then s
    else Schedule(s, SynthesisJob(b), s.now, None)
  }

  function Finish(s: State, b: BatchId, status: BatchStatus): State {
    s.(batches := if b in s.batches
                  then s.batches[b := s.batches[b].(status := status, finishedAt := Some(s.now))] else s.batches,
       tasks := s.tasks - TasksOf(s, b),
       jobs := s.jobs - {DeadlineJob(b), SynthesisJob(b)})
  }

  /** appendMessage with the fixed id batch_<id>: an existing row is left as it is. */
  function AppendBatchMessage(s: State, b: BatchId, c: ConversationId, content: Content): State {
    if b in s.messages then s
    else s.(messages := s.messages[b := MessageRow(c, content)], appended := s.appended + [(b, content)])
  }

  function Render(s: State, rows: seq<TaskId>): seq<Section>
    requires forall t :: t in rows ==> t in s.tasks
  {
    seq(|rows|, i requires 0 <= i < |rows| => var t := s.tasks[rows[i]]; Section(rows[i], t.status, t.result))
  }

  /** The stored rows of a batch, in insertion order. */
  function Rows(s: State, b: BatchId): seq<TaskId>
    ensures forall t :: t in Rows(s, b) ==> t in s.tasks
  {
    if b in s.order then Present(s.order[b], s.tasks) else []
  }

  function Present(ts: seq<TaskId>, tasks: map<TaskId, Task>): (r: seq<TaskId>)
    ensures forall t :: t in r ==> t in tasks
    ensures (forall t :: t in ts ==> t in tasks) ==> r == ts
  {
    if ts == [] then []
    else (if ts[0] in tasks then [ts[0]] else []) + Present(ts[1..], tasks)
  }

  predicate Busy(s: State, b: BatchId)
    requires b in s.batches
  {
    s.batches[b].conversation.Some? && s.batches[b].conversation.value in s.processing
  }

  function PostTo(s: State, b: BatchId, content: Content): State
    requires b in s.batches
  {
    match s.batches[b].conversation
    case Some(c) => if c in s.conversations then AppendBatchMessage(s, b, c, content) else s
    case None => s
  }

  /** failSubagentBatch: the last resort once a job has been picked up too often. */
  function Fail(s: State, b: BatchId): State {
    if b !in s.batches || s.batches[b].status.Synthesizing? then s
    else if !s.batches[b].status.Active? then Finish(s, b, s.batches[b].status)
    else if Busy(s, b) then
      Schedule(s, SynthesisJob(b), s.now + BATCH_RETRY_MS, Some(MAX_BATCH_ATTEMPTS))
    else if s.batches[b].conversation.Some? && b in s.messages
            && s.messages[b].conversation == s.batches[b].conversation.value then
      Finish(s, b, BatchCompleted)
    else Finish(PostTo(s, b, CouldNotDeliver), b, BatchFailed)
  }

  /** runBatchSynthesis up to its first await. A wake batch continues in `WakeRunning`. */
  function Synthesize(s: State, b: BatchId, retry: nat, recoveryAt: nat): State {
    var handled := Handled(SynthesisJob(b), retry, recoveryAt);
    if !AllSettled(s, b) || b !in s.batches || s.batches[b].status.Synthesizing? then s.(alarm := handled)
    else if !s.batches[b].status.Active? then Finish(s, b, s.batches[b].status).(alarm := handled)
    else if s.batches[b].origin.Wake? then
      s.(batches := s.batches[b := s.batches[b].(status := Synthesizing)],
         alarm := WakeRunning(b, retry, recoveryAt))
    else if Busy(s, b) then Schedule(s, SynthesisJob(b), s.now + 1000, None).(alarm := handled)
    else Finish(PostTo(s, b, Findings(Render(s, Rows(s, b)))), b, BatchCompleted).(alarm := handled)
  }

  /** runAlarm picks one due row, deletes it and, in the same stretch, writes its recovery row. */
  function Pick(s: State, id: JobId): State
    requires id in s.jobs
  {
    var retry := s.jobs[id].Retry();
    var recoveryAt := s.now + BATCH_RETRY_MS;
    Schedule(s, id, recoveryAt, Some(retry + 1)).(alarm := Picked(id, retry, recoveryAt))
  }

  function RunPicked(s: State): State
    requires s.alarm.Picked?
  {
    var Picked(id, retry, recoveryAt) := s.alarm;
    if retry >= MAX_BATCH_ATTEMPTS then Fail(s, id.batch).(alarm := Handled(id, retry, recoveryAt))
    else match id
      case DeadlineJob(b) => MaybeScheduleSynthesis(SweepTimeouts(s, b), b).(alarm := Swept(b, retry, false))
      case SynthesisJob(b) => Synthesize(s, b, retry, recoveryAt)
  }

  /** The recovery row of a synthesis job goes away only if nothing replaced it. */
  function AfterJob(s: State): State
    requires s.alarm.Handled?
  {
    var Handled(id, retry, recoveryAt) := s.alarm;
    var s1 := s.(alarm := AlarmIdle);
    if id.SynthesisJob? && id in s.jobs && s.jobs[id] == Job(recoveryAt, Some(retry + 1))
    then s1.(jobs := s.jobs - {id}) else s1
  }

  /** The catch clause of runBatchDeadlineJob: an await in it threw. */
  function DeadlineThrew(s: State): State
    requires s.alarm.Swept?
  {
    var Swept(b, retry, _) := s.alarm;
    var s1 := s.(alarm := AlarmIdle);
    if retry >= DEADLINE_MAX_RETRIES then s1
    else Schedule(s1, DeadlineJob(b), s.now + DEADLINE_RETRY_MS, Some(retry + 1))
  }

  /** Batches of a conversation that a stop request reaches. */
  function CancelTargets(s: State, c: ConversationId, request: Option<RequestId>): set<BatchId> {
    set b | b in s.batches && s.batches[b].status.Active? && s.batches[b].conversation == Some(c)
            && (request.None? || s.batches[b].request == request)
  }

  /** The batch loop of handleCancelTurn: settle every task, then finish every batch. */
  function CancelTurn(s: State, c: ConversationId, request: Option<RequestId>): State {
    CancelBatches(s, CancelTargets(s, c, request))
  }

  function CancelBatches(s: State, bs: set<BatchId>): State {
    s.(batches := map b | b in s.batches ::
         if b in bs then s.batches[b].(status := BatchCancelled, finishedAt := Some(s.now)) else s.batches[b],
       cancellations := s.cancellations + (set t | t in s.tasks && s.tasks[t].batch in bs && s.tasks[t].status.InFlight()),
       tasks := map t | t in s.tasks && s.tasks[t].batch !in bs :: s.tasks[t],
       jobs := map id | id in s.jobs && id.batch !in bs :: s.jobs[id])
  }

  function DeleteRetired(s: State): State {
    s.(batches := map b | b in s.batches &&
         !(s.batches[b].finishedAt.Some? && s.batches[b].finishedAt.value + BATCH_RETENTION_MS < s.now) :: s.batches[b])
  }

  /** The job recovery makes sure of: synthesis once all tasks are terminal, the deadline before. */
  function RecoveryJob(s: State, b: BatchId): JobId {
    if AllSettled(s, b) then SynthesisJob(b) else DeadlineJob(b)
  }

  function RecoveryRunAt(s: State, id: JobId): nat {
    match id
    case SynthesisJob(_) => s.now
    case DeadlineJob(b) =>
      var rows := Rows(s, b);
      if rows != [] && s.tasks[rows[0]].deadline > s.now then s.tasks[rows[0]].deadline else s.now
  }

  /** Batches that recovery must equip: active, with task rows, and without their recovery job. */
  function Unequipped(s: State): set<BatchId> {
    set b | b in s.batches && s.batches[b].status.Active? && TasksOf(s, b) != {} && RecoveryJob(s, b) !in s.jobs
  }

  function RecoverActive(s: State): State {
    s.(jobs := map id | id in s.jobs.Keys + (set b | b in Unequipped(s) :: RecoveryJob(s, b)) ::
         if id in s.jobs then s.jobs[id] else Job(RecoveryRunAt(s, id), None))
  }

  /** Batches whose wake synthesis a crash interrupted. */
  function Interrupted(s: State): set<BatchId> {
    set b | b in s.batches && s.batches[b].status.Synthesizing? && TasksOf(s, b) != {}
  }

  function FailInterrupted(s: State): State {
    var bs := Interrupted(s);
    s.(batches := map b | b in s.batches ::
         if b in bs then s.batches[b].(status := BatchFailed, finishedAt := Some(s.now)) else s.batches[b],
       tasks := map t | t in s.tasks && s.tasks[t].batch !in bs :: s.tasks[t],
       jobs := map id | id in s.jobs && id.batch !in bs :: s.jobs[id])
  }

  /** Task rows left behind by a batch that is already finished. */
  function DropFinishedRows(s: State): State {
    s.(tasks := map t | t in s.tasks && !(s.tasks[t].batch in s.batches && !s.batches[s.tasks[t].batch].Open()) :: s.tasks[t])
  }

  function ForgetDispatchTimes(s: State): State {
    s.(tasks := map t | t in s.tasks ::
      if s.tasks[t].status.Dispatched? then s.tasks[t].(startedAt := None) else s.tasks[t])
  }

  /** A crash followed by construction: handlers are gone, recoverSubagentJobs runs on the tables. */
  function Restart(s: State): State {
    var s1 := s.(alarm := AlarmIdle, pump := PumpIdle, processing := {});
    ForgetDispatchTimes(RecoverActive(DropFinishedRows(FailInterrupted(DeleteRetired(s1)))))
  }

  // ---------------------------------------------------------------- dispatch pump

  predicate Retryable(s: State, t: TaskId) {
    t in s.tasks && s.tasks[t].status.Dispatched?
    && (s.tasks[t].startedAt.None? || s.tasks[t].startedAt.value + BATCH_RETRY_MS <= s.now)
  }

  /** What the two bounded SELECTs may return: rows to retry and queued rows to claim. */
  predicate ClaimAllowed(s: State, retry: set<TaskId>, claims: set<TaskId>) {
    (forall t :: t in retry ==> Retryable(s, t))
    && (forall t :: t in claims ==> t in s.tasks && s.tasks[t].status.Queued?)
    && |retry| <= DISPATCH_PUMP_LIMIT
    && (claims == {} || |claims| + |InFlightTasks(SettleExhausted(s, retry))| <= s.cap)
  }

  function Exhausted(s: State, retry: set<TaskId>): set<TaskId>
    requires forall t :: t in retry ==> t in s.tasks
  {
    set t | t in retry && s.tasks[t].attempt >= MAX_DISPATCH_ATTEMPTS
  }

  function SettleExhausted(s: State, retry: set<TaskId>): State
    requires forall t :: t in retry ==> t in s.tasks
  {
    var gone := Exhausted(s, retry);
    s.(tasks := map t | t in s.tasks ::
      if t in gone && !s.tasks[t].status.Terminal()
      then s.tasks[t].(status := if s.tasks[t].deadline <= s.now then Timeout else Failed, result := None)
      else s.tasks[t])
  }

  /** One turn of the pump loop, up to the await on the children. */
  function Claim(s: State, retry: set<TaskId>, claims: set<TaskId>): State
    requires s.pump.Claiming? && ClaimAllowed(s, retry, claims)
  {
    var gone := Exhausted(s, retry);
    var s1 := SettleExhausted(s, retry);
    var claimed := (retry - gone) + claims;
    var touched := s.pump.touched + (set t | t in gone :: s.tasks[t].batch);
    if claimed == {} then s1.(pump := Touching(touched))
    else s1.(tasks := map t | t in s1.tasks ::
               if t in claimed
               then s1.tasks[t].(status := Dispatched, attempt := s1.tasks[t].attempt + 1, startedAt := Some(s.now))
               else s1.tasks[t],
             pump := AwaitingChildren(map t | t in claimed :: s.tasks[t].attempt, touched))
  }

  function DispatchOutcome(s: State, t: TaskId, attempt: nat, accepted: bool): Task
    requires t in s.tasks
  {
    var row := s.tasks[t];
    if accepted then (if row.status.Dispatched? then row.(status := Running) else row)
    else if row.status.Terminal() then row
    else if attempt + 1 >= MAX_DISPATCH_ATTEMPTS || row.deadline <= s.now
    then row.(status := if row.deadline <= s.now then Timeout else Failed, result := None)
    else row
  }

  /** All children answered or timed out; `accepted` are the ones that said yes. */
  function DispatchResults(s: State, accepted: set<TaskId>): State
    requires s.pump.AwaitingChildren?
  {
    var claimed := s.pump.claimed;
    var touched := s.pump.touched + (set t | t in claimed && t in s.tasks :: s.tasks[t].batch);
    s.(tasks := map t | t in s.tasks ::
         if t in claimed then DispatchOutcome(s, t, claimed[t], t in accepted) else s.tasks[t],
       pump := if claimed.Keys <= accepted then Touching(touched) else Claiming(touched))
  }

  function Touch(s: State, b: BatchId): State
    requires s.pump.Touching?
  {
    MaybeScheduleSynthesis(s, b).(pump := Touching(s.pump.touched - {b}))
  }

  // ---------------------------------------------------------------- events and runs

  datatype Event =
    | Tick(ms: nat)
    | EvSpawn(batch: BatchId, tasks: seq<TaskId>, origin: Origin, conversation: Option<ConversationId>, request: Option<RequestId>)
    | EvCallback(task: TaskId, status: TaskStatus, result: Option<string>)
    | EvPick(id: JobId)
    | EvRunPicked
    | EvDeadlineCancelled
    | EvDeadlineThrew
    | EvDeadlineEnds
    | EvWakeEnds(ok: bool)
    | EvAfterJob
    | EvAlarmThrew
    | EvPumpStarts
    | EvClaim(retry: set<TaskId>, claims: set<TaskId>)
    | EvDispatchResults(accepted: set<TaskId>)
    | EvTouch(touch: BatchId)
    | EvPumpEnds
    | EvCancelTurn(stopped: ConversationId, scope: Option<RequestId>)
    | EvTurnStarts(starts: ConversationId)
    | EvTurnEnds(ends: ConversationId)
    | EvCreateConversation(created: ConversationId)
    | EvDeleteConversation(deleted: ConversationId)
    | EvClearMessages(cleared: ConversationId)
    | EvDeleteRetired
    | EvRestart

  predicate Enabled(s: State, e: Event) {
    match e
    case EvSpawn(b, ts, origin, conversation, _) =>
      b !in s.order && ts != [] && Distinct(ts)
      && (forall t :: t in ts ==> forall x :: x in s.order ==> t !in s.order[x])
      && (conversation.Some? || origin.Wake?)
    case EvCallback(_, status, _) => status.Done? || status.Failed? || status.Cancelled?
    case EvPick(id) => s.alarm.AlarmIdle? && id in s.jobs && s.jobs[id].runAt <= s.now
    case EvRunPicked => s.alarm.Picked?
    case EvDeadlineCancelled => s.alarm.Swept? && !s.alarm.deadlineCancelled
    case EvDeadlineThrew => s.alarm.Swept?
    case EvDeadlineEnds => s.alarm.Swept? && s.alarm.deadlineCancelled
    case EvWakeEnds(_) => s.alarm.WakeRunning?
    case EvAfterJob => s.alarm.Handled?
    case EvAlarmThrew => s.alarm.Picked? || s.alarm.Handled?
    case EvPumpStarts => s.pump.PumpIdle?
    case EvClaim(retry, claims) => s.pump.Claiming? && ClaimAllowed(s, retry, claims)
    case EvDispatchResults(_) => s.pump.AwaitingChildren?
    case EvTouch(_) => s.pump.Touching?
    case EvPumpEnds => s.pump.Touching?
    case _ => true
  }

  function Step(s: State, e: Event): State
    requires Enabled(s, e)
  {
    match e
    case Tick(ms) => s.(now := s.now + ms)
    case EvSpawn(b, ts, origin, conversation, request) => Spawn(s, b, ts, origin, conversation, request)
    case EvCallback(t, status, result) =>
      if t in s.tasks && !s.tasks[t].status.Terminal()
      then MaybeScheduleSynthesis(Settle(s, t, status, result), s.tasks[t].batch) else s
    case EvPick(id) => Pick(s, id)
    case EvRunPicked => RunPicked(s)
    case EvDeadlineCancelled =>
      s.(jobs := s.jobs - {DeadlineJob(s.alarm.batch)}, alarm := s.alarm.(deadlineCancelled := true))
    case EvDeadlineThrew => DeadlineThrew(s)
    case EvDeadlineEnds => s.(alarm := AlarmIdle)
    case EvWakeEnds(ok) =>
      Finish(s, s.alarm.batch, if ok then BatchCompleted else BatchFailed)
        .(alarm := Handled(SynthesisJob(s.alarm.batch), s.alarm.retry, s.alarm.recoveryAt))
    case EvAfterJob => AfterJob(s)
    case EvAlarmThrew => s.(alarm := AlarmIdle)
    case EvPumpStarts => s.(pump := Claiming({}))
    case EvClaim(retry, claims) => Claim(s, retry, claims)
    case EvDispatchResults(accepted) => DispatchResults(s, accepted)
    case EvTouch(b) => Touch(s, b)
    case EvPumpEnds => s.(pump := PumpIdle)
    case EvCancelTurn(c, request) => CancelTurn(s, c, request)
    case EvTurnStarts(c) => s.(processing := s.processing + {c})
    case EvTurnEnds(c) => s.(processing := s.processing - {c})
    case EvCreateConversation(c) => s.(conversations := s.conversations + {c})
    case EvDeleteConversation(c) => s.(conversations := s.conversations - {c})
    case EvClearMessages(c) =>
      s.(messages := map b | b in s.messages && s.messages[b].conversation != c :: s.messages[b])
    case EvDeleteRetired => DeleteRetired(s)
    case EvRestart => Restart(s)
  }

  /** Disabled events do nothing, so every sequence of events is a run. */
  function Run(s: State, es: seq<Event>): State {
    if es == [] then s
    else var s1 := Run(s, es[..|es| - 1]);
         var e := es[|es| - 1];
         if Enabled(s1, e) then Step(s1, e) else s1
  }
}
