/** The research subagent: one task per object, run from its alarm, with a durable report outbox and a tombstone. */
module SubagentChild {
  import opened Prelude

  // A handler is cut at its external awaits. Awaits of storage alone do not let other events in, so
  // such a stretch is one event; it may stop after any of its writes.

  const RETENTION_MS: nat := 86_400_000
  const MAX_REPORT_ATTEMPTS: nat := 8
  const MAX_RESULT_CHARS: nat := 32_000
  const MAX_ERROR_CHARS: nat := 2_000
  const CLEANUP_RETRY_MS: nat := 60_000

  type TaskId = string

  datatype Task = Task(id: TaskId, batch: string, goal: string, deadline: nat)

  datatype Cancellation = Cancellation(task: TaskId, expiresAt: nat)

  datatype Payload = Completed(text: string) | Failed(error: string) | Cancelled

  /** `serial` tells apart the reports of one object; it is not stored. */
  datatype Report = Report(task: Task, payload: Payload, attempts: nat, expiresAt: nat, reported: bool, serial: nat)

  datatype Store = Store(task: Option<Task>, cancelled: Option<Cancellation>, report: Option<Report>, alarm: Option<nat>)

  datatype Write =
    | PutTask(task: Task) | DeleteTask | PutCancelled(cancellation: Cancellation)
    | PutReport(report: Report) | DeleteReport | DeleteAll | SetAlarm(at: nat) | DeleteAlarm

  function Apply(store: Store, w: Write): Store {
    match w
    case PutTask(task) => store.(task := Some(task))
    case DeleteTask => store.(task := None)
    case PutCancelled(c) => store.(cancelled := Some(c))
    case PutReport(r) => store.(report := Some(r))
    case DeleteReport => store.(report := None)
    case DeleteAll => Store(None, None, None, store.alarm)
    case SetAlarm(at) => store.(alarm := Some(at))
    case DeleteAlarm => store.(alarm := None)
  }

  function Commit(store: Store, ws: seq<Write>): Store
    decreases |ws|
  {
    if ws == [] then store else Commit(Apply(store, ws[0]), ws[1..])
  }

  datatype Reason = ByCancel | ByDeadline

  /** The alarm handler: at an external await of the task, of the callback's signature, of the callback. */
  datatype Worker = Idle | Generating(task: Task, aborted: Option<Reason>) | Signing(report: Report) | Posted(report: Report)

  datatype State = State(
    now: nat,
    store: Store,
    worker: Worker,
    readers: set<Option<Task>>,      // the task as cancel requests in progress have read it
    serial: nat,
    generations: seq<Task>,          // history: the tasks the alarm has started on
    modelCalls: seq<TaskId>,         // history
    attempts: seq<Report>,           // history: callbacks begun
    posts: seq<Report>)              // history: callbacks put on the wire

  const INIT := State(0, Store(None, None, None, None), Idle, {}, 0, [], [], [], [])

  datatype Result = Ok(text: string) | Error(message: string)

  /** How far a stretch of writes gets, and whether it then throws rather than dies. */
  datatype Luck = Luck(writes: nat, throws: bool)

  datatype Event =
    | Tick(ms: nat)
    | Dispatch(task: Task, luck: Luck)
    | CancelRead
    | Cancel(seen: Option<Task>, body: Option<TaskId>, luck: Luck)
    | Alarm(luck: Luck)
    | ModelCall
    | DeadlineTimer
    | Finish(result: Result, luck: Luck)
    | Post
    | Answered(accepted: bool, luck: Luck)
    | Crash
    | AlarmRetried(at: nat)

  // ---------------------------------------------------------------- stretches of writes

  /** The whole stretch went through. */
  predicate Whole(ws: seq<Write>, luck: Luck) { luck.writes >= |ws| }

  function Reached(ws: seq<Write>, luck: Luck): seq<Write> {
    if Whole(ws, luck) then ws else ws[..luck.writes]
  }

  function Written(s: State, ws: seq<Write>, luck: Luck): State {
    s.(store := Commit(s.store, Reached(ws, luck)))
  }

  function Died(s: State): State { s.(worker := Idle, readers := {}) }

  predicate Tombstone(s: State) { s.store.cancelled.Some? && s.store.cancelled.value.expiresAt > s.now }

  function CleanupWrites(s: State): seq<Write> {
    [DeleteTask] + if Tombstone(s) then [DeleteReport, SetAlarm(s.store.cancelled.value.expiresAt)] else [DeleteAll, DeleteAlarm]
  }

  /** cleanup(): a storage failure is caught and retried by alarm a minute later. */
  function Cleanup(s: State, luck: Luck): State {
    var ws := CleanupWrites(s);
    if Whole(ws, luck) then Written(s, ws, luck).(worker := Idle)
    else if luck.throws
    then s.(store := Apply(Commit(s.store, Reached(ws, luck)), SetAlarm(s.now + CLEANUP_RETRY_MS)), worker := Idle)
    else Died(Written(s, ws, luck))
  }

  function Doubled(n: nat): (r: nat)
    ensures r >= 1
  {
    if n == 0 then 1 else 2 * Doubled(n - 1)
  }

  function Min(a: nat, b: nat): nat { if a <= b then a else b }

  function RetryAt(now: nat, r: Report): nat
    requires r.attempts > 0
  {
    Min(r.expiresAt, now + Min(60_000, 1_000 * Doubled(r.attempts - 1)))
  }

  function NextAttempt(s: State, r: Report): Report {
    r.(payload := if s.store.cancelled.Some? then Cancelled else r.payload, attempts := r.attempts + 1)
  }

  predicate Spent(s: State, r: Report) { r.reported || r.attempts >= MAX_REPORT_ATTEMPTS || r.expiresAt <= s.now }

  function DeliverWrites(s: State, r: Report): seq<Write> {
    [PutReport(NextAttempt(s, r)), SetAlarm(RetryAt(s.now, NextAttempt(s, r)))]
  }

  /** deliverReport up to the callback: the attempt is stored and the alarm set before it. */
  function Deliver(s: State, r: Report, luck: Luck): State {
    if Spent(s, r) then Cleanup(s, luck)
    else
      var ws := DeliverWrites(s, r);
      var t := Written(s, ws, luck);
      if Whole(ws, luck) then t.(worker := Signing(NextAttempt(s, r)), attempts := s.attempts + [NextAttempt(s, r)])
      else Died(t)
  }

  // ---------------------------------------------------------------- requests

  datatype DispatchReply = Accepted | AlreadyCancelled | Conflict

  /** The id that already has this object. */
  function Owner(store: Store): Option<TaskId> {
    if store.task.Some? then Some(store.task.value.id)
    else if store.report.Some? then Some(store.report.value.task.id) else None
  }

  function DispatchReplyTo(s: State, task: Task): DispatchReply {
    if Tombstone(s) then AlreadyCancelled
    else if Owner(s.store).Some? && Owner(s.store) != Some(task.id) then Conflict
    else Accepted
  }

  function DispatchWrites(s: State, task: Task): seq<Write> {
    if !DispatchReplyTo(s, task).Accepted? then []
    else if Owner(s.store).Some? then [SetAlarm(s.now)]
    else [PutTask(task), SetAlarm(s.now)]
  }

  function Dispatched(s: State, task: Task, luck: Luck): State {
    var ws := DispatchWrites(s, task);
    if Whole(ws, luck) then Written(s, ws, luck) else Died(Written(s, ws, luck))
  }

  datatype CancelReply = NothingToCancel | TaskMismatch | CancelAcknowledged

  function CancelId(seen: Option<Task>, body: Option<TaskId>): Option<TaskId> {
    if body.Some? then body else if seen.Some? then Some(seen.value.id) else None
  }

  function CancelReplyTo(seen: Option<Task>, body: Option<TaskId>): CancelReply {
    if CancelId(seen, body).None? then NothingToCancel
    else if seen.Some? && Some(seen.value.id) != CancelId(seen, body) then TaskMismatch
    else CancelAcknowledged
  }

  function CancelWrites(s: State, seen: Option<Task>, id: TaskId): seq<Write> {
    [PutCancelled(Cancellation(id, s.now + RETENTION_MS)), SetAlarm(if seen.Some? then s.now else s.now + RETENTION_MS)]
  }

  function Abort(w: Worker, reason: Reason): Worker {
    if w.Generating? && w.aborted.None? then w.(aborted := Some(reason)) else w
  }

  function CancelStep(s: State, seen: Option<Task>, body: Option<TaskId>, luck: Luck): State {
    if !CancelReplyTo(seen, body).CancelAcknowledged? then s
    else
      var ws := CancelWrites(s, seen, CancelId(seen, body).value);
      if Whole(ws, luck) then Written(s, ws, luck).(worker := Abort(s.worker, ByCancel)) else Died(Written(s, ws, luck))
  }

  // ---------------------------------------------------------------- the alarm

  function AlarmStep(s: State, luck: Luck): State {
    var fired := s.(store := s.store.(alarm := None));
    if s.store.report.Some? then Deliver(fired, s.store.report.value, luck)
    else if s.store.task.None? then Cleanup(fired, luck)
    else fired.(worker := Generating(s.store.task.value, if s.store.cancelled.Some? then Some(ByCancel) else None),
                generations := s.generations + [s.store.task.value])
  }

  function Clip(text: string, limit: nat): string { if |text| <= limit then text else text[..limit] }

  function Outcome(s: State, aborted: Option<Reason>, result: Result): Payload {
    if s.store.cancelled.Some? then Cancelled
    else match result
      case Ok(text) => Completed(Clip(text, MAX_RESULT_CHARS))
      case Error(message) => if aborted == Some(ByCancel) then Cancelled else Failed(Clip(message, MAX_ERROR_CHARS))
  }

  /** The end of a task: its report is stored first, then delivered. */
  function FinishStep(s: State, result: Result, luck: Luck): State
    requires s.worker.Generating?
  {
    var r := Report(s.worker.task, Outcome(s, s.worker.aborted, result), 0, s.now + RETENTION_MS, false, s.serial + 1);
    if luck.writes == 0 then Died(s)
    else Deliver(s.(store := Apply(s.store, PutReport(r)), serial := s.serial + 1), r, Luck(luck.writes - 1, luck.throws))
  }

  function AnsweredStep(s: State, accepted: bool, luck: Luck): State
    requires s.worker.Signing? || s.worker.Posted?
  {
    var r := s.worker.report;
    if accepted then
      if luck.writes == 0 then Died(s)
      else Cleanup(s.(store := Apply(s.store, PutReport(r.(reported := true)))), Luck(luck.writes - 1, luck.throws))
    else if r.attempts >= MAX_REPORT_ATTEMPTS then Cleanup(s, luck)
    else s.(worker := Idle)
  }

  // ---------------------------------------------------------------- runs

  predicate Enabled(s: State, e: Event) {
    match e
    case Cancel(seen, _, _) => seen in s.readers
    case Alarm(_) => s.worker.Idle? && s.store.alarm.Some? && s.store.alarm.value <= s.now
    case ModelCall => s.worker.Generating? && s.worker.aborted.None?
    case DeadlineTimer => s.worker.Generating? && s.worker.task.deadline <= s.now
    case Finish(result, _) =>
      s.worker.Generating? && (result.Ok? ==> s.worker.aborted.None? && s.now < s.worker.task.deadline)
    case Post => s.worker.Signing?
    case Answered(accepted, _) => s.worker.Posted? || (s.worker.Signing? && !accepted)
    case AlarmRetried(_) => s.worker.Idle?
    case _ => true
  }

  function Step(s: State, e: Event): State
    requires Enabled(s, e)
  {
    match e
    case Tick(ms) => s.(now := s.now + ms)
    case Dispatch(task, luck) => Dispatched(s, task, luck)
    case CancelRead => s.(readers := s.readers + {s.store.task})
    case Cancel(seen, body, luck) => CancelStep(s, seen, body, luck)
    case Alarm(luck) => AlarmStep(s, luck)
    case ModelCall => s.(modelCalls := s.modelCalls + [s.worker.task.id])
    case DeadlineTimer => s.(worker := Abort(s.worker, ByDeadline))
    case Finish(result, luck) => FinishStep(s, result, luck)
    case Post => s.(worker := Posted(s.worker.report), posts := s.posts + [s.worker.report])
    case Answered(accepted, luck) => AnsweredStep(s, accepted, luck)
    case Crash => Died(s)
    case AlarmRetried(at) => s.(store := s.store.(alarm := Some(at)))
  }

  function Run(s: State, es: seq<Event>): State {
    if es == [] then s
    else var s1 := Run(s, es[..|es| - 1]);
         var e := es[|es| - 1];
         if Enabled(s1, e) then Step(s1, e) else s1
  }

  // ---------------------------------------------------------------- what every step keeps

  function CountOf(log: seq<Report>, serial: nat): nat {
    if log == [] then 0 else CountOf(log[..|log| - 1], serial) + if log[|log| - 1].serial == serial then 1 else 0
  }

  ghost predicate OneOwner(store: Store) {
    store.task.Some? && store.report.Some? ==> store.report.value.task == store.task.value
  }

  ghost predicate WorkerFits(store: Store, worker: Worker) {
    match worker
    case Idle => true
    case Generating(task, _) => store.task == Some(task) && store.report.None?
    case Signing(r) => store.report == Some(r)
    case Posted(r) => store.report == Some(r)
  }

  ghost predicate AttemptsFit(attempts: seq<Report>, serial: nat) {
    && (forall k: nat :: CountOf(attempts, k) <= MAX_REPORT_ATTEMPTS)
    && (forall k: nat :: k > serial ==> CountOf(attempts, k) == 0)
  }

  ghost predicate ReportFits(attempts: seq<Report>, serial: nat, report: Option<Report>) {
    report.Some? ==>
      && report.value.serial <= serial && report.value.attempts <= MAX_REPORT_ATTEMPTS
      && CountOf(attempts, report.value.serial) <= report.value.attempts
  }

  ghost predicate Inv(s: State) {
    && OneOwner(s.store) && WorkerFits(s.store, s.worker)
    && AttemptsFit(s.attempts, s.serial) && ReportFits(s.attempts, s.serial, s.store.report)
  }

  /** What the writes of an idle object may leave: no more than was there. */
  ghost predicate Shrinks(a: Store, b: Store) {
    && (b.task == a.task || b.task.None?) && (b.report == a.report || b.report.None?)
  }

  lemma {:induction false} CommitOne(store: Store, ws: seq<Write>)
    requires |ws| == 1
    ensures Commit(store, ws) == Apply(store, ws[0])
  {
    assert ws[1..] == [];
  }

  lemma {:induction false} CommitTwo(store: Store, ws: seq<Write>, luck: Luck)
    requires |ws| == 2
    ensures luck.writes == 0 ==> Commit(store, Reached(ws, luck)) == store
    ensures luck.writes == 1 ==> Commit(store, Reached(ws, luck)) == Apply(store, ws[0])
    ensures luck.writes >= 2 ==> Commit(store, Reached(ws, luck)) == Apply(Apply(store, ws[0]), ws[1])
  {
    CommitOne(store, ws[..1]);
    CommitOne(Apply(store, ws[0]), ws[1..]);
  }

  lemma {:induction false} CommitThree(store: Store, ws: seq<Write>, luck: Luck)
    requires |ws| == 3
    ensures luck.writes == 0 ==> Commit(store, Reached(ws, luck)) == store
    ensures luck.writes == 1 ==> Commit(store, Reached(ws, luck)) == Apply(store, ws[0])
    ensures luck.writes == 2 ==> Commit(store, Reached(ws, luck)) == Apply(Apply(store, ws[0]), ws[1])
    ensures luck.writes >= 3 ==> Commit(store, Reached(ws, luck)) == Apply(Apply(Apply(store, ws[0]), ws[1]), ws[2])
  {
    CommitOne(store, ws[..1]);
    CommitTwo(store, ws[..2], Luck(2, false));
    CommitTwo(Apply(store, ws[0]), ws[1..], Luck(2, false));
  }

  /** cleanup() only deletes, keeps a live tombstone, and leaves no handler at work. */
  lemma {:induction false} CleanupShrinks(s: State, luck: Luck)
    ensures var t := Cleanup(s, luck);
      && t.worker.Idle? && Shrinks(s.store, t.store)
      && (Tombstone(s) ==> t.store.cancelled == s.store.cancelled)
      && t == s.(store := t.store, worker := Idle, readers := t.readers)
  {
    CommitThree(s.store, CleanupWrites(s), luck);
  }

  lemma {:induction false} CountGrows(log: seq<Report>, r: Report, serial: nat)
    ensures CountOf(log + [r], serial) == CountOf(log, serial) + if r.serial == serial then 1 else 0
  {
    assert (log + [r])[..|log|] == log;
  }

  /** One more attempt of the stored report, counted before it is begun. */
  lemma {:induction false} AttemptCounts(attempts: seq<Report>, serial: nat, old_: Report, r: Report)
    requires AttemptsFit(attempts, serial) && ReportFits(attempts, serial, Some(old_))
    requires r.serial == old_.serial && r.attempts == old_.attempts + 1 <= MAX_REPORT_ATTEMPTS
    ensures AttemptsFit(attempts + [r], serial) && ReportFits(attempts + [r], serial, Some(r))
  {
    forall k: nat ensures CountOf(attempts + [r], k) == CountOf(attempts, k) + if r.serial == k then 1 else 0 {
      CountGrows(attempts, r, k);
    }
  }

  lemma {:induction false} CleanupKeepsInv(s: State, luck: Luck)
    requires OneOwner(s.store) && AttemptsFit(s.attempts, s.serial) && ReportFits(s.attempts, s.serial, s.store.report)
    ensures Inv(Cleanup(s, luck))
  {
    CleanupShrinks(s, luck);
  }

  lemma {:induction false} DeliverKeepsInv(s: State, luck: Luck)
    requires OneOwner(s.store) && AttemptsFit(s.attempts, s.serial) && s.store.report.Some?
    requires ReportFits(s.attempts, s.serial, s.store.report)
    ensures Inv(Deliver(s, s.store.report.value, luck))
  {
    var r := s.store.report.value;
    if Spent(s, r) {
      CleanupKeepsInv(s, luck);
    } else {
      CommitTwo(s.store, DeliverWrites(s, r), luck);
      AttemptCounts(s.attempts, s.serial, r, NextAttempt(s, r));
    }
  }

  lemma {:induction false} AlarmKeepsInv(s: State, luck: Luck)
    requires Inv(s)
    ensures Inv(AlarmStep(s, luck))
  {
    var fired := s.(store := s.store.(alarm := None));
    if s.store.report.Some? {
      DeliverKeepsInv(fired, luck);
    } else if s.store.task.None? {
      CleanupKeepsInv(fired, luck);
    }
  }

  lemma {:induction false} FinishKeepsInv(s: State, result: Result, luck: Luck)
    requires Inv(s) && s.worker.Generating?
    ensures Inv(FinishStep(s, result, luck))
  {
    var r := Report(s.worker.task, Outcome(s, s.worker.aborted, result), 0, s.now + RETENTION_MS, false, s.serial + 1);
    if luck.writes > 0 {
      DeliverKeepsInv(s.(store := Apply(s.store, PutReport(r)), serial := s.serial + 1), Luck(luck.writes - 1, luck.throws));
    }
  }

  lemma {:induction false} AnsweredKeepsInv(s: State, accepted: bool, luck: Luck)
    requires Inv(s) && (s.worker.Signing? || s.worker.Posted?)
    ensures Inv(AnsweredStep(s, accepted, luck))
  {
    var r := s.worker.report;
    if accepted && luck.writes > 0 {
      CleanupKeepsInv(s.(store := Apply(s.store, PutReport(r.(reported := true)))), Luck(luck.writes - 1, luck.throws));
    } else if !accepted && r.attempts >= MAX_REPORT_ATTEMPTS {
      CleanupKeepsInv(s, luck);
    }
  }

  lemma {:induction false} DispatchKeepsInv(s: State, task: Task, luck: Luck)
    requires Inv(s)
    ensures Inv(Dispatched(s, task, luck))
  {
    var ws := DispatchWrites(s, task);
    if |ws| == 2 { CommitTwo(s.store, ws, luck); }
    if |ws| == 1 { CommitOne(s.store, ws); }
  }

  lemma {:induction false} CancelKeepsInv(s: State, seen: Option<Task>, body: Option<TaskId>, luck: Luck)
    requires Inv(s)
    ensures Inv(CancelStep(s, seen, body, luck))
  {
    if CancelReplyTo(seen, body).CancelAcknowledged? {
      CommitTwo(s.store, CancelWrites(s, seen, CancelId(seen, body).value), luck);
    }
  }

  lemma {:induction false} StepKeepsInv(s: State, e: Event)
    requires Inv(s) && Enabled(s, e)
    ensures Inv(Step(s, e))
  {
    match e
    case Dispatch(task, luck) => DispatchKeepsInv(s, task, luck);
    case Cancel(seen, body, luck) => CancelKeepsInv(s, seen, body, luck);
    case Alarm(luck) => AlarmKeepsInv(s, luck);
    case Finish(result, luck) => FinishKeepsInv(s, result, luck);
    case Answered(accepted, luck) => AnsweredKeepsInv(s, accepted, luck);
    case _ =>
  }

  lemma {:induction false} RunKeepsInv(es: seq<Event>)
    ensures Inv(Run(INIT, es))
  {
    if es != [] {
      RunKeepsInv(es[..|es| - 1]);
      var s := Run(INIT, es[..|es| - 1]);
      if Enabled(s, es[|es| - 1]) { StepKeepsInv(s, es[|es| - 1]); }
    }
  }

  // ---------------------------------------------------------------- the report outbox

  /** Of any one report at most eight callbacks are ever begun. */
  lemma {:induction false} AtMostEightCallbacks(es: seq<Event>, serial: nat)
    ensures CountOf(Run(INIT, es).attempts, serial) <= MAX_REPORT_ATTEMPTS
  {
    RunKeepsInv(es);
  }

  lemma {:induction false} DeliverIsDurable(s: State, r: Report, luck: Luck)
    requires s.store.report == Some(r)
    ensures var t := Deliver(s, r, luck);
      t.attempts == s.attempts ||
      (t.attempts == s.attempts + [NextAttempt(s, r)] && t.worker == Signing(NextAttempt(s, r)) && t.now == s.now
       && t.store.report == Some(NextAttempt(s, r)) && t.store.alarm == Some(RetryAt(s.now, NextAttempt(s, r)))
       && r.expiresAt > s.now)
  {
    if Spent(s, r) { CleanupShrinks(s, luck); } else { CommitTwo(s.store, DeliverWrites(s, r), luck); }
  }

  lemma {:induction false} RetryIsLater(now: nat, r: Report)
    requires r.attempts > 0 && r.expiresAt > now
    ensures now < RetryAt(now, r) <= r.expiresAt && RetryAt(now, r) <= now + 60_000
  {
  }

  /** Whenever a callback is begun, its report with the attempt counted is already stored and an alarm
      is set to send it again. */
  lemma {:induction false} CallbackIsDurable(es: seq<Event>, e: Event)
    requires Enabled(Run(INIT, es), e) && Step(Run(INIT, es), e).attempts != Run(INIT, es).attempts
    ensures var s := Run(INIT, es);
      var t := Step(s, e);
      && t.worker.Signing? && t.attempts == s.attempts + [t.worker.report]
      && t.store.report == Some(t.worker.report) && 1 <= t.worker.report.attempts <= MAX_REPORT_ATTEMPTS
      && t.store.alarm.Some? && t.now < t.store.alarm.value <= t.worker.report.expiresAt
      && t.store.alarm.value <= t.now + 60_000
  {
    RunKeepsInv(es);
    var s := Run(INIT, es);
    StepKeepsInv(s, e);
    BeginsDurably(s, e);
    RetryIsLater(s.now, Step(s, e).worker.report);
  }

  lemma {:induction false} BeginsDurably(s: State, e: Event)
    requires Inv(s) && Enabled(s, e) && Step(s, e).attempts != s.attempts
    ensures var t := Step(s, e);
      && t.worker.Signing? && t.attempts == s.attempts + [t.worker.report] && t.now == s.now
      && t.worker.report.attempts > 0 && t.worker.report.expiresAt > s.now
      && t.store.report == Some(t.worker.report) && t.store.alarm == Some(RetryAt(s.now, t.worker.report))
  {
    match e
    case Alarm(luck) =>
      var fired := s.(store := s.store.(alarm := None));
      if s.store.report.Some? { DeliverIsDurable(fired, s.store.report.value, luck); } else { CleanupShrinks(fired, luck); }
    case Finish(result, luck) =>
      var r := Report(s.worker.task, Outcome(s, s.worker.aborted, result), 0, s.now + RETENTION_MS, false, s.serial + 1);
      DeliverIsDurable(s.(store := Apply(s.store, PutReport(r)), serial := s.serial + 1), r, Luck(luck.writes - 1, luck.throws));
    case Answered(accepted, luck) =>
      var r := s.worker.report;
      CleanupShrinks(s, luck);
      if luck.writes > 0 {
        CleanupShrinks(s.(store := Apply(s.store, PutReport(r.(reported := true)))), Luck(luck.writes - 1, luck.throws));
      }
    case _ =>
  }

  lemma {:induction false} StoredReportBlocks(s: State, e: Event)
    requires Inv(s) && s.store.report.Some? && Enabled(s, e)
    ensures var t := Step(s, e);
      && t.generations == s.generations && t.modelCalls == s.modelCalls
      && (t.store.task == s.store.task || t.store.task.None?)
  {
    match e
    case Dispatch(task, luck) =>
      var ws := DispatchWrites(s, task);
      if |ws| == 1 { CommitOne(s.store, ws); }
    case Cancel(seen, body, luck) =>
      if CancelReplyTo(seen, body).CancelAcknowledged? {
        CommitTwo(s.store, CancelWrites(s, seen, CancelId(seen, body).value), luck);
      }
    case Alarm(luck) => DeliverKeepsLogs(s.(store := s.store.(alarm := None)), s.store.report.value, luck);
    case Answered(accepted, luck) =>
      var r := s.worker.report;
      CleanupShrinks(s, luck);
      if luck.writes > 0 {
        CleanupShrinks(s.(store := Apply(s.store, PutReport(r.(reported := true)))), Luck(luck.writes - 1, luck.throws));
      }
    case _ =>
  }

  lemma {:induction false} DeliverKeepsLogs(s: State, r: Report, luck: Luck)
    ensures var t := Deliver(s, r, luck);
      && t.generations == s.generations && t.modelCalls == s.modelCalls && t.posts == s.posts && t.now == s.now
      && (t.store.task == s.store.task || t.store.task.None?)
  {
    if Spent(s, r) { CleanupShrinks(s, luck); } else { CommitTwo(s.store, DeliverWrites(s, r), luck); }
  }

  /** While a report is stored the task is never generated again and no model is called. */
  lemma {:induction false} GenerationIsNotRepeated(es: seq<Event>, more: seq<Event>)
    requires forall k :: 0 <= k <= |more| ==> Run(Run(INIT, es), more[..k]).store.report.Some?
    ensures var s, t := Run(INIT, es), Run(Run(INIT, es), more);
      Inv(t) && t.generations == s.generations && t.modelCalls == s.modelCalls
  {
    if more == [] {
      RunKeepsInv(es);
    } else {
      var fewer := more[..|more| - 1];
      forall k | 0 <= k <= |fewer| ensures Run(Run(INIT, es), fewer[..k]).store.report.Some? { assert fewer[..k] == more[..k]; }
      GenerationIsNotRepeated(es, fewer);
      var s := Run(Run(INIT, es), fewer);
      var e := more[|more| - 1];
      assert fewer[..|fewer|] == fewer && s.store.report.Some?;
      if Enabled(s, e) { StoredReportBlocks(s, e); StepKeepsInv(s, e); }
    }
  }

  /** A dispatch is accepted exactly when no live tombstone is stored and the object is free or the
      dispatch repeats the id it works for, be that a task or only a report still to deliver. */
  lemma {:induction false} AcceptedIff(es: seq<Event>, task: Task)
    ensures var s := Run(INIT, es);
      DispatchReplyTo(s, task).Accepted? <==>
        && !(s.store.cancelled.Some? && s.now < s.store.cancelled.value.expiresAt)
        && (s.store.task.Some? ==> s.store.task.value.id == task.id)
        && (s.store.report.Some? ==> s.store.report.value.task.id == task.id)
  {
    RunKeepsInv(es);
  }

  // ---------------------------------------------------------------- cancellation

  /** A cancellation record is stored, expired or not, and no generation goes on in spite of it. */
  predicate Recorded(s: State) {
    s.store.cancelled.Some? && (s.worker.Generating? ==> s.worker.aborted.Some?)
  }

  /** A cancel of time `at` is in force. */
  predicate InForce(s: State, at: nat) {
    at <= s.now && Recorded(s) && s.store.cancelled.value.expiresAt >= at + RETENTION_MS
  }

  /** What a step may do under a record: no model is called, no generation succeeds, and a callback that
      begins carries `cancelled`. */
  predicate Silent(s: State, t: State) {
    && t.modelCalls == s.modelCalls
    && (t.attempts == s.attempts ||
        (|t.attempts| == |s.attempts| + 1 && t.attempts[..|s.attempts|] == s.attempts && t.attempts[|s.attempts|].payload.Cancelled?))
    && (t.posts == s.posts || (s.worker.Signing? && t.posts == s.posts + [s.worker.report]))
    && (t.worker.Signing? ==> t.worker == s.worker || t.worker.report.payload.Cancelled?)
    && s.serial <= t.serial
    && (t.store.report.Some? ==> t.store.report.value.payload.Cancelled? || SameReport(s.store.report, t.store.report.value))
    && (t.worker.Posted? ==> t.store.report == Some(t.worker.report))
  }

  /** `r` is what was stored before, but for what delivery notes on it. */
  predicate SameReport(before: Option<Report>, r: Report) {
    before.Some? && before.value.serial == r.serial && before.value.payload == r.payload
  }

  /** Under a cancel in force no task is accepted either. */
  predicate Harmless(s: State, t: State) { Silent(s, t) && (t.store.task == s.store.task || t.store.task.None?) }

  predicate Live(s: State, at: nat) { InForce(s, at) && s.now < at + RETENTION_MS }

  lemma {:induction false} CleanupUnder(s: State, at: nat, luck: Luck)
    requires Recorded(s)
    ensures var t := Cleanup(s, luck); Silent(s, t) && (t.store.cancelled.Some? ==> Recorded(t))
    ensures Live(s, at) ==> InForce(Cleanup(s, luck), at) && Harmless(s, Cleanup(s, luck))
  {
    CleanupShrinks(s, luck);
  }

  lemma {:induction false} DeliverUnder(s: State, at: nat, r: Report, luck: Luck)
    requires Recorded(s) && s.store.report == Some(r)
    ensures var t := Deliver(s, r, luck); Silent(s, t) && (t.store.cancelled.Some? ==> Recorded(t))
    ensures Live(s, at) ==> InForce(Deliver(s, r, luck), at) && Harmless(s, Deliver(s, r, luck))
  {
    if Spent(s, r) {
      CleanupUnder(s, at, luck);
    } else {
      CommitTwo(s.store, DeliverWrites(s, r), luck);
      var t := Deliver(s, r, luck);
      assert t.attempts == s.attempts || t.attempts == s.attempts + [NextAttempt(s, r)];
    }
  }

  lemma {:induction false} AnsweredUnder(s: State, at: nat, accepted: bool, luck: Luck)
    requires Recorded(s) && (s.worker.Signing? || s.worker.Posted?) && s.store.report == Some(s.worker.report)
    ensures var t := AnsweredStep(s, accepted, luck); Silent(s, t) && (t.store.cancelled.Some? ==> Recorded(t))
    ensures Live(s, at) ==> InForce(AnsweredStep(s, accepted, luck), at) && Harmless(s, AnsweredStep(s, accepted, luck))
  {
    CleanupUnder(s, at, luck);
    if luck.writes > 0 {
      var r := s.worker.report;
      CleanupUnder(s.(store := Apply(s.store, PutReport(r.(reported := true)))), at, Luck(luck.writes - 1, luck.throws));
    }
  }

  lemma {:induction false} FinishUnder(s: State, at: nat, result: Result, luck: Luck)
    requires Recorded(s) && s.worker.Generating?
    ensures var t := FinishStep(s, result, luck); Silent(s, t) && (t.store.cancelled.Some? ==> Recorded(t))
    ensures Live(s, at) ==> InForce(FinishStep(s, result, luck), at) && Harmless(s, FinishStep(s, result, luck))
  {
    if luck.writes > 0 {
      var r := Report(s.worker.task, Outcome(s, s.worker.aborted, result), 0, s.now + RETENTION_MS, false, s.serial + 1);
      DeliverUnder(s.(store := Apply(s.store, PutReport(r)), serial := s.serial + 1), at, r, Luck(luck.writes - 1, luck.throws));
    }
  }

  lemma {:induction false} CancelUnder(s: State, at: nat, seen: Option<Task>, body: Option<TaskId>, luck: Luck)
    requires Recorded(s) && WorkerFits(s.store, s.worker)
    ensures Recorded(CancelStep(s, seen, body, luck)) && Harmless(s, CancelStep(s, seen, body, luck))
    ensures InForce(s, at) ==> InForce(CancelStep(s, seen, body, luck), at)
  {
    if CancelReplyTo(seen, body).CancelAcknowledged? {
      CommitTwo(s.store, CancelWrites(s, seen, CancelId(seen, body).value), luck);
    }
  }

  lemma {:induction false} DispatchUnder(s: State, at: nat, task: Task, luck: Luck)
    requires Recorded(s) && WorkerFits(s.store, s.worker)
    ensures Silent(s, Dispatched(s, task, luck)) && Recorded(Dispatched(s, task, luck))
    ensures Live(s, at) ==> InForce(Dispatched(s, task, luck), at) && Harmless(s, Dispatched(s, task, luck))
  {
    var ws := DispatchWrites(s, task);
    if |ws| == 2 { CommitTwo(s.store, ws, luck); }
    if |ws| == 1 { CommitOne(s.store, ws); }
  }

  lemma {:induction false} AlarmUnder(s: State, at: nat, luck: Luck)
    requires Recorded(s) && s.worker.Idle?
    ensures var t := AlarmStep(s, luck); Silent(s, t) && (t.store.cancelled.Some? ==> Recorded(t))
    ensures Live(s, at) ==> InForce(AlarmStep(s, luck), at) && Harmless(s, AlarmStep(s, luck))
  {
    var fired := s.(store := s.store.(alarm := None));
    if s.store.report.Some? {
      DeliverUnder(fired, at, s.store.report.value, luck);
    } else if s.store.task.None? {
      CleanupUnder(fired, at, luck);
    }
  }

  lemma {:induction false} StepUnder(s: State, e: Event, at: nat)
    requires Recorded(s) && WorkerFits(s.store, s.worker) && Enabled(s, e)
    ensures var t := Step(s, e); Silent(s, t) && (t.store.cancelled.Some? ==> Recorded(t))
    ensures Live(s, at) && Step(s, e).now < at + RETENTION_MS ==> InForce(Step(s, e), at) && Harmless(s, Step(s, e))
  {
    match e
    case Dispatch(task, luck) => DispatchUnder(s, at, task, luck);
    case Cancel(seen, body, luck) => CancelUnder(s, at, seen, body, luck);
    case Alarm(luck) => AlarmUnder(s, at, luck);
    case Finish(result, luck) => FinishUnder(s, at, result, luck);
    case Answered(accepted, luck) => AnsweredUnder(s, at, accepted, luck);
    case _ =>
  }

  lemma {:induction false} TimeStands(s: State, e: Event)
    requires Enabled(s, e)
    ensures Step(s, e).now == s.now + if e.Tick? then e.ms else 0
  {
    match e
    case Alarm(luck) =>
      CleanupShrinks(s.(store := s.store.(alarm := None)), luck);
      if s.store.report.Some? { DeliverKeepsLogs(s.(store := s.store.(alarm := None)), s.store.report.value, luck); }
    case _ =>
  }

  /** Everything begun or sent after the first `n` is cancelled, except a report already being signed. */
  ghost predicate CancelledFrom(log: seq<Report>, n: nat, exempt: Option<Report>) {
    forall k :: n <= k < |log| ==> log[k].payload.Cancelled? || exempt == Some(log[k])
  }

  function BeingSigned(w: Worker): Option<Report> { if w.Signing? then Some(w.report) else None }

  /** What a stretch of a run may have done under a record. */
  ghost predicate SilentSince(s: State, t: State) {
    && t.modelCalls == s.modelCalls
    && |s.attempts| <= |t.attempts| && CancelledFrom(t.attempts, |s.attempts|, None)
    && |s.posts| <= |t.posts| && CancelledFrom(t.posts, |s.posts|, BeingSigned(s.worker))
    && (t.worker.Signing? ==> t.worker == s.worker || t.worker.report.payload.Cancelled?)
    && s.serial <= t.serial
    && (t.store.report.Some? ==> t.store.report.value.payload.Cancelled? || SameReport(s.store.report, t.store.report.value))
  }

  lemma {:induction false} SilentFurther(s: State, u: State, t: State)
    requires SilentSince(s, u) && Silent(u, t)
    ensures SilentSince(s, t)
  {
  }

  lemma {:induction false} UnderCancel(s: State, es: seq<Event>, at: nat)
    requires Inv(s) && InForce(s, at) && Run(s, es).now < at + RETENTION_MS
    ensures var t := Run(s, es);
      Inv(t) && InForce(t, at) && SilentSince(s, t) && (t.store.task == s.store.task || t.store.task.None?)
  {
    if es != [] {
      var u := Run(s, es[..|es| - 1]);
      var e := es[|es| - 1];
      if Enabled(u, e) { TimeStands(u, e); }
      UnderCancel(s, es[..|es| - 1], at);
      if Enabled(u, e) {
        StepUnder(u, e, at);
        StepKeepsInv(u, e);
        SilentFurther(s, u, Step(u, e));
      }
    }
  }

  /** For 24 hours after a cancel is acknowledged, whatever else happens: no model call starts, every
      dispatch is refused and no task appears, every callback begun carries `cancelled`, and so does every
      callback sent, with the one exception of a report that was being signed when the cancel came. */
  lemma {:induction false} CancelIsFinal(es: seq<Event>, seen: Option<Task>, body: Option<TaskId>, luck: Luck, more: seq<Event>)
    requires Enabled(Run(INIT, es), Cancel(seen, body, luck)) && CancelReplyTo(seen, body).CancelAcknowledged? && luck.writes >= 2
    requires Run(Step(Run(INIT, es), Cancel(seen, body, luck)), more).now < Run(INIT, es).now + RETENTION_MS
    ensures var s := Step(Run(INIT, es), Cancel(seen, body, luck));
      var t := Run(s, more);
      && t.modelCalls == s.modelCalls && (t.store.task == s.store.task || t.store.task.None?)
      && (forall task :: DispatchReplyTo(t, task).AlreadyCancelled?)
      && CancelledFrom(t.attempts, |s.attempts|, None)
      && CancelledFrom(t.posts, |s.posts|, BeingSigned(s.worker))
  {
    var s0 := Run(INIT, es);
    RunKeepsInv(es);
    StepKeepsInv(s0, Cancel(seen, body, luck));
    CommitTwo(s0.store, CancelWrites(s0, seen, CancelId(seen, body).value), luck);
    UnderCancel(CancelStep(s0, seen, body, luck), more, s0.now);
  }

  /** When every callback sent within 24 hours of a cancel is `cancelled`. */
  ghost predicate OnlyCancelledPosts(s: State, at: nat) {
    forall more :: Run(s, more).now < at + RETENTION_MS ==> CancelledFrom(Run(s, more).posts, |s.posts|, None)
  }

  /** From every reachable state: after an acknowledged cancel all callbacks sent within 24 hours are
      `cancelled`, in every continuation, if and only if no other result was being signed at that moment. */
  lemma {:induction false} LateCallbackIff(es: seq<Event>, seen: Option<Task>, body: Option<TaskId>, luck: Luck)
    requires Enabled(Run(INIT, es), Cancel(seen, body, luck)) && CancelReplyTo(seen, body).CancelAcknowledged? && luck.writes >= 2
    ensures var s := Run(INIT, es);
      OnlyCancelledPosts(Step(s, Cancel(seen, body, luck)), s.now) <==> !s.worker.Signing? || s.worker.report.payload.Cancelled?
  {
    var s0 := Run(INIT, es);
    var s := Step(s0, Cancel(seen, body, luck));
    CommitTwo(s0.store, CancelWrites(s0, seen, CancelId(seen, body).value), luck);
    assert s0.worker.Signing? ==> s.worker == s0.worker;
    if !s0.worker.Signing? || s0.worker.report.payload.Cancelled? {
      forall more | Run(s, more).now < s0.now + RETENTION_MS ensures CancelledFrom(Run(s, more).posts, |s.posts|, None) {
        CancelIsFinal(es, seen, body, luck, more);
      }
    } else {
      SentAnyway(s);
    }
  }

  lemma {:induction false} SentAnyway(s: State)
    requires s.worker.Signing? && !s.worker.report.payload.Cancelled?
    ensures Run(s, [Post]).now == s.now && Run(s, [Post]).posts == s.posts + [s.worker.report]
    ensures !CancelledFrom(Run(s, [Post]).posts, |s.posts|, None)
  {
    assert [Post][..0] == [] && Run(s, []) == s;
    assert Run(s, [Post]).posts[|s.posts|] == s.worker.report;
  }

  // ---------------------------------------------------------------- records that have expired

  /** A stored record and a generation that ignores it never meet. */
  lemma {:induction false} RecordAborts(es: seq<Event>)
    ensures Run(INIT, es).store.cancelled.Some? ==> Recorded(Run(INIT, es))
  {
    if es != [] {
      RecordAborts(es[..|es| - 1]);
      RunKeepsInv(es[..|es| - 1]);
      var s := Run(INIT, es[..|es| - 1]);
      if Enabled(s, es[|es| - 1]) { RecordAppears(s, es[|es| - 1]); }
    }
  }

  lemma {:induction false} RecordAppears(s: State, e: Event)
    requires Inv(s) && Enabled(s, e) && (s.store.cancelled.Some? ==> Recorded(s))
    ensures Step(s, e).store.cancelled.Some? ==> Recorded(Step(s, e))
  {
    if s.store.cancelled.Some? {
      StepUnder(s, e, 0);
    } else {
      match e
      case Dispatch(task, luck) =>
        var ws := DispatchWrites(s, task);
        if |ws| == 2 { CommitTwo(s.store, ws, luck); }
        if |ws| == 1 { CommitOne(s.store, ws); }
      case Cancel(seen, body, luck) =>
        if CancelReplyTo(seen, body).CancelAcknowledged? {
          CommitTwo(s.store, CancelWrites(s, seen, CancelId(seen, body).value), luck);
        }
      case Alarm(luck) =>
        var fired := s.(store := s.store.(alarm := None));
        CleanupShrinks(fired, luck);
        if s.store.report.Some? { WorkerAfterDeliver(fired, s.store.report.value, luck); }
      case Finish(result, luck) =>
        var r := Report(s.worker.task, Outcome(s, s.worker.aborted, result), 0, s.now + RETENTION_MS, false, s.serial + 1);
        if luck.writes > 0 {
          WorkerAfterDeliver(s.(store := Apply(s.store, PutReport(r)), serial := s.serial + 1), r, Luck(luck.writes - 1, luck.throws));
        }
      case Answered(accepted, luck) =>
        CleanupShrinks(s, luck);
        if luck.writes > 0 {
          CleanupShrinks(s.(store := Apply(s.store, PutReport(s.worker.report.(reported := true)))), Luck(luck.writes - 1, luck.throws));
        }
      case _ =>
    }
  }

  lemma {:induction false} WorkerAfterDeliver(s: State, r: Report, luck: Luck)
    ensures Deliver(s, r, luck).worker.Idle? || Deliver(s, r, luck).worker.Signing?
  {
    if Spent(s, r) { CleanupShrinks(s, luck); }
  }

  /** While a cancellation record is stored, expired or not: no model call starts, every callback begun is
      `cancelled`, and so is every report stored for a task that had none when the record was there. */
  lemma {:induction false} RecordSilences(es: seq<Event>, more: seq<Event>)
    requires forall k :: 0 <= k <= |more| ==> Run(Run(INIT, es), more[..k]).store.cancelled.Some?
    ensures var s, t := Run(INIT, es), Run(Run(INIT, es), more);
      Inv(t) && Recorded(t) && SilentSince(s, t)
  {
    var s := Run(INIT, es);
    if more == [] {
      assert more[..0] == [];
      RunKeepsInv(es);
      RecordAborts(es);
    } else {
      var fewer := more[..|more| - 1];
      forall k | 0 <= k <= |fewer| ensures Run(s, fewer[..k]).store.cancelled.Some? { assert fewer[..k] == more[..k]; }
      RecordSilences(es, fewer);
      var u, e := Run(s, fewer), more[|more| - 1];
      assert more[..|more|] == more;
      if Enabled(u, e) {
        StepUnder(u, e, 0);
        StepKeepsInv(u, e);
        SilentFurther(s, u, Step(u, e));
      }
    }
  }

  /** From every reachable state in which the object is free: the alarm of an accepted dispatch generates
      unaborted, and may call the model, if and only if no cancellation record is stored; an expired record
      that has not been cleaned up aborts the task it let in. */
  lemma {:induction false} ExpiredRecordIff(es: seq<Event>, task: Task, luck: Luck, next: Luck)
    requires var s := Run(INIT, es); s.worker.Idle? && Owner(s.store).None? && DispatchReplyTo(s, task).Accepted? && luck.writes >= 2
    ensures var s := Run(INIT, es);
      var t := Step(s, Dispatch(task, luck));
      && Enabled(t, Alarm(next))
      && var u := Step(t, Alarm(next));
         && u.worker.Generating? && u.worker.task == task && u.generations == s.generations + [task]
         && (u.worker.aborted.None? <==> s.store.cancelled.None?)
         && (Enabled(u, ModelCall) <==> s.store.cancelled.None?)
  {
    CommitTwo(Run(INIT, es).store, DispatchWrites(Run(INIT, es), task), luck);
  }

  // ---------------------------------------------------------------- two runs

  const ALL := Luck(8, false)

  ghost predicate Reachable(s: State) { exists es :: Run(INIT, es) == s }

  lemma {:induction false} ReachNext(s: State, e: Event, t: State)
    requires Reachable(s) && Enabled(s, e) && Step(s, e) == t
    ensures Reachable(t)
  {
    var es :| Run(INIT, es) == s;
    assert (es + [e])[..|es|] == es;
    assert Run(INIT, es + [e]) == t;
  }

  function FirstReport(task: Task, text: string, attempts: nat): Report {
    Report(task, Completed(Clip(text, MAX_RESULT_CHARS)), attempts, RETENTION_MS, false, 1)
  }

  /** A task has been generated at time 0 and its result is being signed, while a cancel has read the task. */
  function SigningResult(task: Task, text: string): State {
    var r := FirstReport(task, text, 1);
    State(0, Store(Some(task), None, Some(r), Some(1000)), Signing(r), {Some(task)}, 1, [task], [], [r], [])
  }

  lemma {:induction false} GeneratingIsReachable(task: Task)
    ensures Reachable(INIT.(store := Store(Some(task), None, None, None), worker := Generating(task, None), generations := [task]))
  {
    assert Run(INIT, []) == INIT;
    var s1 := INIT.(store := Store(Some(task), None, None, Some(0)));
    CommitTwo(INIT.store, DispatchWrites(INIT, task), ALL);
    ReachNext(INIT, Dispatch(task, ALL), s1);
    ReachNext(s1, Alarm(ALL), s1.(store := Store(Some(task), None, None, None), worker := Generating(task, None), generations := [task]));
  }

  lemma {:induction false} SigningIsReachable(task: Task, text: string)
    requires task.deadline > 0
    ensures Reachable(SigningResult(task, text))
  {
    GeneratingIsReachable(task);
    var s2 := INIT.(store := Store(Some(task), None, None, None), worker := Generating(task, None), generations := [task]);
    var mid := s2.(store := Store(Some(task), None, Some(FirstReport(task, text, 0)), None), serial := 1);
    CommitTwo(mid.store, DeliverWrites(mid, FirstReport(task, text, 0)), Luck(7, false));
    assert RetryAt(0, FirstReport(task, text, 1)) == 1000;
    var s3 := SigningResult(task, text).(readers := {});
    ReachNext(s2, Finish(Ok(text), ALL), s3);
    ReachNext(s3, CancelRead, SigningResult(task, text));
  }

  /** The exception is real: a result being signed is sent as completed after the acknowledgement. */
  lemma {:induction false} ResultMayFollowCancel(task: Task, text: string)
    requires task.deadline > 0
    ensures Reachable(SigningResult(task, text))
    ensures Enabled(SigningResult(task, text), Cancel(Some(task), None, ALL)) && CancelReplyTo(Some(task), None).CancelAcknowledged?
    ensures var s := Step(SigningResult(task, text), Cancel(Some(task), None, ALL));
      Enabled(s, Post) && Step(s, Post).posts == [FirstReport(task, text, 1)]
  {
    SigningIsReachable(task, text);
  }

  function LateDispatch(id: TaskId): State {
    INIT.(now := RETENTION_MS, readers := {None}, store := Store(None, Some(Cancellation(id, RETENTION_MS)), None, Some(RETENTION_MS)))
  }

  lemma {:induction false} LateIsReachable(id: TaskId)
    ensures Reachable(LateDispatch(id))
  {
    assert Run(INIT, []) == INIT;
    var s1 := INIT.(readers := {None});
    ReachNext(INIT, CancelRead, s1);
    CommitTwo(s1.store, CancelWrites(s1, None, id), ALL);
    var s2 := LateDispatch(id).(now := 0);
    ReachNext(s1, Cancel(None, Some(id), ALL), s2);
    ReachNext(s2, Tick(RETENTION_MS), LateDispatch(id));
  }

  /** A tombstone that has expired but is not yet cleaned up still cancels a task accepted in between. */
  lemma {:induction false} ExpiredTombstoneCancels(task: Task)
    ensures Reachable(LateDispatch(task.id)) && DispatchReplyTo(LateDispatch(task.id), task).Accepted?
    ensures var s := Dispatched(LateDispatch(task.id), task, ALL);
      Enabled(s, Alarm(ALL)) && AlarmStep(s, ALL).worker == Generating(task, Some(ByCancel))
  {
    LateIsReachable(task.id);
    CommitTwo(LateDispatch(task.id).store, DispatchWrites(LateDispatch(task.id), task), ALL);
  }

  // ---------------------------------------------------------------- the handlers in place

  class Subagent {
    var now: nat
    var task: Option<Task>
    var cancelled: Option<Cancellation>
    var report: Option<Report>
    var alarm: Option<nat>
    var worker: Worker
    var readers: set<Option<Task>>
    var serial: nat
    ghost var generations: seq<Task>
    ghost var modelCalls: seq<TaskId>
    ghost var attempts: seq<Report>
    ghost var posts: seq<Report>

    ghost function View(): State
      reads this
    {
      State(now, Store(task, cancelled, report, alarm), worker, readers, serial, generations, modelCalls, attempts, posts)
    }

    constructor ()
      ensures View() == INIT
    {
      now, task, cancelled, report, alarm, worker, readers, serial := 0, None, None, None, None, Idle, {}, 0;
      generations, modelCalls, attempts, posts := [], [], [], [];
    }

    method HandleDispatch(incoming: Task) returns (reply: DispatchReply)
      modifies this`task, this`alarm
      ensures reply == DispatchReplyTo(old(View()), incoming)
      ensures View() == Step(old(View()), Dispatch(incoming, ALL))
    {
      ghost var s := View();
      if cancelled.Some? && cancelled.value.expiresAt > now { return AlreadyCancelled; }
      if task.Some? || report.Some? {
        var owner := if task.Some? then task.value.id else report.value.task.id;
        if owner != incoming.id { return Conflict; }
        CommitOne(s.store, [SetAlarm(now)]);
        alarm := Some(now);
        return Accepted;
      }
      CommitTwo(s.store, DispatchWrites(s, incoming), ALL);
      task := Some(incoming);
      alarm := Some(now);
      return Accepted;
    }

    /** handleCancel after its awaits, with the task as it was read before them. */
    method HandleCancel(seen: Option<Task>, body: Option<TaskId>) returns (reply: CancelReply)
      requires seen in readers
      modifies this`cancelled, this`alarm, this`worker
      ensures reply == CancelReplyTo(seen, body)
      ensures View() == Step(old(View()), Cancel(seen, body, ALL))
    {
      ghost var s := View();
      var id := if body.Some? then body else if seen.Some? then Some(seen.value.id) else None;
      if id.None? { return NothingToCancel; }
      if seen.Some? && seen.value.id != id.value { return TaskMismatch; }
      CommitTwo(s.store, CancelWrites(s, seen, id.value), ALL);
      cancelled := Some(Cancellation(id.value, now + RETENTION_MS));
      if worker.Generating? && worker.aborted.None? { worker := worker.(aborted := Some(ByCancel)); }
      alarm := Some(if seen.Some? then now else now + RETENTION_MS);
      return CancelAcknowledged;
    }

    method CleanUp()
      modifies this`task, this`cancelled, this`report, this`alarm, this`worker
      ensures View() == Cleanup(old(View()), ALL)
    {
      ghost var s := View();
      CommitThree(s.store, CleanupWrites(s), ALL);
      task := None;
      if cancelled.Some? && cancelled.value.expiresAt > now {
        report := None;
        alarm := Some(cancelled.value.expiresAt);
      } else {
        cancelled, report := None, None;
        alarm := None;
      }
      worker := Idle;
    }

    method DeliverReport(r: Report)
      requires report == Some(r)
      modifies this`task, this`cancelled, this`report, this`alarm, this`worker, this`attempts
      ensures View() == Deliver(old(View()), r, ALL)
    {
      ghost var s := View();
      if r.reported || r.attempts >= MAX_REPORT_ATTEMPTS || r.expiresAt <= now {
        CleanUp();
        return;
      }
      CommitTwo(s.store, DeliverWrites(s, r), ALL);
      var next := r;
      if cancelled.Some? { next := next.(payload := Cancelled); }
      next := next.(attempts := next.attempts + 1);
      report := Some(next);
      alarm := Some(RetryAt(now, next));
      worker := Signing(next);
      attempts := attempts + [next];
    }

    /** alarm() up to its first external await. */
    method StartAlarm()
      requires Enabled(View(), Alarm(ALL))
      modifies this
      ensures View() == Step(old(View()), Alarm(ALL))
    {
      alarm := None;
      if report.Some? {
        DeliverReport(report.value);
      } else if task.None? {
        CleanUp();
      } else {
        worker := Generating(task.value, if cancelled.Some? then Some(ByCancel) else None);
        generations := generations + [task.value];
      }
    }

    /** The callback's answer, or its failure. */
    method CallbackAnswered(accepted: bool)
      requires Enabled(View(), Answered(accepted, Luck(9, false)))
      modifies this`task, this`cancelled, this`report, this`alarm, this`worker
      ensures View() == Step(old(View()), Answered(accepted, Luck(9, false)))
    {
      var r := worker.report;
      if accepted {
        report := Some(r.(reported := true));
        CleanUp();
      } else if r.attempts >= MAX_REPORT_ATTEMPTS {
        CleanUp();
        assert Cleanup(old(View()), ALL) == Cleanup(old(View()), Luck(9, false));
      } else {
        worker := Idle;
      }
    }
  }
}
