/** The life of every task, batch and message of the coordinator as the events about it alone tell it. */
module SubagentStories {
  import opened Prelude
  import opened SubagentBatches
  import opened SubagentBatchProofs
  import opened SubagentOutcomes
  import SubagentResults

  function Entry<K, V>(m: map<K, V>, k: K): Option<V> { if k in m then Some(m[k]) else None }

  // ---------------------------------------------------------------- what an event means for a batch

  /** The picked job clears batch `b` away. */
  predicate Ends(s: State, b: BatchId)
    requires s.alarm.Picked?
  {
    && b == s.alarm.id.batch && b in s.batches
    && (s.alarm.retry >= 5 || (s.alarm.id.SynthesisJob? && AllSettled(s, b)))
    && match s.batches[b].status
       case Synthesizing => false
       case Active => (s.alarm.retry >= 5 || s.batches[b].origin.Chat?)
                      && !(s.batches[b].conversation.Some? && s.batches[b].conversation.value in s.processing)
       case _ => true
  }

  /** The stop request names the batch's conversation and, if it names a request, that too. */
  predicate Stopped(row: Batch, c: ConversationId, request: Option<RequestId>) {
    row.status.Active? && row.conversation == Some(c) && (request.None? || request == row.request)
  }

  // ---------------------------------------------------------------- tasks

  function NextTask(s: State, e: Event, t: TaskId, before: Option<Task>): Option<Task>
    requires Enabled(s, e)
  {
    match before
    case None =>
      if e.EvSpawn? && t in e.tasks then Some(Task(e.batch, Queued, None, 0, None, s.now + 300_000)) else None
    case Some(row) =>
      match e
      case EvCallback(task, status, result) =>
        if task == t && !row.status.Terminal() then Some(row.(status := status, result := result)) else before
      case EvRunPicked =>
        if Ends(s, row.batch) then None
        else if s.alarm.id == DeadlineJob(row.batch) && s.alarm.retry < 5 && !row.status.Terminal() && row.deadline <= s.now
        then Some(row.(status := Timeout, result := None)) else before
      case EvWakeEnds(_) => if row.batch == s.alarm.batch then None else before
      case EvClaim(retry, claims) =>
        if t in retry && row.attempt >= 3 then Some(row.(status := if row.deadline <= s.now then Timeout else Failed, result := None))
        else if t in retry || t in claims then Some(row.(status := Dispatched, attempt := row.attempt + 1, startedAt := Some(s.now)))
        else before
      case EvDispatchResults(accepted) =>
        if t !in s.pump.claimed then before
        else if t in accepted then Some(if row.status.Dispatched? then row.(status := Running) else row)
        else if !row.status.Terminal() && (s.pump.claimed[t] >= 2 || row.deadline <= s.now)
        then Some(row.(status := if row.deadline <= s.now then Timeout else Failed, result := None)) else before
      case EvCancelTurn(c, request) =>
        if row.batch in s.batches && Stopped(s.batches[row.batch], c, request) then None else before
      case EvRestart =>
        if row.batch in s.batches && !Expired(s.batches[row.batch], s.now) && !s.batches[row.batch].status.Active? then None
        else Some(if row.status.Dispatched? then row.(startedAt := None) else row)
      case _ => before
  }

  /** A batch row finished more than a day ago. */
  predicate Expired(row: Batch, now: nat) { row.finishedAt.Some? && row.finishedAt.value + 86_400_000 < now }

  ghost function TaskStory(cap: nat, es: seq<Event>, t: TaskId): Option<Task> {
    if es == [] then None
    else
      var s, e := Run(Init(cap), es[..|es| - 1]), es[|es| - 1];
      if Enabled(s, e) then NextTask(s, e, t, TaskStory(cap, es[..|es| - 1], t)) else TaskStory(cap, es[..|es| - 1], t)
  }

  predicate TaskTells(s: State, e: Event, u: State, t: TaskId)
    requires Enabled(s, e)
  {
    Entry(u.tasks, t) == NextTask(s, e, t, Entry(s.tasks, t))
  }

  lemma {:induction false} EndsIff(s: State, b: BatchId)
    requires s.alarm.Picked?
    ensures Ends(s, b) <==>
      b == s.alarm.id.batch && b in s.batches &&
      (if Decides(s) then !(s.alarm.retry < 5 && s.batches[b].origin.Wake?) && !Busy(s, b)
       else !s.batches[b].Open() && (s.alarm.retry >= 5 || (s.alarm.id.SynthesisJob? && AllSettled(s, b))))
  {
  }

  lemma {:induction false} ClosedTells(s: State, u: State, b: BatchId, status: BatchStatus, t: TaskId)
    requires Ended(s, u, b, status)
    ensures Entry(u.tasks, t) == if t in s.tasks && s.tasks[t].batch == b then None else Entry(s.tasks, t)
  {
  }

  lemma {:induction false} DecidedTells(s: State, t: TaskId)
    requires Decides(s) && Decided(s, RunPicked(s))
    ensures TaskTells(s, EvRunPicked, RunPicked(s), t)
  {
    var b := s.alarm.id.batch;
    EndsIff(s, b);
    if Ends(s, b) {
      ClosedTells(s, RunPicked(s), b, if s.alarm.retry >= 5 then BatchFailed else BatchCompleted, t);
    }
  }

  lemma {:induction false} OtherwiseTells(s: State, t: TaskId)
    requires s.alarm.Picked? && !Decides(s)
    ensures TaskTells(s, EvRunPicked, RunPicked(s), t)
  {
    var b := s.alarm.id.batch;
    JobOtherwise(s);
    EndsIff(s, b);
    if Ends(s, b) { ClosedTells(s, RunPicked(s), b, s.batches[b].status, t); }
  }

  lemma {:induction false} SpawnTells(s: State, e: Event, t: TaskId)
    requires Enabled(s, e) && e.EvSpawn? && RowsAgree(s)
    ensures TaskTells(s, e, Step(s, e), t)
  {
    if t in s.tasks { assert t in s.order[s.tasks[t].batch]; }
  }

  lemma {:induction false} CallbackTells(s: State, e: Event, t: TaskId)
    requires Enabled(s, e) && e.EvCallback?
    ensures TaskTells(s, e, Step(s, e), t)
  {
  }

  lemma {:induction false} ExhaustedTells(s: State, retry: set<TaskId>, t: TaskId)
    requires (forall x :: x in retry ==> x in s.tasks && s.tasks[x].status.Dispatched?) && t in s.tasks
    ensures var s1 := SettleExhausted(s, retry);
      && t in s1.tasks && (t in Exhausted(s, retry) <==> t in retry && s.tasks[t].attempt >= 3)
      && s1.tasks[t] == if t in retry && s.tasks[t].attempt >= 3
                        then s.tasks[t].(status := if s.tasks[t].deadline <= s.now then Timeout else Failed, result := None) else s.tasks[t]
  {
  }

  lemma {:induction false} ClaimedTells(s: State, retry: set<TaskId>, claims: set<TaskId>, t: TaskId)
    requires s.pump.Claiming? && ClaimAllowed(s, retry, claims) && t in s.tasks
    ensures var u, row := Claim(s, retry, claims), s.tasks[t];
      t in u.tasks && u.tasks[t] ==
        if t in retry && row.attempt >= 3 then row.(status := if row.deadline <= s.now then Timeout else Failed, result := None)
        else if t in retry || t in claims then row.(status := Dispatched, attempt := row.attempt + 1, startedAt := Some(s.now)) else row
  {
    assert t in retry ==> Retryable(s, t);
    ExhaustedTells(s, retry, t);
    SubagentResults.ClaimedRowIs(s, retry, claims, t);
  }

  lemma {:induction false} ClaimTells(s: State, e: Event, t: TaskId)
    requires Enabled(s, e) && e.EvClaim?
    ensures TaskTells(s, e, Step(s, e), t)
  {
    SubagentResults.ClaimKeys(s, e.retry, e.claims);
    var u := Claim(s, e.retry, e.claims);
    assert Step(s, e) == u;
    if t in s.tasks {
      ClaimedTells(s, e.retry, e.claims, t);
      assert Entry(u.tasks, t) == Some(u.tasks[t]);
    } else {
      assert t !in u.tasks;
    }
  }

  lemma {:induction false} DispatchTells(s: State, e: Event, t: TaskId)
    requires Enabled(s, e) && e.EvDispatchResults?
    ensures TaskTells(s, e, Step(s, e), t)
  {
  }

  lemma {:induction false} CancelTells(s: State, e: Event, t: TaskId)
    requires Enabled(s, e) && e.EvCancelTurn?
    ensures TaskTells(s, e, Step(s, e), t)
  {
  }

  lemma {:induction false} RestartTells(s: State, e: Event, t: TaskId)
    requires Enabled(s, e) && e.EvRestart?
    ensures TaskTells(s, e, Step(s, e), t)
  {
    var kept := DeleteRetired(s.(alarm := AlarmIdle, pump := PumpIdle, processing := {}));
    assert t in s.tasks ==> t in TasksOf(kept, s.tasks[t].batch);
  }

  lemma {:induction false} PlainTells(s: State, e: Event, t: TaskId)
    requires Enabled(s, e) && !e.EvSpawn? && !e.EvCallback? && !e.EvRunPicked? && !e.EvClaim? && !e.EvDispatchResults?
    requires !e.EvCancelTurn? && !e.EvRestart?
    ensures TaskTells(s, e, Step(s, e), t)
  {
  }

  lemma {:induction false} StepTells(s: State, e: Event, t: TaskId)
    requires Enabled(s, e) && RowsAgree(s) && (e.EvRunPicked? && Decides(s) ==> Decided(s, RunPicked(s)))
    ensures TaskTells(s, e, Step(s, e), t)
  {
    match e
    case EvSpawn(_, _, _, _, _) => SpawnTells(s, e, t);
    case EvCallback(_, _, _) => CallbackTells(s, e, t);
    case EvRunPicked => if Decides(s) { DecidedTells(s, t); } else { OtherwiseTells(s, t); }
    case EvClaim(_, _) => ClaimTells(s, e, t);
    case EvDispatchResults(_) => DispatchTells(s, e, t);
    case EvCancelTurn(_, _) => CancelTells(s, e, t);
    case EvRestart => RestartTells(s, e, t);
    case _ => PlainTells(s, e, t);
  }

  /** In every run each task row is exactly what the events about it tell. */
  lemma {:induction false} TasksAreTheirStories(cap: nat, es: seq<Event>, t: TaskId)
    ensures Entry(Run(Init(cap), es).tasks, t) == TaskStory(cap, es, t)
  {
    if es != [] {
      var init, e := es[..|es| - 1], es[|es| - 1];
      var s := Run(Init(cap), init);
      TasksAreTheirStories(cap, init, t);
      RunKeepsInv(cap, init);
      if Enabled(s, e) {
        if e.EvRunPicked? && Decides(s) { PickDecides(s); }
        StepTells(s, e, t);
      }
    }
  }

  // ---------------------------------------------------------------- batches

  function NextBatch(s: State, e: Event, b: BatchId, before: Option<Batch>): Option<Batch>
    requires Enabled(s, e)
  {
    match before
    case None => if e.EvSpawn? && e.batch == b then Some(Batch(e.origin, e.conversation, e.request, Active, None)) else None
    case Some(row) =>
      match e
      case EvRunPicked =>
        if Ends(s, b) then
          Some(Batch(row.origin, row.conversation, row.request,
                     if !row.status.Active? then row.status else if s.alarm.retry >= 5 then BatchFailed else BatchCompleted, Some(s.now)))
        else if s.alarm.id == SynthesisJob(b) && s.alarm.retry < 5 && row.status.Active? && row.origin.Wake? && AllSettled(s, b)
        then Some(row.(status := Synthesizing)) else before
      case EvWakeEnds(ok) =>
        if b == s.alarm.batch then Some(Batch(row.origin, row.conversation, row.request, if ok then BatchCompleted else BatchFailed, Some(s.now)))
        else before
      case EvCancelTurn(c, request) =>
        if Stopped(row, c, request) then Some(Batch(row.origin, row.conversation, row.request, BatchCancelled, Some(s.now))) else before
      case EvDeleteRetired => if Expired(row, s.now) then None else before
      case EvRestart =>
        if Expired(row, s.now) then None
        else if row.status.Synthesizing? && TasksOf(s, b) != {}
        then Some(Batch(row.origin, row.conversation, row.request, BatchFailed, Some(s.now))) else before
      case _ => before
  }

  ghost function BatchStory(cap: nat, es: seq<Event>, b: BatchId): Option<Batch> {
    if es == [] then None
    else
      var s, e := Run(Init(cap), es[..|es| - 1]), es[|es| - 1];
      if Enabled(s, e) then NextBatch(s, e, b, BatchStory(cap, es[..|es| - 1], b)) else BatchStory(cap, es[..|es| - 1], b)
  }

  predicate BatchTells(s: State, e: Event, u: State, b: BatchId)
    requires Enabled(s, e)
  {
    Entry(u.batches, b) == NextBatch(s, e, b, Entry(s.batches, b))
  }

  lemma {:induction false} DecidedBatch(s: State, b: BatchId)
    requires Decides(s) && Decided(s, RunPicked(s))
    ensures BatchTells(s, EvRunPicked, RunPicked(s), b)
  {
    EndsIff(s, s.alarm.id.batch);
  }

  lemma {:induction false} OtherwiseBatch(s: State, b: BatchId)
    requires s.alarm.Picked? && !Decides(s)
    ensures BatchTells(s, EvRunPicked, RunPicked(s), b)
  {
    JobOtherwise(s);
    EndsIff(s, s.alarm.id.batch);
  }

  lemma {:induction false} RestartBatch(s: State, b: BatchId)
    ensures BatchTells(s, EvRestart, Restart(s), b)
  {
    var kept := DeleteRetired(s.(alarm := AlarmIdle, pump := PumpIdle, processing := {}));
    assert TasksOf(kept, b) == TasksOf(s, b);
  }

  /** A claim touches task rows and the pump alone. */
  lemma {:induction false} ClaimFrame(s: State, retry: set<TaskId>, claims: set<TaskId>)
    requires s.pump.Claiming? && ClaimAllowed(s, retry, claims)
    ensures var u := Claim(s, retry, claims); u == s.(tasks := u.tasks, pump := u.pump)
  {
    var s1 := SettleExhausted(s, retry);
    assert s1 == s.(tasks := s1.tasks);
  }

  lemma {:induction false} DispatchBatches(s: State, e: Event)
    requires Enabled(s, e) && (e.EvDispatchResults? || e.EvCallback? || e.EvTouch?)
    ensures Step(s, e).batches == s.batches
  {
  }

  lemma {:induction false} WakeBatch(s: State, e: Event, b: BatchId)
    requires Enabled(s, e) && e.EvWakeEnds?
    ensures BatchTells(s, e, Step(s, e), b)
  {
  }

  lemma {:induction false} CancelBatch(s: State, e: Event, b: BatchId)
    requires Enabled(s, e) && e.EvCancelTurn?
    ensures BatchTells(s, e, Step(s, e), b)
  {
  }

  lemma {:induction false} SpawnBatch(s: State, e: Event, b: BatchId)
    requires Enabled(s, e) && e.EvSpawn? && (forall x :: x in s.batches ==> x in s.order)
    ensures BatchTells(s, e, Step(s, e), b)
  {
  }

  lemma {:induction false} RetireBatch(s: State, b: BatchId)
    ensures BatchTells(s, EvDeleteRetired, DeleteRetired(s), b)
  {
  }

  /** The events of the alarm touch jobs and the alarm alone. */
  lemma {:induction false} PickFrame(s: State, e: Event)
    requires Enabled(s, e) && (e.EvPick? || e.EvDeadlineCancelled? || e.EvDeadlineEnds? || e.EvAlarmThrew?)
    ensures var u := Step(s, e); u == s.(jobs := u.jobs, alarm := u.alarm)
  {
  }

  lemma {:induction false} EndFrame(s: State, e: Event)
    requires Enabled(s, e) && (e.EvDeadlineThrew? || e.EvAfterJob?)
    ensures var u := Step(s, e); u == s.(jobs := u.jobs, alarm := u.alarm)
  {
  }

  lemma {:induction false} PlainBatches(s: State, e: Event)
    requires Enabled(s, e) && (e.Tick? || e.EvPumpStarts? || e.EvPumpEnds? || e.EvTurnStarts? || e.EvTurnEnds?
                               || e.EvCreateConversation? || e.EvDeleteConversation? || e.EvClearMessages?)
    ensures Step(s, e).batches == s.batches
  {
  }

  lemma {:induction false} OtherBatch(s: State, e: Event, b: BatchId)
    requires Enabled(s, e) && !e.EvRunPicked? && !e.EvRestart? && (forall x :: x in s.batches ==> x in s.order)
    ensures BatchTells(s, e, Step(s, e), b)
  {
    match e
    case EvSpawn(_, _, _, _, _) => SpawnBatch(s, e, b);
    case EvClaim(retry, claims) => ClaimFrame(s, retry, claims);
    case EvDispatchResults(_) => DispatchBatches(s, e);
    case EvCallback(_, _, _) => DispatchBatches(s, e);
    case EvTouch(_) => DispatchBatches(s, e);
    case EvWakeEnds(_) => WakeBatch(s, e, b);
    case EvCancelTurn(_, _) => CancelBatch(s, e, b);
    case EvDeleteRetired => RetireBatch(s, b);
    case _ =>
      if e.EvPick? || e.EvDeadlineCancelled? || e.EvDeadlineEnds? || e.EvAlarmThrew? {
        PickFrame(s, e);
      } else if e.EvDeadlineThrew? || e.EvAfterJob? {
        EndFrame(s, e);
      } else {
        PlainBatches(s, e);
      }
  }

  /** In every run each batch row is exactly what the events about it tell. */
  lemma {:induction false} BatchesAreTheirStories(cap: nat, es: seq<Event>, b: BatchId)
    ensures Entry(Run(Init(cap), es).batches, b) == BatchStory(cap, es, b)
  {
    if es != [] {
      var init, e := es[..|es| - 1], es[|es| - 1];
      var s := Run(Init(cap), init);
      BatchesAreTheirStories(cap, init, b);
      RunKeepsInv(cap, init);
      if Enabled(s, e) {
        if e.EvRunPicked? && Decides(s) {
          PickDecides(s);
          DecidedBatch(s, b);
        } else if e.EvRunPicked? {
          OtherwiseBatch(s, b);
        } else if e.EvRestart? {
          RestartBatch(s, b);
        } else {
          OtherBatch(s, e, b);
        }
      }
    }
  }

  // ---------------------------------------------------------------- messages

  /** A section for every task of `ts`, in order. */
  function Told(s: State, ts: seq<TaskId>): seq<Section> {
    seq(|ts|, k requires 0 <= k < |ts| =>
      if ts[k] in s.tasks then Section(ts[k], s.tasks[ts[k]].status, s.tasks[ts[k]].result) else Section(ts[k], Queued, None))
  }

  /** The picked job answers batch `b` in conversation `c`. */
  predicate Replies(s: State, b: BatchId, c: ConversationId)
    requires s.alarm.Picked?
  {
    Ends(s, b) && s.batches[b].status.Active? && s.batches[b].conversation == Some(c) && c in s.conversations && b in s.order
  }

  function NextMessage(s: State, e: Event, b: BatchId, before: Option<MessageRow>): Option<MessageRow>
    requires Enabled(s, e)
  {
    match e
    case EvRunPicked =>
      if b in s.batches && s.batches[b].conversation.Some? && Replies(s, b, s.batches[b].conversation.value) then
        Some(MessageRow(s.batches[b].conversation.value, if s.alarm.retry >= 5 then CouldNotDeliver else Findings(Told(s, s.order[b]))))
      else before
    case EvClearMessages(c) => if before.Some? && before.value.conversation == c then None else before
    case _ => before
  }

  ghost function MessageStory(cap: nat, es: seq<Event>, b: BatchId): Option<MessageRow> {
    if es == [] then None
    else
      var s, e := Run(Init(cap), es[..|es| - 1]), es[|es| - 1];
      if Enabled(s, e) then NextMessage(s, e, b, MessageStory(cap, es[..|es| - 1], b)) else MessageStory(cap, es[..|es| - 1], b)
  }

  lemma {:induction false} PostedMessage(s: State, u: State, b: BatchId, content: Content)
    requires b in s.batches && Posts(s, u, b, content)
    ensures forall x :: x != b ==> Entry(u.messages, x) == Entry(s.messages, x)
    ensures var conversation := s.batches[b].conversation;
      Entry(u.messages, b) == if conversation.Some? && conversation.value in s.conversations then Some(MessageRow(conversation.value, content))
                              else Entry(s.messages, b)
  {
  }

  lemma {:induction false} AllTold(s: State, b: BatchId, content: Content)
    requires TellsAll(s, b, content)
    ensures content == Findings(Told(s, s.order[b]))
  {
    assert content.sections == Told(s, s.order[b]);
  }

  lemma {:induction false} DecidedMessage(s: State, b: BatchId)
    requires Decides(s) && Decided(s, RunPicked(s)) && s.alarm.id.batch in s.order
    ensures Entry(RunPicked(s).messages, b) == NextMessage(s, EvRunPicked, b, Entry(s.messages, b))
  {
    var u, d, given := RunPicked(s), s.alarm.id.batch, s.alarm.retry >= 5;
    EndsIff(s, d);
    if Ends(s, d) {
      var content :| Posts(s, u, d, content) && (if given then content == CouldNotDeliver else TellsAll(s, d, content));
      PostedMessage(s, u, d, content);
      if !given { AllTold(s, d, content); }
    }
  }

  lemma {:induction false} OtherwiseMessage(s: State, b: BatchId)
    requires s.alarm.Picked? && !Decides(s)
    ensures Entry(RunPicked(s).messages, b) == NextMessage(s, EvRunPicked, b, Entry(s.messages, b))
  {
    JobOtherwise(s);
    EndsIff(s, s.alarm.id.batch);
  }

  lemma {:induction false} RestartMessages(s: State)
    ensures Restart(s).messages == s.messages
  {
  }

  lemma {:induction false} TableMessages(s: State, e: Event)
    requires Enabled(s, e) && (e.EvSpawn? || e.EvCallback? || e.EvDispatchResults? || e.EvTouch? || e.EvCancelTurn?)
    ensures Step(s, e).messages == s.messages
  {
  }

  lemma {:induction false} OtherMessage(s: State, e: Event, b: BatchId)
    requires Enabled(s, e) && !e.EvRunPicked?
    ensures Entry(Step(s, e).messages, b) == NextMessage(s, e, b, Entry(s.messages, b))
  {
    if e.EvSpawn? || e.EvCallback? || e.EvDispatchResults? || e.EvTouch? || e.EvCancelTurn? {
      TableMessages(s, e);
    } else if e.EvClaim? {
      ClaimFrame(s, e.retry, e.claims);
    } else if e.EvRestart? {
      RestartMessages(s);
    }
  }

  /** In every run the message of a batch is exactly what the events tell: posted once by the job that closes the batch,
      section by section, and gone with its conversation's messages. */
  lemma {:induction false} MessagesAreTheirStories(cap: nat, es: seq<Event>, b: BatchId)
    ensures Entry(Run(Init(cap), es).messages, b) == MessageStory(cap, es, b)
  {
    if es != [] {
      var init, e := es[..|es| - 1], es[|es| - 1];
      var s := Run(Init(cap), init);
      MessagesAreTheirStories(cap, init, b);
      RunKeepsInv(cap, init);
      if Enabled(s, e) {
        if e.EvRunPicked? && Decides(s) {
          PickDecides(s);
          DecidedMessage(s, b);
        } else if e.EvRunPicked? {
          OtherwiseMessage(s, b);
        } else {
          OtherMessage(s, e, b);
        }
      }
    }
  }

  // ---------------------------------------------------------------- the dispatch pump

  /** Rows that have used up their three attempts. */
  function Spent(s: State, retry: set<TaskId>): set<TaskId> { set t | t in retry && t in s.tasks && s.tasks[t].attempt >= 3 }

  function BatchesOf(s: State, ts: set<TaskId>): set<BatchId> { set t | t in ts && t in s.tasks :: s.tasks[t].batch }

  function AttemptsOf(s: State, ts: set<TaskId>): map<TaskId, nat> { map t | t in ts && t in s.tasks :: s.tasks[t].attempt }

  function Claimed(s: State, touched: set<BatchId>, spent: set<TaskId>, claimed: set<TaskId>): Pump {
    if claimed == {} then Touching(touched + BatchesOf(s, spent)) else AwaitingChildren(AttemptsOf(s, claimed), touched + BatchesOf(s, spent))
  }

  function NextPump(s: State, e: Event): Pump
    requires Enabled(s, e)
  {
    match e
    case EvPumpStarts => Claiming({})
    case EvClaim(retry, claims) =>
      Claimed(s, s.pump.touched, Spent(s, retry), (retry - Spent(s, retry)) + claims)
    case EvDispatchResults(accepted) =>
      var touched := s.pump.touched + BatchesOf(s, s.pump.claimed.Keys);
      if forall t :: t in s.pump.claimed ==> t in accepted then Touching(touched) else Claiming(touched)
    case EvTouch(b) => Touching(s.pump.touched - {b})
    case EvPumpEnds => PumpIdle
    case EvRestart => PumpIdle
    case _ => s.pump
  }

  lemma {:induction false} ExhaustedIs(s: State, retry: set<TaskId>)
    requires forall t :: t in retry ==> t in s.tasks
    ensures Exhausted(s, retry) == Spent(s, retry)
    ensures (set t | t in Exhausted(s, retry) :: s.tasks[t].batch) == BatchesOf(s, Spent(s, retry))
  {
  }

  lemma {:induction false} AttemptsAre(s: State, ts: set<TaskId>)
    requires forall t :: t in ts ==> t in s.tasks
    ensures (map t | t in ts :: s.tasks[t].attempt) == AttemptsOf(s, ts)
  {
  }

  lemma {:induction false} NothingClaimed(s: State, retry: set<TaskId>, claims: set<TaskId>)
    requires s.pump.Claiming? && ClaimAllowed(s, retry, claims) && (retry - Exhausted(s, retry)) + claims == {}
    ensures Claim(s, retry, claims).pump == Claimed(s, s.pump.touched, Spent(s, retry), {})
  {
    ExhaustedIs(s, retry);
    assert Claim(s, retry, claims).pump == Touching(s.pump.touched + set t | t in Exhausted(s, retry) :: s.tasks[t].batch);
  }

  lemma {:induction false} SomeClaimed(s: State, retry: set<TaskId>, claims: set<TaskId>, claimed: set<TaskId>)
    requires s.pump.Claiming? && ClaimAllowed(s, retry, claims) && claimed == (retry - Exhausted(s, retry)) + claims && claimed != {}
    ensures Claim(s, retry, claims).pump == Claimed(s, s.pump.touched, Spent(s, retry), claimed)
  {
    ExhaustedIs(s, retry);
    AttemptsAre(s, claimed);
    assert Claim(s, retry, claims).pump == AwaitingChildren(map t | t in claimed :: s.tasks[t].attempt,
                                                            s.pump.touched + set t | t in Exhausted(s, retry) :: s.tasks[t].batch);
  }

  lemma {:induction false} ClaimPump(s: State, retry: set<TaskId>, claims: set<TaskId>)
    requires s.pump.Claiming? && ClaimAllowed(s, retry, claims)
    ensures Claim(s, retry, claims).pump == Claimed(s, s.pump.touched, Spent(s, retry), (retry - Spent(s, retry)) + claims)
  {
    ExhaustedIs(s, retry);
    var claimed := (retry - Exhausted(s, retry)) + claims;
    if claimed == {} { NothingClaimed(s, retry, claims); } else { SomeClaimed(s, retry, claims, claimed); }
  }

  lemma {:induction false} RunPickedPump(s: State)
    requires s.alarm.Picked? && (Decides(s) ==> Decided(s, RunPicked(s)))
    ensures RunPicked(s).pump == s.pump
  {
    if !Decides(s) { JobOtherwise(s); }
  }

  lemma {:induction false} DispatchPump(s: State, accepted: set<TaskId>)
    requires s.pump.AwaitingChildren?
    ensures DispatchResults(s, accepted).pump == NextPump(s, EvDispatchResults(accepted))
  {
  }

  lemma {:induction false} TablePump(s: State, e: Event)
    requires Enabled(s, e) && (e.EvSpawn? || e.EvCallback? || e.EvTouch? || e.EvCancelTurn? || e.EvRestart? || e.EvWakeEnds?)
    ensures Step(s, e).pump == NextPump(s, e)
  {
  }

  lemma {:induction false} StepPumps(s: State, e: Event)
    requires Enabled(s, e) && (e.EvRunPicked? && Decides(s) ==> Decided(s, RunPicked(s)))
    ensures Step(s, e).pump == NextPump(s, e)
  {
    match e
    case EvClaim(retry, claims) => ClaimPump(s, retry, claims);
    case EvDispatchResults(accepted) => DispatchPump(s, accepted);
    case EvRunPicked => RunPickedPump(s);
    case _ => if e.EvSpawn? || e.EvCallback? || e.EvTouch? || e.EvCancelTurn? || e.EvRestart? || e.EvWakeEnds? { TablePump(s, e); }
  }

  /** In every reachable state every event moves the dispatch pump as it must: what was claimed is what is awaited, and
      every batch it touched is looked at before it stops. */
  lemma {:induction false} PumpMoves(cap: nat, es: seq<Event>, e: Event)
    requires Enabled(Run(Init(cap), es), e)
    ensures Step(Run(Init(cap), es), e).pump == NextPump(Run(Init(cap), es), e)
  {
    RunKeepsInv(cap, es);
    var s := Run(Init(cap), es);
    if e.EvRunPicked? && Decides(s) { PickDecides(s); }
    StepPumps(s, e);
  }

  // ---------------------------------------------------------------- jobs

  /** The callback settles the last open task of an active batch, or of one whose row is gone. */
  predicate Completes(s: State, t: TaskId, b: BatchId) {
    && t in s.tasks && s.tasks[t].batch == b && !s.tasks[t].status.Terminal() && (b in s.batches ==> s.batches[b].status.Active?)
    && forall x :: x in s.tasks && s.tasks[x].batch == b && x != t ==> s.tasks[x].status.Terminal()
  }

  /** Every task of the batch is settled or has run out, and there is one. */
  predicate RunsOut(s: State, b: BatchId) {
    TasksOf(s, b) != {} && forall t :: t in TasksOf(s, b) ==> s.tasks[t].status.Terminal() || s.tasks[t].deadline <= s.now
  }

  function PickedJob(s: State, id: JobId, before: Option<Job>): Option<Job>
    requires s.alarm.Picked?
  {
    var b, given := s.alarm.id.batch, s.alarm.retry >= 5;
    if id.batch != b then before
    else if Ends(s, b) then None
    else if Decides(s) && Busy(s, b) && id.SynthesisJob? && (given || s.batches[b].origin.Chat?) then
      Some(if given then Job(s.now + 30_000, Some(5)) else Job(s.now + 1_000, None))
    else if s.alarm.id.DeadlineJob? && !given && id.SynthesisJob? && (b in s.batches ==> s.batches[b].status.Active?) && RunsOut(s, b)
    then Some(Job(s.now, None)) else before
  }

  function NextJob(s: State, e: Event, id: JobId, before: Option<Job>): Option<Job>
    requires Enabled(s, e)
  {
    match e
    case EvSpawn(b, _, _, _, _) => if id == DeadlineJob(b) then Some(Job(s.now + 300_000, None)) else before
    case EvCallback(t, _, _) => if id.SynthesisJob? && Completes(s, t, id.batch) then Some(Job(s.now, None)) else before
    case EvPick(picked) => if id == picked then Some(Job(s.now + 30_000, Some(s.jobs[id].Retry() + 1))) else before
    case EvRunPicked => PickedJob(s, id, before)
    case EvDeadlineCancelled => if id == DeadlineJob(s.alarm.batch) then None else before
    case EvDeadlineThrew =>
      if id == DeadlineJob(s.alarm.batch) && s.alarm.retry < 3 then Some(Job(s.now + 60_000, Some(s.alarm.retry + 1))) else before
    case EvWakeEnds(_) => if id.batch == s.alarm.batch then None else before
    case EvAfterJob =>
      if id == s.alarm.id && id.SynthesisJob? && before == Some(Job(s.alarm.recoveryAt, Some(s.alarm.retry + 1))) then None else before
    case EvTouch(b) =>
      if id == SynthesisJob(b) && (b in s.batches ==> s.batches[b].status.Active?) && AllSettled(s, b) then Some(Job(s.now, None)) else before
    case EvCancelTurn(c, request) => if id.batch in s.batches && Stopped(s.batches[id.batch], c, request) then None else before
    case EvRestart => RecoveredJob(s, id, before)
    case _ => before
  }

  /** After a restart an interrupted batch has no job, and an active one without its job gets it: synthesis at once when its
      tasks are settled, otherwise its deadline. */
  function RecoveredJob(s: State, id: JobId, before: Option<Job>): Option<Job> {
    var b := id.batch;
    if b in s.batches && s.batches[b].status.Synthesizing? then None
    else if before.None? && b in s.batches && s.batches[b].status.Active? && (id.SynthesisJob? <==> AllSettled(s, b)) then
      Some(Job(if id.DeadlineJob? && b in s.order && s.order[b] != [] && s.order[b][0] in s.tasks && s.tasks[s.order[b][0]].deadline > s.now
               then s.tasks[s.order[b][0]].deadline else s.now, None))
    else before
  }

  predicate JobTells(s: State, e: Event, u: State, id: JobId)
    requires Enabled(s, e)
  {
    Entry(u.jobs, id) == NextJob(s, e, id, Entry(s.jobs, id))
  }

  lemma {:induction false} DecidedJob(s: State, id: JobId)
    requires Decides(s) && Decided(s, RunPicked(s))
    ensures Entry(RunPicked(s).jobs, id) == PickedJob(s, id, Entry(s.jobs, id))
  {
    var b := s.alarm.id.batch;
    EndsIff(s, b);
  }

  lemma {:induction false} TimedOutIff(s: State, u: State, b: BatchId)
    requires TimesOut(s, u, b)
    ensures AllSettled(u, b) <==> RunsOut(s, b)
  {
    assert TasksOf(u, b) == TasksOf(s, b);
    if RunsOut(s, b) {
      forall t | t in TasksOf(u, b) ensures u.tasks[t].status.Terminal() { assert t in TasksOf(s, b); }
    }
    if AllSettled(u, b) {
      forall t | t in TasksOf(s, b) ensures s.tasks[t].status.Terminal() || s.tasks[t].deadline <= s.now { assert t in TasksOf(u, b); }
    }
  }

  lemma {:induction false} TimedOutJob(s: State, u: State, id: JobId)
    requires s.alarm.Picked? && s.alarm.id.DeadlineJob? && s.alarm.retry < 5 && TimesOut(s, u, s.alarm.id.batch)
    ensures Entry(u.jobs, id) == PickedJob(s, id, Entry(s.jobs, id))
  {
    TimedOutIff(s, u, s.alarm.id.batch);
  }

  lemma {:induction false} SweptJob(s: State, id: JobId)
    requires s.alarm.Picked? && !Decides(s) && s.alarm.id.DeadlineJob? && s.alarm.retry < 5
    ensures Entry(RunPicked(s).jobs, id) == PickedJob(s, id, Entry(s.jobs, id))
  {
    var b := s.alarm.id.batch;
    DeadlineTimesOut(s, b, Swept(b, s.alarm.retry, false));
    assert RunPicked(s) == MaybeScheduleSynthesis(SweepTimeouts(s, b), b).(alarm := Swept(b, s.alarm.retry, false));
    TimedOutJob(s, RunPicked(s), id);
  }

  lemma {:induction false} ClearedJob(s: State, id: JobId)
    requires s.alarm.Picked? && !Decides(s) && !(s.alarm.id.DeadlineJob? && s.alarm.retry < 5)
    ensures Entry(RunPicked(s).jobs, id) == PickedJob(s, id, Entry(s.jobs, id))
  {
    JobOtherwise(s);
    EndsIff(s, s.alarm.id.batch);
  }

  lemma {:induction false} CompletesIff(s: State, t: TaskId, status: TaskStatus, result: Option<string>)
    requires t in s.tasks && !s.tasks[t].status.Terminal() && status.Terminal()
    ensures var b := s.tasks[t].batch;
      AllSettled(Settle(s, t, status, result), b) && (b in s.batches ==> s.batches[b].status.Active?) <==> Completes(s, t, b)
  {
    var b, u := s.tasks[t].batch, Settle(s, t, status, result);
    assert t in TasksOf(u, b) && TasksOf(u, b) == TasksOf(s, b);
    if AllSettled(u, b) {
      forall x | x in s.tasks && s.tasks[x].batch == b && x != t ensures s.tasks[x].status.Terminal() {
        assert x in TasksOf(u, b) && u.tasks[x] == s.tasks[x];
      }
    }
  }

  lemma {:induction false} CallbackJob(s: State, e: Event, id: JobId)
    requires Enabled(s, e) && e.EvCallback?
    ensures JobTells(s, e, Step(s, e), id)
  {
    if e.task in s.tasks && !s.tasks[e.task].status.Terminal() { CompletesIff(s, e.task, e.status, e.result); }
  }

  lemma {:induction false} AlarmJob(s: State, e: Event, id: JobId)
    requires Enabled(s, e) && (e.EvPick? || e.EvDeadlineCancelled? || e.EvDeadlineThrew? || e.EvWakeEnds? || e.EvAfterJob?)
    ensures JobTells(s, e, Step(s, e), id)
  {
  }

  lemma {:induction false} TableJob(s: State, e: Event, id: JobId)
    requires Enabled(s, e) && (e.EvSpawn? || e.EvTouch? || e.EvCancelTurn?)
    ensures JobTells(s, e, Step(s, e), id)
  {
  }

  lemma {:induction false} PlainJobs(s: State, e: Event)
    requires Enabled(s, e) && !e.EvSpawn? && !e.EvCallback? && !e.EvPick? && !e.EvRunPicked? && !e.EvDeadlineCancelled? && !e.EvDeadlineThrew?
    requires !e.EvWakeEnds? && !e.EvAfterJob? && !e.EvTouch? && !e.EvCancelTurn? && !e.EvRestart? && !e.EvClaim?
    ensures Step(s, e).jobs == s.jobs
  {
  }

  /** What is left of the tables before the active batches are equipped. */
  lemma {:induction false} Remaining(s: State, b: BatchId)
    requires RowsAgree(s)
    ensures var u := DropFinishedRows(FailInterrupted(DeleteRetired(s.(alarm := AlarmIdle, pump := PumpIdle, processing := {}))));
      && u.now == s.now && u.order == s.order
      && (b in s.batches && s.batches[b].status.Active? ==> b in u.batches && u.batches[b] == s.batches[b])
      && (b in u.batches && u.batches[b].status.Active? ==> b in s.batches && s.batches[b].status.Active?)
      && (forall t :: t in s.tasks && s.tasks[t].batch == b && b in s.batches && s.batches[b].status.Active? ==> t in u.tasks)
      && (forall t :: t in u.tasks ==> t in s.tasks && u.tasks[t] == s.tasks[t])
      && (forall id: JobId :: id.batch == b ==>
            Entry(u.jobs, id) == if b in s.batches && s.batches[b].status.Synthesizing? then None else Entry(s.jobs, id))
  {
    if b in s.batches && s.batches[b].Open() { assert s.order[b][0] in TasksOf(s, b); }
  }

  lemma {:induction false} SameBatchTasks(s: State, u: State, b: BatchId)
    requires forall t :: t in s.tasks && s.tasks[t].batch == b ==> t in u.tasks
    requires forall t :: t in u.tasks ==> t in s.tasks && u.tasks[t] == s.tasks[t]
    ensures TasksOf(u, b) == TasksOf(s, b) && (AllSettled(u, b) <==> AllSettled(s, b))
  {
    assert TasksOf(u, b) == TasksOf(s, b);
  }

  /** What recovery adds to the jobs of `u`. */
  lemma {:induction false} EquippedJob(u: State, id: JobId)
    ensures Entry(RecoverActive(u).jobs, id) ==
      if id in u.jobs then Some(u.jobs[id])
      else if id.batch in Unequipped(u) && id == RecoveryJob(u, id.batch) then Some(Job(RecoveryRunAt(u, id), None)) else None
  {
  }

  lemma {:induction false} RowsAreAll(s: State, u: State, b: BatchId)
    requires b in s.order && u.order == s.order && forall t :: t in s.order[b] ==> t in u.tasks
    ensures Rows(u, b) == s.order[b]
  {
  }

  lemma {:induction false} EquippedActive(u: State, id: JobId)
    requires id.batch in u.batches && u.batches[id.batch].status.Active? && TasksOf(u, id.batch) != {}
    ensures Entry(RecoverActive(u).jobs, id) ==
      if id in u.jobs then Some(u.jobs[id])
      else if id.SynthesisJob? <==> AllSettled(u, id.batch) then Some(Job(RecoveryRunAt(u, id), None)) else None
  {
    EquippedJob(u, id);
  }

  lemma {:induction false} ActiveJob(s: State, u: State, id: JobId)
    requires RowsAgree(s) && id.batch in s.batches && s.batches[id.batch].status.Active?
    requires u.now == s.now && u.order == s.order && id.batch in u.batches && u.batches[id.batch].status.Active?
    requires forall t :: t in s.tasks && s.tasks[t].batch == id.batch ==> t in u.tasks
    requires forall t :: t in u.tasks ==> t in s.tasks && u.tasks[t] == s.tasks[t]
    requires Entry(u.jobs, id) == Entry(s.jobs, id)
    ensures Entry(RecoverActive(u).jobs, id) == RecoveredJob(s, id, Entry(s.jobs, id))
  {
    var b := id.batch;
    assert s.order[b][0] in TasksOf(s, b);
    SameBatchTasks(s, u, b);
    RowsAreAll(s, u, b);
    EquippedActive(u, id);
  }

  lemma {:induction false} RestartJob(s: State, id: JobId)
    requires RowsAgree(s)
    ensures Entry(Restart(s).jobs, id) == RecoveredJob(s, id, Entry(s.jobs, id))
  {
    var u := DropFinishedRows(FailInterrupted(DeleteRetired(s.(alarm := AlarmIdle, pump := PumpIdle, processing := {}))));
    Remaining(s, id.batch);
    assert Restart(s).jobs == RecoverActive(u).jobs;
    if id.batch in s.batches && s.batches[id.batch].status.Active? {
      ActiveJob(s, u, id);
    } else {
      EquippedJob(u, id);
    }
  }

  lemma {:induction false} StepJobs(s: State, e: Event, id: JobId)
    requires Enabled(s, e) && RowsAgree(s) && (e.EvRunPicked? && Decides(s) ==> Decided(s, RunPicked(s)))
    ensures JobTells(s, e, Step(s, e), id)
  {
    if e.EvRunPicked? {
      if Decides(s) {
        DecidedJob(s, id);
      } else if s.alarm.id.DeadlineJob? && s.alarm.retry < 5 {
        SweptJob(s, id);
      } else {
        ClearedJob(s, id);
      }
    } else if e.EvCallback? {
      CallbackJob(s, e, id);
    } else if e.EvClaim? {
      ClaimFrame(s, e.retry, e.claims);
    } else if e.EvSpawn? || e.EvTouch? || e.EvCancelTurn? {
      TableJob(s, e, id);
    } else if e.EvPick? || e.EvDeadlineCancelled? || e.EvDeadlineThrew? || e.EvWakeEnds? || e.EvAfterJob? {
      AlarmJob(s, e, id);
    } else if e.EvRestart? {
      RestartJob(s, id);
    } else {
      PlainJobs(s, e);
    }
  }

  ghost function JobStory(cap: nat, es: seq<Event>, id: JobId): Option<Job> {
    if es == [] then None
    else
      var s, e := Run(Init(cap), es[..|es| - 1]), es[|es| - 1];
      if Enabled(s, e) then NextJob(s, e, id, JobStory(cap, es[..|es| - 1], id)) else JobStory(cap, es[..|es| - 1], id)
  }

  /** In every run each job is exactly what the events tell: made due, counted, tried again, recovered and dropped. */
  lemma {:induction false} JobsAreTheirStories(cap: nat, es: seq<Event>, id: JobId)
    ensures Entry(Run(Init(cap), es).jobs, id) == JobStory(cap, es, id)
  {
    if es != [] {
      var init, e := es[..|es| - 1], es[|es| - 1];
      var s := Run(Init(cap), init);
      JobsAreTheirStories(cap, init, id);
      RunKeepsInv(cap, init);
      if Enabled(s, e) {
        if e.EvRunPicked? && Decides(s) { PickDecides(s); }
        StepJobs(s, e, id);
      }
    }
  }

  // ---------------------------------------------------------------- the alarm and what is around it

  function NextAlarm(s: State, e: Event): Alarm
    requires Enabled(s, e)
  {
    match e
    case EvPick(id) => Picked(id, s.jobs[id].Retry(), s.now + 30_000)
    case EvRunPicked =>
      var b, retry := s.alarm.id.batch, s.alarm.retry;
      if s.alarm.id.DeadlineJob? && retry < 5 then Swept(b, retry, false)
      else if Decides(s) && retry < 5 && s.batches[b].origin.Wake? then WakeRunning(b, retry, s.alarm.recoveryAt)
      else Handled(s.alarm.id, retry, s.alarm.recoveryAt)
    case EvDeadlineCancelled => Swept(s.alarm.batch, s.alarm.retry, true)
    case EvWakeEnds(_) => Handled(SynthesisJob(s.alarm.batch), s.alarm.retry, s.alarm.recoveryAt)
    case _ =>
      if e.EvDeadlineThrew? || e.EvDeadlineEnds? || e.EvAfterJob? || e.EvAlarmThrew? || e.EvRestart? then AlarmIdle else s.alarm
  }

  /** The clock and the conversations, which the handlers only read. */
  predicate WorldMoves(s: State, e: Event, u: State) {
    && u.now == (if e.Tick? then s.now + e.ms else s.now)
    && u.processing == (if e.EvTurnStarts? then s.processing + {e.starts} else if e.EvTurnEnds? then s.processing - {e.ends}
                        else if e.EvRestart? then {} else s.processing)
    && u.conversations == (if e.EvCreateConversation? then s.conversations + {e.created}
                           else if e.EvDeleteConversation? then s.conversations - {e.deleted} else s.conversations)
    && u.cancellations == (if e.EvCancelTurn? then s.cancellations + Aborted(s, e.stopped, e.scope) else s.cancellations)
  }

  /** The tasks under way of the batches that a stop request reaches; their children are told to stop. */
  function Aborted(s: State, c: ConversationId, request: Option<RequestId>): set<TaskId> {
    set t | t in s.tasks && s.tasks[t].status.InFlight() && s.tasks[t].batch in s.batches && Stopped(s.batches[s.tasks[t].batch], c, request)
  }

  predicate AlarmTells(s: State, e: Event, u: State)
    requires Enabled(s, e)
  {
    u.alarm == NextAlarm(s, e) && WorldMoves(s, e, u)
  }

  lemma {:induction false} RunPickedAlarm(s: State)
    requires s.alarm.Picked? && (Decides(s) ==> Decided(s, RunPicked(s)))
    ensures AlarmTells(s, EvRunPicked, RunPicked(s))
  {
    if !Decides(s) { JobOtherwise(s); }
  }

  lemma {:induction false} ClaimAlarm(s: State, retry: set<TaskId>, claims: set<TaskId>)
    requires s.pump.Claiming? && ClaimAllowed(s, retry, claims)
    ensures AlarmTells(s, EvClaim(retry, claims), Claim(s, retry, claims))
  {
    ClaimFrame(s, retry, claims);
  }

  lemma {:induction false} CancelAborts(s: State, c: ConversationId, request: Option<RequestId>)
    ensures AlarmTells(s, EvCancelTurn(c, request), CancelTurn(s, c, request))
  {
    var bs := CancelTargets(s, c, request);
    assert (set t | t in s.tasks && s.tasks[t].batch in bs && s.tasks[t].status.InFlight()) == Aborted(s, c, request);
  }

  lemma {:induction false} RestartAlarm(s: State)
    ensures AlarmTells(s, EvRestart, Restart(s))
  {
  }

  lemma {:induction false} TableAlarm(s: State, e: Event)
    requires Enabled(s, e) && (e.EvSpawn? || e.EvCallback? || e.EvDispatchResults? || e.EvTouch? || e.EvWakeEnds?)
    ensures AlarmTells(s, e, Step(s, e))
  {
  }

  lemma {:induction false} PickAlarm(s: State, e: Event)
    requires Enabled(s, e) && (e.EvPick? || e.EvDeadlineCancelled? || e.EvDeadlineEnds? || e.EvAlarmThrew?)
    ensures AlarmTells(s, e, Step(s, e))
  {
  }

  lemma {:induction false} EndAlarm(s: State, e: Event)
    requires Enabled(s, e) && (e.EvDeadlineThrew? || e.EvAfterJob?)
    ensures AlarmTells(s, e, Step(s, e))
  {
  }

  lemma {:induction false} WorldAlarm(s: State, e: Event)
    requires Enabled(s, e) && (e.Tick? || e.EvPumpStarts? || e.EvPumpEnds? || e.EvTurnStarts? || e.EvTurnEnds?
                               || e.EvCreateConversation? || e.EvDeleteConversation? || e.EvClearMessages? || e.EvDeleteRetired?)
    ensures AlarmTells(s, e, Step(s, e))
  {
  }

  lemma {:induction false} StepMoves(s: State, e: Event)
    requires Enabled(s, e) && (e.EvRunPicked? && Decides(s) ==> Decided(s, RunPicked(s)))
    ensures AlarmTells(s, e, Step(s, e))
  {
    if e.EvRunPicked? {
      RunPickedAlarm(s);
    } else if e.EvClaim? {
      ClaimAlarm(s, e.retry, e.claims);
    } else if e.EvCancelTurn? {
      CancelAborts(s, e.stopped, e.scope);
    } else if e.EvRestart? {
      RestartAlarm(s);
    } else if e.EvSpawn? || e.EvCallback? || e.EvDispatchResults? || e.EvTouch? || e.EvWakeEnds? {
      TableAlarm(s, e);
    } else if e.EvPick? || e.EvDeadlineCancelled? || e.EvDeadlineEnds? || e.EvAlarmThrew? {
      PickAlarm(s, e);
    } else if e.EvDeadlineThrew? || e.EvAfterJob? {
      EndAlarm(s, e);
    } else {
      WorldAlarm(s, e);
    }
  }

  /** In every reachable state every event moves the alarm handler as it must, and nothing else tells children to stop
      than a stop request, which tells those under way of the batches it names. */
  lemma {:induction false} AlarmMoves(cap: nat, es: seq<Event>, e: Event)
    requires Enabled(Run(Init(cap), es), e)
    ensures AlarmTells(Run(Init(cap), es), e, Step(Run(Init(cap), es), e))
  {
    RunKeepsInv(cap, es);
    var s := Run(Init(cap), es);
    if e.EvRunPicked? && Decides(s) { PickDecides(s); }
    StepMoves(s, e);
  }
}
