/** What a research subagent gets done when it is left alone, and what a crash or a deadline ends. */
module SubagentProgress {
  import opened Prelude
  import opened SubagentChild
  import SubagentReports

  /** Luck enough for any stretch. */
  const WHOLE := Luck(5, false)

  function Follow(s: State, e: Event): State { if Enabled(s, e) then Step(s, e) else s }

  lemma {:induction false} RunLast(s: State, es: seq<Event>, e: Event)
    ensures Run(s, es + [e]) == Follow(Run(s, es), e)
  {
    assert (es + [e])[..|es|] == es;
  }

  lemma {:induction false} RunThree(s: State, a: Event, b: Event, c: Event)
    ensures Run(s, [a, b, c]) == Follow(Follow(Follow(s, a), b), c)
  {
    assert [a] == [] + [a] && [a, b] == [a] + [b] && [a, b, c] == [a, b] + [c];
    RunLast(s, [], a);
    RunLast(s, [a], b);
    RunLast(s, [a, b], c);
  }

  lemma {:induction false} RunFour(s: State, a: Event, b: Event, c: Event, d: Event)
    ensures Run(s, [a, b, c, d]) == Follow(Follow(Follow(Follow(s, a), b), c), d)
  {
    assert [a, b, c, d] == [a, b, c] + [d];
    RunThree(s, a, b, c);
    RunLast(s, [a, b, c], d);
  }

  lemma {:induction false} RunFive(s: State, a: Event, b: Event, c: Event, d: Event, e: Event)
    ensures Run(s, [a, b, c, d, e]) == Follow(Follow(Follow(Follow(Follow(s, a), b), c), d), e)
  {
    assert [a, b, c, d, e] == [a, b, c, d] + [e];
    RunFour(s, a, b, c, d);
    RunLast(s, [a, b, c, d], e);
  }

  // ---------------------------------------------------------------- a task runs through

  /** What an object holds once its work is done: nothing, or a tombstone that is still live and an alarm for its end. */
  predicate CleanOf(store: Store, now: nat, cancelled: Option<Cancellation>) {
    if cancelled.Some? && now < cancelled.value.expiresAt
    then store == Store(None, cancelled, None, Some(cancelled.value.expiresAt))
    else store == Store(None, None, None, None)
  }

  lemma {:induction false} CleanupCleans(s: State, luck: Luck)
    ensures var t := Cleanup(s, luck); t == s.(store := t.store, worker := Idle, readers := t.readers)
    ensures luck.writes >= 3 ==> CleanOf(Cleanup(s, luck).store, s.now, s.store.cancelled)
  {
    CleanupShrinks(s, luck);
    CommitThree(s.store, CleanupWrites(s), luck);
  }

  lemma {:induction false} DeliverBegins(s: State, r: Report, luck: Luck)
    requires !Spent(s, r) && luck.writes >= 2
    ensures var sent := r.(payload := if s.store.cancelled.Some? then Cancelled else r.payload, attempts := r.attempts + 1);
      Deliver(s, r, luck) == s.(store := s.store.(report := Some(sent), alarm := Some(RetryAt(s.now, sent))),
                                worker := Signing(sent), attempts := s.attempts + [sent])
  {
    CommitTwo(s.store, DeliverWrites(s, r), luck);
  }

  lemma {:induction false} DispatchStores(s: State, task: Task)
    requires s.store.task.None? && s.store.report.None? && !Tombstone(s)
    ensures Dispatched(s, task, WHOLE) == s.(store := s.store.(task := Some(task), alarm := Some(s.now)))
  {
    CommitTwo(s.store, DispatchWrites(s, task), WHOLE);
  }

  lemma {:induction false} AlarmGenerates(s: State)
    requires s.worker.Idle? && s.store.task.Some? && s.store.report.None? && s.store.alarm == Some(s.now)
    ensures Follow(s, Alarm(WHOLE)) == s.(store := s.store.(alarm := None), generations := s.generations + [s.store.task.value],
      worker := Generating(s.store.task.value, if s.store.cancelled.Some? then Some(ByCancel) else None))
  {
  }

  lemma {:induction false} DispatchGenerates(s: State, task: Task)
    requires s.worker.Idle? && s.store.task.None? && s.store.report.None? && !Tombstone(s)
    ensures var t := Follow(Follow(s, Dispatch(task, WHOLE)), Alarm(WHOLE));
      && t.worker == Generating(task, if s.store.cancelled.Some? then Some(ByCancel) else None)
      && t.now == s.now && t.store.cancelled == s.store.cancelled && t.serial == s.serial
      && t.posts == s.posts && t.generations == s.generations + [task]
  {
    DispatchStores(s, task);
    AlarmGenerates(Dispatched(s, task, WHOLE));
  }

  /** What is reported of a task: its text or its message, cut to length, or that a cancellation record is stored. */
  function Reported(cancelled: bool, result: Result): Payload {
    if cancelled then Cancelled
    else match result
      case Ok(text) => Completed(SubagentReports.First(text, 32_000))
      case Error(message) => Failed(SubagentReports.First(message, 2_000))
  }

  lemma {:induction false} FinishSigns(s: State, result: Result)
    requires s.worker.Generating? && (s.worker.aborted == Some(ByCancel) ==> s.store.cancelled.Some?)
    ensures var t := FinishStep(s, result, WHOLE);
      && t.worker.Signing? && t == s.(store := t.store, worker := t.worker, serial := s.serial + 1, attempts := s.attempts + [t.worker.report])
      && t.worker.report == Report(s.worker.task, Reported(s.store.cancelled.Some?, result), 1, s.now + 86_400_000, false, s.serial + 1)
      && t.store.cancelled == s.store.cancelled
  {
    var r := Report(s.worker.task, Outcome(s, s.worker.aborted, result), 0, s.now + RETENTION_MS, false, s.serial + 1);
    DeliverBegins(s.(store := Apply(s.store, PutReport(r)), serial := s.serial + 1), r, Luck(4, false));
  }

  lemma {:induction false} AcceptedCleans(s: State)
    requires s.worker.Posted?
    ensures var t := AnsweredStep(s, true, WHOLE);
      && t == s.(store := t.store, worker := Idle, readers := t.readers) && CleanOf(t.store, s.now, s.store.cancelled)
  {
    var r := s.worker.report;
    CleanupCleans(s.(store := Apply(s.store, PutReport(r.(reported := true)))), Luck(4, false));
  }

  lemma {:induction false} Delivered(s: State, result: Result)
    requires s.worker.Generating? && (s.worker.aborted == Some(ByCancel) ==> s.store.cancelled.Some?) && Enabled(s, Finish(result, WHOLE))
    ensures var t := Follow(Follow(Follow(s, Finish(result, WHOLE)), Post), Answered(true, WHOLE));
      && t.generations == s.generations && t.now == s.now
      && t.posts == s.posts + [Report(s.worker.task, Reported(s.store.cancelled.Some?, result), 1, s.now + 86_400_000, false, s.serial + 1)]
      && t.worker.Idle? && CleanOf(t.store, s.now, s.store.cancelled)
  {
    FinishSigns(s, result);
    AcceptedCleans(Follow(Follow(s, Finish(result, WHOLE)), Post));
  }

  /** What is held, logged and sent when a task has run through. */
  predicate RanThrough(s: State, t: State, task: Task, result: Result) {
    && t.generations == s.generations + [task]
    && t.posts == s.posts + [Report(task, Reported(s.store.cancelled.Some?, result), 1, s.now + 86_400_000, false, s.serial + 1)]
    && t.worker.Idle? && t.store == Store(None, None, None, None)
  }

  lemma {:induction false} RunsThrough(s: State, task: Task, result: Result)
    requires s.worker.Idle? && s.store.task.None? && s.store.report.None? && !Tombstone(s)
    requires result.Ok? ==> s.store.cancelled.None? && s.now < task.deadline
    ensures RanThrough(s, Follow(Follow(Follow(Follow(Follow(s, Dispatch(task, WHOLE)), Alarm(WHOLE)), Finish(result, WHOLE)), Post),
                                 Answered(true, WHOLE)), task, result)
  {
    var a := Follow(Follow(s, Dispatch(task, WHOLE)), Alarm(WHOLE));
    DispatchGenerates(s, task);
    Delivered(a, result);
    assert a.serial == s.serial && a.now == s.now;
  }

  /** From every reachable free state a dispatched task that is left alone is generated once, reported once with its
      ending, and cleared away. */
  lemma {:induction false} DispatchRunsThrough(es: seq<Event>, task: Task, result: Result)
    requires var s := Run(INIT, es);
      && s.worker.Idle? && s.store.task.None? && s.store.report.None? && !(s.store.cancelled.Some? && s.now < s.store.cancelled.value.expiresAt)
      && (result.Ok? ==> s.store.cancelled.None? && s.now < task.deadline)
    ensures var s := Run(INIT, es);
      var t := Run(s, [Dispatch(task, WHOLE), Alarm(WHOLE), Finish(result, WHOLE), Post, Answered(true, WHOLE)]);
      RanThrough(s, t, task, result)
  {
    var s := Run(INIT, es);
    RunFive(s, Dispatch(task, WHOLE), Alarm(WHOLE), Finish(result, WHOLE), Post, Answered(true, WHOLE));
    RunsThrough(s, task, result);
  }

  /** The report of the generation `s` ended is stored, not yet accepted. */
  predicate StoresEnding(s: State, report: Option<Report>)
    requires s.worker.Generating?
  {
    report.Some? && report.value.task == s.worker.task && report.value.serial == s.serial + 1 && !report.value.reported
    && report.value.expiresAt == s.now + 86_400_000
  }

  lemma {:induction false} EndingStored(s: State, result: Result, luck: Luck)
    requires s.worker.Generating? && luck.writes >= 1
    ensures StoresEnding(s, FinishStep(s, result, luck).store.report)
  {
    var r := Report(s.worker.task, Outcome(s, s.worker.aborted, result), 0, s.now + RETENTION_MS, false, s.serial + 1);
    var u := s.(store := Apply(s.store, PutReport(r)), serial := s.serial + 1);
    CommitTwo(u.store, DeliverWrites(u, r), Luck(luck.writes - 1, luck.throws));
  }

  /** A generation that ended and got as far as one write has its report stored, whatever happens next, so it is not
      generated again. */
  lemma {:induction false} EndedIsStored(es: seq<Event>, result: Result, luck: Luck)
    requires Enabled(Run(INIT, es), Finish(result, luck)) && luck.writes >= 1
    ensures StoresEnding(Run(INIT, es), Step(Run(INIT, es), Finish(result, luck)).store.report)
  {
    EndingStored(Run(INIT, es), result, luck);
  }

  // ---------------------------------------------------------------- retries

  /** While a callback is under way its report is not marked as accepted and an alarm is set. */
  predicate Retried(s: State) { s.worker.Signing? || s.worker.Posted? ==> !s.worker.report.reported && s.store.alarm.Some? }

  lemma {:induction false} AlarmStaysSet(s: State, e: Event)
    requires Enabled(s, e) && Retried(s)
    ensures Retried(Step(s, e))
  {
    match e
    case Dispatch(task, luck) =>
      var ws := DispatchWrites(s, task);
      if |ws| == 2 { CommitTwo(s.store, ws, luck); }
      if |ws| == 1 { CommitOne(s.store, ws); }
    case Cancel(seen, body, luck) =>
      if CancelReplyTo(seen, body).CancelAcknowledged? {
        CommitTwo(s.store, CancelWrites(s, seen, CancelId(seen, body).value), luck);
      }
    case Alarm(luck) =>
      var fired := s.(store := s.store.(alarm := None));
      if s.store.report.Some? { DeliverSetsAlarm(fired, s.store.report.value, luck); } else { CleanupCleans(fired, luck); }
    case Finish(result, luck) =>
      var r := Report(s.worker.task, Outcome(s, s.worker.aborted, result), 0, s.now + RETENTION_MS, false, s.serial + 1);
      if luck.writes > 0 {
        DeliverSetsAlarm(s.(store := Apply(s.store, PutReport(r)), serial := s.serial + 1), r, Luck(luck.writes - 1, luck.throws));
      }
    case Answered(accepted, luck) =>
      CleanupCleans(s, luck);
      if luck.writes > 0 {
        CleanupCleans(s.(store := Apply(s.store, PutReport(s.worker.report.(reported := true)))), Luck(luck.writes - 1, luck.throws));
      }
    case _ =>
  }

  lemma {:induction false} DeliverSetsAlarm(s: State, r: Report, luck: Luck)
    ensures var t := Deliver(s, r, luck); t.worker.Idle? || (t.worker.Signing? && !t.worker.report.reported && t.store.alarm.Some?)
  {
    if Spent(s, r) { CleanupCleans(s, luck); } else { CommitTwo(s.store, DeliverWrites(s, r), luck); }
  }

  lemma {:induction false} CallbackHasAlarm(es: seq<Event>)
    ensures Retried(Run(INIT, es))
  {
    if es != [] {
      CallbackHasAlarm(es[..|es| - 1]);
      var s := Run(INIT, es[..|es| - 1]);
      if Enabled(s, es[|es| - 1]) { AlarmStaysSet(s, es[|es| - 1]); }
    }
  }

  /** The wait until a stored alarm is due. */
  function Wait(s: State): nat { if s.store.alarm.Some? && s.now < s.store.alarm.value then s.store.alarm.value - s.now else 0 }

  lemma {:induction false} AlarmRetries(s: State, r: Report)
    requires s.worker.Idle? && s.store.alarm.Some? && s.store.alarm.value <= s.now && s.store.report == Some(r)
    requires !r.reported && r.attempts < 8
    ensures var t := Follow(s, Alarm(WHOLE));
      if s.now < r.expiresAt
      then t.worker == Signing(r.(attempts := r.attempts + 1, payload := if s.store.cancelled.Some? then Cancelled else r.payload)) && t.posts == s.posts
      else t.worker.Idle? && t.posts == s.posts && t.now == s.now && CleanOf(t.store, s.now, s.store.cancelled)
  {
    var fired := s.(store := s.store.(alarm := None));
    if s.now < r.expiresAt { DeliverBegins(fired, r, WHOLE); } else { CleanupCleans(fired, WHOLE); }
  }

  /** What a refused callback comes to by the next alarm: its next attempt, or nothing left. */
  predicate Retries(s: State, r: Report, late: nat, t: State) {
    if late < r.expiresAt
    then t.posts == s.posts + [r.(attempts := r.attempts + 1, payload := if s.store.cancelled.Some? then Cancelled else r.payload)]
    else t.posts == s.posts && CleanOf(t.store, late, s.store.cancelled)
  }

  lemma {:induction false} Refused(s: State)
    requires WorkerFits(s.store, s.worker) && Retried(s) && (s.worker.Signing? || s.worker.Posted?) && s.worker.report.attempts < 8
    ensures Retries(s, s.worker.report, s.now + Wait(s), Run(s, [Answered(false, WHOLE), Tick(Wait(s)), Alarm(WHOLE), Post]))
  {
    RunFour(s, Answered(false, WHOLE), Tick(Wait(s)), Alarm(WHOLE), Post);
    RefusedFollows(s, s.(worker := Idle, now := s.now + Wait(s)));
  }

  lemma {:induction false} RefusedFollows(s: State, late: State)
    requires WorkerFits(s.store, s.worker) && Retried(s) && (s.worker.Signing? || s.worker.Posted?) && s.worker.report.attempts < 8
    requires late == s.(worker := Idle, now := s.now + Wait(s))
    ensures Follow(Follow(s, Answered(false, WHOLE)), Tick(Wait(s))) == late
    ensures Retries(s, s.worker.report, late.now, Follow(Follow(late, Alarm(WHOLE)), Post))
  {
    AlarmRetries(late, s.worker.report);
  }

  /** A callback that is refused, times out or cannot be signed is sent again at the next alarm with the attempt counted,
      and as cancelled if a cancellation is stored by then, until its report expires; then everything is cleared away. */
  lemma {:induction false} RefusedIsRetried(es: seq<Event>)
    requires var s := Run(INIT, es); (s.worker.Signing? || s.worker.Posted?) && s.worker.report.attempts < 8
    ensures var s := Run(INIT, es);
      Retries(s, s.worker.report, s.now + Wait(s), Run(s, [Answered(false, WHOLE), Tick(Wait(s)), Alarm(WHOLE), Post]))
  {
    RunKeepsInv(es);
    CallbackHasAlarm(es);
    Refused(Run(INIT, es));
  }

  /** A callback refused for the eighth time is given up and everything is cleared away. */
  lemma {:induction false} EighthRefusalCleans(es: seq<Event>)
    requires var s := Run(INIT, es); (s.worker.Signing? || s.worker.Posted?) && s.worker.report.attempts >= 8
    ensures var s := Run(INIT, es);
      var t := Step(s, Answered(false, WHOLE));
      t.worker.Idle? && t.posts == s.posts && CleanOf(t.store, s.now, s.store.cancelled)
  {
    CleanupCleans(Run(INIT, es), WHOLE);
  }

  // ---------------------------------------------------------------- clearing away

  /** What a clean-up that did not get through leaves to do at the next alarm. */
  predicate HalfClean(s: State) {
    s.worker.Idle? && s.store.alarm.Some? && (if s.store.report.Some? then s.store.report.value.reported else s.store.task.None?)
  }

  lemma {:induction false} CleanupLeaves(s: State, luck: Luck)
    requires s.store.report.Some? && s.store.report.value.reported && s.store.alarm.Some? && luck.writes < 3
    ensures var t := Cleanup(s, luck);
      && HalfClean(t) && t.posts == s.posts && t.now == s.now
      && (t.store.cancelled == s.store.cancelled || (t.store.cancelled.None? && !Tombstone(s)))
      && (luck.throws ==> t.store.alarm == Some(s.now + 60_000)) && (luck.writes >= 1 ==> t.store.task.None?)
  {
    CommitThree(s.store, CleanupWrites(s), luck);
  }

  lemma {:induction false} AlarmCleans(s: State)
    requires HalfClean(s) && s.store.alarm.value <= s.now
    ensures var t := Follow(s, Alarm(WHOLE)); t.posts == s.posts && t.now == s.now && CleanOf(t.store, s.now, s.store.cancelled)
  {
    CleanupCleans(s.(store := s.store.(alarm := None)), WHOLE);
  }

  lemma {:induction false} CleanStays(s: State, cancelled: Option<Cancellation>)
    requires s.worker.Idle? && CleanOf(s.store, s.now, cancelled)
    ensures var t := Follow(s.(now := s.now + Wait(s)), Alarm(WHOLE)); t.posts == s.posts && CleanOf(t.store, t.now, cancelled)
  {
    var late := s.(now := s.now + Wait(s));
    if s.store.alarm.Some? { CleanupCleans(late.(store := late.store.(alarm := None)), WHOLE); }
  }

  lemma {:induction false} AnsweredLeaves(s: State, luck: Luck)
    requires s.worker.Posted? && s.store.alarm.Some? && luck.writes >= 1
    ensures var t := AnsweredStep(s, true, luck);
      && t.posts == s.posts && t.now == s.now && t.worker.Idle?
      && if luck.writes >= 4 then CleanOf(t.store, s.now, s.store.cancelled)
         else HalfClean(t) && (t.store.cancelled == s.store.cancelled || (t.store.cancelled.None? && !Tombstone(s)))
              && (luck.throws ==> t.store.alarm == Some(s.now + 60_000)) && (luck.writes >= 2 ==> t.store.task.None?)
  {
    var u := s.(store := Apply(s.store, PutReport(s.worker.report.(reported := true))));
    if luck.writes >= 4 {
      CleanupCleans(u, Luck(luck.writes - 1, luck.throws));
    } else {
      CleanupLeaves(u, Luck(luck.writes - 1, luck.throws));
    }
  }

  lemma {:induction false} AcceptedCleansUp(s: State, luck: Luck)
    requires s.worker.Posted? && s.store.alarm.Some? && luck.writes >= 1
    ensures var t := Run(s, [Answered(true, luck), Tick(Wait(Step(s, Answered(true, luck)))), Alarm(WHOLE)]);
      t.posts == s.posts && CleanOf(t.store, t.now, s.store.cancelled)
    ensures luck.writes < 4 && luck.throws ==> Step(s, Answered(true, luck)).store.alarm == Some(s.now + 60_000)
    ensures luck.writes >= 2 ==> Step(s, Answered(true, luck)).store.task.None?
  {
    var a := Step(s, Answered(true, luck));
    RunThree(s, Answered(true, luck), Tick(Wait(a)), Alarm(WHOLE));
    AnsweredLeaves(s, luck);
    if luck.writes >= 4 { CleanStays(a, s.store.cancelled); } else { AlarmCleans(a.(now := a.now + Wait(a))); }
  }

  /** Once an accepted callback is noted, whatever fails in clearing away is finished by the next alarm, in a minute if it
      threw, and nothing is sent again. */
  lemma {:induction false} AcceptedIsCleanedUp(es: seq<Event>, luck: Luck)
    requires Run(INIT, es).worker.Posted? && luck.writes >= 1
    ensures var s := Run(INIT, es);
      var t := Run(s, [Answered(true, luck), Tick(Wait(Step(s, Answered(true, luck)))), Alarm(WHOLE)]);
      t.posts == s.posts && CleanOf(t.store, t.now, s.store.cancelled)
    ensures luck.writes < 4 && luck.throws ==> Step(Run(INIT, es), Answered(true, luck)).store.alarm == Some(Run(INIT, es).now + 60_000)
    ensures luck.writes >= 2 ==> Step(Run(INIT, es), Answered(true, luck)).store.task.None?
  {
    CallbackHasAlarm(es);
    AcceptedCleansUp(Run(INIT, es), luck);
  }

  // ---------------------------------------------------------------- each attempt is sent once

  ghost predicate Below(posts: seq<Report>, serial: nat, limit: nat) {
    forall k :: 0 <= k < |posts| && posts[k].serial == serial ==> posts[k].attempts < limit
  }

  ghost predicate PostsFit(s: State) {
    && (forall k :: 0 <= k < |s.posts| ==> s.posts[k].serial <= s.serial)
    && (forall j, k :: 0 <= j < k < |s.posts| && s.posts[j].serial == s.posts[k].serial ==> s.posts[j].attempts < s.posts[k].attempts)
    && (s.store.report.Some? ==>
          s.store.report.value.serial <= s.serial && Below(s.posts, s.store.report.value.serial, s.store.report.value.attempts + 1))
    && (s.worker.Signing? ==> Below(s.posts, s.worker.report.serial, s.worker.report.attempts))
  }

  lemma {:induction false} DeliverPostsFit(s: State, r: Report, luck: Luck)
    requires PostsFit(s) && s.store.report == Some(r)
    ensures PostsFit(Deliver(s, r, luck))
  {
    if Spent(s, r) { CleanupShrinks(s, luck); } else { CommitTwo(s.store, DeliverWrites(s, r), luck); }
  }

  /** Nothing is sent and the stored report stays, is marked or goes. */
  lemma {:induction false} QuietPostsFit(s: State, t: State)
    requires PostsFit(s) && t.posts == s.posts && t.serial == s.serial
    requires t.store.report.Some? ==>
      && s.store.report.Some? && s.store.report.value.serial == t.store.report.value.serial
      && s.store.report.value.attempts == t.store.report.value.attempts
    requires t.worker.Signing? ==> s.worker == t.worker
    ensures PostsFit(t)
  {
  }

  lemma {:induction false} NewReportFits(s: State, r: Report)
    requires PostsFit(s) && !s.worker.Signing? && r.serial == s.serial + 1
    ensures PostsFit(s.(store := Apply(s.store, PutReport(r)), serial := s.serial + 1))
  {
    assert Below(s.posts, r.serial, r.attempts + 1);
  }

  lemma {:induction false} FinishPostsFit(s: State, result: Result, luck: Luck)
    requires PostsFit(s) && s.worker.Generating?
    ensures PostsFit(FinishStep(s, result, luck))
  {
    var r := Report(s.worker.task, Outcome(s, s.worker.aborted, result), 0, s.now + RETENTION_MS, false, s.serial + 1);
    if luck.writes == 0 {
      QuietPostsFit(s, Died(s));
    } else {
      NewReportFits(s, r);
      DeliverPostsFit(s.(store := Apply(s.store, PutReport(r)), serial := s.serial + 1), r, Luck(luck.writes - 1, luck.throws));
    }
  }

  lemma {:induction false} PostFits(s: State)
    requires PostsFit(s) && s.worker.Signing? && s.store.report == Some(s.worker.report)
    ensures PostsFit(Step(s, Post))
  {
    var r, posts := s.worker.report, s.posts + [s.worker.report];
    assert forall k :: 0 <= k < |s.posts| ==> posts[k] == s.posts[k];
  }

  lemma {:induction false} AnsweredPostsFit(s: State, accepted: bool, luck: Luck)
    requires PostsFit(s) && (s.worker.Signing? || s.worker.Posted?) && s.store.report == Some(s.worker.report)
    ensures PostsFit(AnsweredStep(s, accepted, luck))
  {
    CleanupShrinks(s, luck);
    if luck.writes > 0 {
      CleanupShrinks(s.(store := Apply(s.store, PutReport(s.worker.report.(reported := true)))), Luck(luck.writes - 1, luck.throws));
    }
    QuietPostsFit(s, AnsweredStep(s, accepted, luck));
  }

  lemma {:induction false} RequestPostsFit(s: State, e: Event)
    requires PostsFit(s) && Enabled(s, e) && (e.Dispatch? || e.Cancel?)
    ensures PostsFit(Step(s, e))
  {
    if e.Dispatch? {
      var ws := DispatchWrites(s, e.task);
      if |ws| == 2 { CommitTwo(s.store, ws, e.luck); }
      if |ws| == 1 { CommitOne(s.store, ws); }
    } else if CancelReplyTo(e.seen, e.body).CancelAcknowledged? {
      CommitTwo(s.store, CancelWrites(s, e.seen, CancelId(e.seen, e.body).value), e.luck);
    }
    QuietPostsFit(s, Step(s, e));
  }

  lemma {:induction false} AlarmPostsFit(s: State, luck: Luck)
    requires PostsFit(s) && s.worker.Idle?
    ensures PostsFit(AlarmStep(s, luck))
  {
    var fired := s.(store := s.store.(alarm := None));
    QuietPostsFit(s, fired);
    if s.store.report.Some? {
      DeliverPostsFit(fired, s.store.report.value, luck);
    } else {
      CleanupShrinks(fired, luck);
      QuietPostsFit(s, AlarmStep(s, luck));
    }
  }

  lemma {:induction false} StepPostsFit(s: State, e: Event)
    requires WorkerFits(s.store, s.worker) && PostsFit(s) && Enabled(s, e)
    ensures PostsFit(Step(s, e))
  {
    match e
    case Dispatch(_, _) => RequestPostsFit(s, e);
    case Cancel(_, _, _) => RequestPostsFit(s, e);
    case Alarm(luck) => AlarmPostsFit(s, luck);
    case Finish(result, luck) => FinishPostsFit(s, result, luck);
    case Post => PostFits(s);
    case Answered(accepted, luck) => AnsweredPostsFit(s, accepted, luck);
    case _ => QuietPostsFit(s, Step(s, e));
  }

  lemma {:induction false} RunPostsFit(es: seq<Event>)
    ensures PostsFit(Run(INIT, es))
  {
    if es != [] {
      RunPostsFit(es[..|es| - 1]);
      RunKeepsInv(es[..|es| - 1]);
      var s := Run(INIT, es[..|es| - 1]);
      if Enabled(s, es[|es| - 1]) { StepPostsFit(s, es[|es| - 1]); }
    }
  }

  /** Of the callbacks sent for one report each is a later attempt than those before. */
  lemma {:induction false} EachAttemptIsSentOnce(es: seq<Event>, j: nat, k: nat)
    requires j < k < |Run(INIT, es).posts| && Run(INIT, es).posts[j].serial == Run(INIT, es).posts[k].serial
    ensures Run(INIT, es).posts[j].attempts < Run(INIT, es).posts[k].attempts
  {
    RunPostsFit(es);
  }

  // ---------------------------------------------------------------- generations and model calls

  /** An alarm that finds a task and no report of it. */
  predicate Starts(s: State, e: Event) { e.Alarm? && Enabled(s, e) && s.store.report.None? && s.store.task.Some? }

  /** The tasks that alarms found stored without a report. */
  ghost function Started(es: seq<Event>): seq<Task> {
    if es == [] then []
    else
      var s, e := Run(INIT, es[..|es| - 1]), es[|es| - 1];
      if Starts(s, e) then Started(es[..|es| - 1]) + [s.store.task.value] else Started(es[..|es| - 1])
  }

  /** The model calls made, each on behalf of the task last started. */
  ghost function Called(es: seq<Event>): seq<TaskId> {
    if es == [] then []
    else
      var s, e, tasks := Run(INIT, es[..|es| - 1]), es[|es| - 1], Started(es[..|es| - 1]);
      if e.ModelCall? && Enabled(s, e) && tasks != [] then Called(es[..|es| - 1]) + [tasks[|tasks| - 1].id] else Called(es[..|es| - 1])
  }

  /** What a step does to the generation in progress and to the logs of work. */
  predicate Works(s: State, e: Event, t: State)
    requires Enabled(s, e)
  {
    && t.generations == (if Starts(s, e) then s.generations + [s.store.task.value] else s.generations)
    && t.modelCalls == (if e.ModelCall? then s.modelCalls + [s.worker.task.id] else s.modelCalls)
    && (t.worker.Generating? && !Starts(s, e) ==>
          s.worker.Generating? && t.worker.task == s.worker.task && (s.worker.aborted.Some? ==> t.worker.aborted.Some?))
    && (Starts(s, e) ==> t.worker.Generating? && t.worker.task == s.store.task.value)
  }

  lemma {:induction false} DeliverWorks(s: State, r: Report, luck: Luck)
    ensures var t := Deliver(s, r, luck); t.generations == s.generations && t.modelCalls == s.modelCalls && !t.worker.Generating?
  {
    if Spent(s, r) { CleanupShrinks(s, luck); }
  }

  lemma {:induction false} StepWorks(s: State, e: Event)
    requires Enabled(s, e)
    ensures Works(s, e, Step(s, e))
  {
    match e
    case Alarm(luck) =>
      var fired := s.(store := s.store.(alarm := None));
      if s.store.report.Some? { DeliverWorks(fired, s.store.report.value, luck); } else { CleanupShrinks(fired, luck); }
    case Finish(result, luck) =>
      var r := Report(s.worker.task, Outcome(s, s.worker.aborted, result), 0, s.now + RETENTION_MS, false, s.serial + 1);
      if luck.writes > 0 {
        DeliverWorks(s.(store := Apply(s.store, PutReport(r)), serial := s.serial + 1), r, Luck(luck.writes - 1, luck.throws));
      }
    case Answered(accepted, luck) =>
      CleanupShrinks(s, luck);
      if luck.writes > 0 {
        CleanupShrinks(s.(store := Apply(s.store, PutReport(s.worker.report.(reported := true)))), Luck(luck.writes - 1, luck.throws));
      }
    case _ =>
  }

  /** In every run the generations are those of the tasks that alarms found stored without a report, and each model call is
      made for the latest of them. */
  lemma {:induction false} WorkIsOnStoredTasks(es: seq<Event>)
    ensures var s := Run(INIT, es);
      && s.generations == Started(es) && s.modelCalls == Called(es)
      && (s.worker.Generating? ==> Started(es) != [] && s.worker.task == Started(es)[|Started(es)| - 1])
  {
    if es != [] {
      WorkIsOnStoredTasks(es[..|es| - 1]);
      var s := Run(INIT, es[..|es| - 1]);
      if Enabled(s, es[|es| - 1]) { StepWorks(s, es[|es| - 1]); }
    }
  }

  lemma {:induction false} AbortLasts(s: State, more: seq<Event>)
    requires s.worker.Generating? && s.worker.aborted.Some?
    ensures var t := Run(s, more);
      && |t.generations| >= |s.generations|
      && (|t.generations| == |s.generations| ==> t.modelCalls == s.modelCalls && (t.worker.Generating? ==> t.worker.aborted.Some?))
  {
    if more != [] {
      AbortLasts(s, more[..|more| - 1]);
      var t := Run(s, more[..|more| - 1]);
      if Enabled(t, more[|more| - 1]) { StepWorks(t, more[|more| - 1]); }
    }
  }

  /** After the deadline timer no model is called until another generation starts. */
  lemma {:induction false} DeadlineEndsModelCalls(es: seq<Event>, more: seq<Event>)
    requires Enabled(Run(INIT, es), DeadlineTimer)
    ensures var s := Run(INIT, es);
      var t := Run(Step(s, DeadlineTimer), more);
      t.generations == s.generations ==> t.modelCalls == s.modelCalls
  {
    AbortLasts(Step(Run(INIT, es), DeadlineTimer), more);
  }

  // ---------------------------------------------------------------- crashes

  lemma {:induction false} StepReads(s: State, e: Event)
    requires Enabled(s, e) && !e.CancelRead?
    ensures Step(s, e).readers <= s.readers
  {
    match e
    case Alarm(luck) => CleanupReads(s.(store := s.store.(alarm := None)), luck);
    case Answered(_, luck) =>
      CleanupReads(s, luck);
      if luck.writes > 0 {
        CleanupReads(s.(store := Apply(s.store, PutReport(s.worker.report.(reported := true)))), Luck(luck.writes - 1, luck.throws));
      }
    case _ =>
  }

  lemma {:induction false} CleanupReads(s: State, luck: Luck)
    ensures Cleanup(s, luck).readers <= s.readers
  {
  }

  /** No cancel request that was in progress at a crash goes on after it. */
  lemma {:induction false} CrashEndsCancels(es: seq<Event>, more: seq<Event>, seen: Option<Task>, body: Option<TaskId>, luck: Luck)
    requires forall k :: 0 <= k < |more| ==> !more[k].CancelRead?
    ensures var t := Run(Step(Run(INIT, es), Crash), more); t.readers == {} && !Enabled(t, Cancel(seen, body, luck))
  {
    if more != [] {
      var t := Run(Step(Run(INIT, es), Crash), more[..|more| - 1]);
      CrashEndsCancels(es, more[..|more| - 1], seen, body, luck);
      if Enabled(t, more[|more| - 1]) { StepReads(t, more[|more| - 1]); }
    }
  }

  /** What an alarm run again at once does for a stored report, or for a task without one. */
  predicate Recovers(s: State, t: State) {
    match s.store.report
    case Some(r) =>
      !r.reported && r.attempts < 8 && s.now < r.expiresAt ==>
        t.posts == s.posts + [r.(attempts := r.attempts + 1, payload := if s.store.cancelled.Some? then Cancelled else r.payload)]
    case None => s.store.task.Some? ==> t.worker.Generating? && t.generations == s.generations + [s.store.task.value]
  }

  lemma {:induction false} AlarmRecovers(s: State)
    requires s.worker.Idle? && s.store.alarm == Some(s.now)
    ensures Recovers(s, Follow(Follow(s, Alarm(WHOLE)), Post))
  {
    if s.store.report.Some? && !s.store.report.value.reported && s.store.report.value.attempts < 8 {
      AlarmRetries(s, s.store.report.value);
    } else if s.store.report.None? && s.store.task.Some? {
      AlarmGenerates(s);
    }
  }

  lemma {:induction false} CrashRecovers(s: State)
    ensures Recovers(s, Run(s, [Crash, AlarmRetried(s.now), Alarm(WHOLE), Post]))
  {
    RunFour(s, Crash, AlarmRetried(s.now), Alarm(WHOLE), Post);
    AlarmRecovers(s.(worker := Idle, readers := {}, store := s.store.(alarm := Some(s.now))));
  }

  /** When the platform runs the alarm again after a crash, a stored report is sent with the next attempt while it has one,
      and a task without a report is generated anew. */
  lemma {:induction false} CrashIsRecovered(es: seq<Event>)
    ensures var s := Run(INIT, es); Recovers(s, Run(s, [Crash, AlarmRetried(s.now), Alarm(WHOLE), Post]))
  {
    CrashRecovers(Run(INIT, es));
  }
}
