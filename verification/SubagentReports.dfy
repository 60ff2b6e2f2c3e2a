/** What the callbacks of a research subagent carry, against what its generations ended with. */
module SubagentReports {
  import opened Prelude
  import opened SubagentChild

  // ---------------------------------------------------------------- history

  /** How the generation of a task ended. */
  datatype Told = Told(task: Task, result: Result)

  /** What was told so far: endings by the serial of their report, whether any cancel was stored, tasks dispatched. */
  datatype History = History(told: imap<nat, Told>, cancelled: bool, dispatched: iset<Task>)

  predicate Ends(s: State, e: Event) { e.Finish? && Enabled(s, e) && e.luck.writes > 0 }

  /** A cancel that named a task, or was for the one there, and got as far as its first write. */
  predicate StoresCancel(s: State, e: Event) {
    && e.Cancel? && Enabled(s, e) && e.luck.writes > 0
    && (e.body.Some? || e.seen.Some?) && (e.body.Some? && e.seen.Some? ==> e.seen.value.id == e.body.value)
  }

  ghost function Next(h: History, s: State, e: Event): History {
    if Ends(s, e) then h.(told := h.told[s.serial + 1 := Told(s.worker.task, e.result)])
    else if StoresCancel(s, e) then h.(cancelled := true)
    else if e.Dispatch? then h.(dispatched := h.dispatched + iset{e.task})
    else h
  }

  ghost function HistoryOf(es: seq<Event>): History {
    if es == [] then History(imap[], false, iset{}) else Next(HistoryOf(es[..|es| - 1]), Run(INIT, es[..|es| - 1]), es[|es| - 1])
  }

  function First(text: string, n: nat): string { if |text| <= n then text else text[..n] }

  /** A payload for an ending: its text or its message, cut to length; `cancelled` only if a cancel was stored. */
  predicate Says(payload: Payload, result: Result, cancelled: bool) {
    match payload
    case Cancelled => cancelled
    case Completed(text) => result.Ok? && text == First(result.text, 32_000)
    case Failed(error) => result.Error? && error == First(result.message, 2_000)
  }

  ghost predicate Tells(r: Report, h: History) {
    r.serial in h.told && r.task == h.told[r.serial].task && Says(r.payload, h.told[r.serial].result, h.cancelled)
  }

  ghost predicate LogTells(log: seq<Report>, h: History) {
    forall k :: 0 <= k < |log| ==> Tells(log[k], h)
  }

  ghost predicate StoreTells(store: Store, h: History) {
    && (store.task.Some? ==> store.task.value in h.dispatched)
    && (store.cancelled.Some? ==> h.cancelled)
    && (store.report.Some? ==> Tells(store.report.value, h))
  }

  ghost predicate WorkerTells(w: Worker, h: History) {
    match w
    case Idle => true
    case Generating(task, aborted) => task in h.dispatched && (aborted == Some(ByCancel) ==> h.cancelled)
    case Signing(r) => Tells(r, h)
    case Posted(r) => Tells(r, h)
  }

  ghost predicate SerialsFit(h: History, serial: nat) {
    forall k :: k in h.told ==> k <= serial && h.told[k].task in h.dispatched
  }

  ghost predicate AllTell(s: State, h: History) {
    StoreTells(s.store, h) && WorkerTells(s.worker, h) && LogTells(s.attempts, h) && LogTells(s.posts, h) && SerialsFit(h, s.serial)
  }

  // ---------------------------------------------------------------- one step

  lemma {:induction false} CleanupTells(s: State, luck: Luck, h: History)
    requires AllTell(s, h)
    ensures AllTell(Cleanup(s, luck), h)
  {
    CommitThree(s.store, CleanupWrites(s), luck);
  }

  lemma {:induction false} DeliverTells(s: State, r: Report, luck: Luck, h: History)
    requires AllTell(s, h) && Tells(r, h)
    ensures AllTell(Deliver(s, r, luck), h)
  {
    if Spent(s, r) {
      CleanupTells(s, luck, h);
    } else {
      CommitTwo(s.store, DeliverWrites(s, r), luck);
    }
  }

  lemma {:induction false} AlarmTells(s: State, luck: Luck, h: History)
    requires AllTell(s, h)
    ensures AllTell(AlarmStep(s, luck), h)
  {
    var fired := s.(store := s.store.(alarm := None));
    if s.store.report.Some? {
      DeliverTells(fired, s.store.report.value, luck, h);
    } else if s.store.task.None? {
      CleanupTells(fired, luck, h);
    }
  }

  /** A later ending leaves what was told before. */
  lemma {:induction false} MoreTold(s: State, h: History, told: Told)
    requires AllTell(s, h) && told.task in h.dispatched
    ensures AllTell(s.(serial := s.serial + 1), h.(told := h.told[s.serial + 1 := told]))
  {
  }

  lemma {:induction false} FinishTells(s: State, result: Result, luck: Luck, h: History)
    requires AllTell(s, h) && s.worker.Generating? && luck.writes > 0
    ensures AllTell(FinishStep(s, result, luck), h.(told := h.told[s.serial + 1 := Told(s.worker.task, result)]))
  {
    var r := Report(s.worker.task, Outcome(s, s.worker.aborted, result), 0, s.now + RETENTION_MS, false, s.serial + 1);
    var next := h.(told := h.told[s.serial + 1 := Told(s.worker.task, result)]);
    MoreTold(s, h, Told(s.worker.task, result));
    assert Tells(r, next);
    DeliverTells(s.(store := Apply(s.store, PutReport(r)), serial := s.serial + 1), r, Luck(luck.writes - 1, luck.throws), next);
  }

  lemma {:induction false} AnsweredTells(s: State, accepted: bool, luck: Luck, h: History)
    requires AllTell(s, h) && (s.worker.Signing? || s.worker.Posted?)
    ensures AllTell(AnsweredStep(s, accepted, luck), h)
  {
    var r := s.worker.report;
    if accepted && luck.writes > 0 {
      CleanupTells(s.(store := Apply(s.store, PutReport(r.(reported := true)))), Luck(luck.writes - 1, luck.throws), h);
    } else if !accepted && r.attempts >= MAX_REPORT_ATTEMPTS {
      CleanupTells(s, luck, h);
    }
  }

  lemma {:induction false} DispatchTells(s: State, task: Task, luck: Luck, h: History)
    requires AllTell(s, h)
    ensures AllTell(Dispatched(s, task, luck), h.(dispatched := h.dispatched + iset{task}))
  {
    var ws := DispatchWrites(s, task);
    if |ws| == 2 { CommitTwo(s.store, ws, luck); }
    if |ws| == 1 { CommitOne(s.store, ws); }
  }

  lemma {:induction false} CancelTells(s: State, e: Event, h: History)
    requires AllTell(s, h) && e.Cancel? && Enabled(s, e)
    ensures AllTell(Step(s, e), if StoresCancel(s, e) then h.(cancelled := true) else h)
  {
    if CancelReplyTo(e.seen, e.body).CancelAcknowledged? {
      CommitTwo(s.store, CancelWrites(s, e.seen, CancelId(e.seen, e.body).value), e.luck);
    }
  }

  lemma {:induction false} StepTells(s: State, e: Event, h: History)
    requires AllTell(s, h) && Enabled(s, e)
    ensures AllTell(Step(s, e), Next(h, s, e))
  {
    match e
    case Dispatch(task, luck) => DispatchTells(s, task, luck, h);
    case Cancel(seen, body, luck) => CancelTells(s, e, h);
    case Alarm(luck) => AlarmTells(s, luck, h);
    case Finish(result, luck) => if luck.writes > 0 { FinishTells(s, result, luck, h); }
    case Answered(accepted, luck) => AnsweredTells(s, accepted, luck, h);
    case _ =>
  }

  lemma {:induction false} RunTells(es: seq<Event>)
    ensures AllTell(Run(INIT, es), HistoryOf(es))
  {
    if es != [] {
      var init, e := es[..|es| - 1], es[|es| - 1];
      RunTells(init);
      if Enabled(Run(INIT, init), e) { StepTells(Run(INIT, init), e, HistoryOf(init)); }
    }
  }

  // ---------------------------------------------------------------- main theorem

  /** Every callback begun and every callback sent names a task that was dispatched and carries how its generation ended,
      cut to length; it says cancelled only after a cancel was stored. */
  lemma {:induction false} CallbacksTellTheEnding(es: seq<Event>, k: nat)
    ensures var s, h := Run(INIT, es), HistoryOf(es);
      && (k < |s.attempts| ==> Tells(s.attempts[k], h) && s.attempts[k].task in h.dispatched)
      && (k < |s.posts| ==> Tells(s.posts[k], h) && s.posts[k].task in h.dispatched)
  {
    RunTells(es);
  }
}
