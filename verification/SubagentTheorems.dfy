/** What every run of the subagent coordinator guarantees. */
module SubagentTheorems {
  import opened SubagentBatches
  import opened SubagentBatchProofs

  /**
    No batch is ever stranded. After any events whatsoever, an active batch owns a deadline or a
    synthesis job; without a deadline job its tasks are all terminal or its synthesis job is the
    last resort; and a synthesizing batch is the one the running alarm handler works on.
  */
  lemma {:induction false} NoBatchIsStranded(cap: nat, es: seq<Event>, b: BatchId)
    ensures var s := Run(Init(cap), es);
      && (IsActive(s, b) ==> DeadlineJob(b) in s.jobs || SynthesisJob(b) in s.jobs)
      && (IsActive(s, b) && DeadlineJob(b) !in s.jobs && s.jobs[SynthesisJob(b)].Retry() < MAX_BATCH_ATTEMPTS ==>
            b in s.order && forall t :: t in s.order[b] ==> t in s.tasks && s.tasks[t].status.Terminal())
      && (b in s.batches && s.batches[b].status.Synthesizing? ==> s.alarm.WakeRunning? && s.alarm.batch == b)
  {
    RunKeepsInv(cap, es);
    var s := Run(Init(cap), es);
    assert forall t :: t in TasksOf(s, b) <==> t in s.tasks && s.tasks[t].batch == b;
  }

  lemma {:induction false} TerminalIsForever(cap: nat, es: seq<Event>, more: seq<Event>, t: TaskId)
    requires var s := Run(Init(cap), es); t in s.tasks && s.tasks[t].status.Terminal()
    ensures var s, s1 := Run(Init(cap), es), Run(Init(cap), es + more);
      t in s1.tasks ==> s1.tasks[t].status == s.tasks[t].status && s1.tasks[t].result == s.tasks[t].result
  {
    var s := Run(Init(cap), es);
    RunKeepsInv(cap, es);
    FinalOverRun(cap, es, more, t, s.tasks[t].status, s.tasks[t].result);
  }

  /**
    A batch inserts at most one message row over the whole run, and wherever that row is visible
    it holds the content first written, even across a cleared transcript.
  */
  lemma {:induction false} OneMessagePerBatch(cap: nat, es: seq<Event>, more: seq<Event>, b: BatchId)
    ensures var s, s1 := Run(Init(cap), es), Run(Init(cap), es + more);
      && (forall i, j :: 0 <= i < j < |s1.appended| ==> s1.appended[i].0 != s1.appended[j].0)
      && (b in s.messages && b in s1.messages ==> s.messages[b].content == s1.messages[b].content)
  {
    RunKeepsInv(cap, es);
    RunKeepsInv(cap, es + more);
    RunExtendsAppended(cap, es, more);
    var s, s1 := Run(Init(cap), es), Run(Init(cap), es + more);
    if b in s.messages && b in s1.messages { SamePost(s.appended, s1.appended, b, s.messages[b].content, s1.messages[b].content); }
  }

  lemma {:induction false} SamePost(appended: seq<(BatchId, Content)>, more: seq<(BatchId, Content)>, b: BatchId, first: Content, last: Content)
    requires appended <= more && WasPosted(appended, b, first) && WasPosted(more, b, last)
    requires forall i, j :: 0 <= i < j < |more| ==> more[i].0 != more[j].0
    ensures first == last
  {
    var i :| 0 <= i < |appended| && appended[i] == (b, first);
    var j :| 0 <= j < |more| && more[j] == (b, last);
    assert more[i] == appended[i];
  }

  /** Posted findings hold exactly one section per spawned task, in spawn order, each of a settled task. */
  lemma {:induction false} FindingsAreComplete(cap: nat, es: seq<Event>, i: nat)
    requires i < |Run(Init(cap), es).appended| && Run(Init(cap), es).appended[i].1.Findings?
    ensures var s := Run(Init(cap), es); var (b, content) := s.appended[i];
      && b in s.order && |content.sections| == |s.order[b]|
      && (forall k :: 0 <= k < |s.order[b]| ==>
            content.sections[k].task == s.order[b][k] && content.sections[k].status.Terminal())
  {
    RunKeepsInv(cap, es);
  }

  lemma {:induction false} SynthesisQuiet(s: State, b: BatchId, retry: nat, recoveryAt: nat)
    requires !(AllSettled(s, b) && IsActive(s, b) && s.batches[b].origin.Chat? && !Busy(s, b))
    ensures Synthesize(s, b, retry, recoveryAt).appended == s.appended
  {
  }

  lemma {:induction false} SynthesisPosts(s: State, b: BatchId, retry: nat, recoveryAt: nat)
    requires AllSettled(s, b) && IsActive(s, b) && s.batches[b].origin.Chat? && !Busy(s, b)
    ensures Synthesize(s, b, retry, recoveryAt).appended == PostTo(s, b, Findings(Render(s, Rows(s, b)))).appended
  {
  }

  /** Synthesis posts at most the rendering of an active, settled batch. */
  lemma {:induction false} SynthesisAppends(s: State, b: BatchId, retry: nat, recoveryAt: nat)
    requires Synthesize(s, b, retry, recoveryAt).appended != s.appended
    ensures AllSettled(s, b) && IsActive(s, b)
    ensures Synthesize(s, b, retry, recoveryAt).appended == s.appended + [(b, Findings(Render(s, Rows(s, b))))]
  {
    if AllSettled(s, b) && IsActive(s, b) && s.batches[b].origin.Chat? && !Busy(s, b) {
      SynthesisPosts(s, b, retry, recoveryAt);
    } else {
      SynthesisQuiet(s, b, retry, recoveryAt);
    }
  }

  lemma {:induction false} TablesPostNothing(s: State, e: Event)
    requires Enabled(s, e) && (e.EvSpawn? || e.EvCallback? || e.EvClaim? || e.EvDispatchResults? || e.EvTouch? || e.EvCancelTurn? || e.EvRestart?)
    ensures Step(s, e).appended == s.appended
  {
  }

  /** Every event but the handling of a picked job leaves the posted messages alone. */
  lemma {:induction false} OthersPostNothing(s: State, e: Event)
    requires Enabled(s, e) && !e.EvRunPicked?
    ensures Step(s, e).appended == s.appended
  {
    if e.EvSpawn? || e.EvCallback? || e.EvClaim? || e.EvDispatchResults? || e.EvTouch? || e.EvCancelTurn? || e.EvRestart? {
      TablesPostNothing(s, e);
    }
  }

  /** Of the handlers of a picked job other than synthesis, a last resort posts at most the failure notice and a
      deadline job with attempts left nothing at all. */
  lemma {:induction false} OnlySynthesisPostsFindings(s: State)
    requires s.alarm.Picked? && !(s.alarm.id.SynthesisJob? && s.alarm.retry < MAX_BATCH_ATTEMPTS)
    ensures RunPicked(s).appended == s.appended
      || (s.alarm.retry >= MAX_BATCH_ATTEMPTS && RunPicked(s).appended == s.appended + [(s.alarm.id.batch, CouldNotDeliver)])
  {
    if s.alarm.retry >= MAX_BATCH_ATTEMPTS { FailPostsNoFindings(s, s.alarm.id.batch); }
  }

  lemma {:induction false} FailPostsNoFindings(s: State, b: BatchId)
    ensures Fail(s, b).appended == s.appended || Fail(s, b).appended == s.appended + [(b, CouldNotDeliver)]
  {
  }

  /** Findings of batch `b` that repeat, section by section, the rows of the ledger, all of them settled. */
  ghost predicate MatchesLedger(s: State, b: BatchId, content: Content) {
    && AllSettled(s, b) && IsActive(s, b) && b in s.order
    && content.Findings? && |content.sections| == |s.order[b]|
    && forall k :: 0 <= k < |content.sections| ==>
         var t := s.order[b][k];
         t in s.tasks && s.tasks[t].batch == b && content.sections[k] == Section(t, s.tasks[t].status, s.tasks[t].result)
  }

  /** Whatever event of whatever run posts findings: they match the ledger as it was at that moment. */
  lemma {:induction false} FindingsMatchTheLedger(cap: nat, es: seq<Event>, e: Event, i: nat)
    requires Enabled(Run(Init(cap), es), e) && |Run(Init(cap), es).appended| <= i < |Step(Run(Init(cap), es), e).appended|
    requires Step(Run(Init(cap), es), e).appended[i].1.Findings?
    ensures var added := Step(Run(Init(cap), es), e).appended[i]; MatchesLedger(Run(Init(cap), es), added.0, added.1)
  {
    RunKeepsInv(cap, es);
    PostedFindingsMatch(Run(Init(cap), es), e, i);
  }

  lemma {:induction false} PostedFindingsMatch(s: State, e: Event, i: nat)
    requires RowsAgree(s) && Enabled(s, e) && |s.appended| <= i < |Step(s, e).appended| && Step(s, e).appended[i].1.Findings?
    ensures var added := Step(s, e).appended[i]; MatchesLedger(s, added.0, added.1)
  {
    if !e.EvRunPicked? {
      OthersPostNothing(s, e);
    } else if !(s.alarm.id.SynthesisJob? && s.alarm.retry < MAX_BATCH_ATTEMPTS) {
      OnlySynthesisPostsFindings(s);
    } else {
      var b := s.alarm.id.batch;
      SynthesisAppends(s, b, s.alarm.retry, s.alarm.recoveryAt);
      RenderedRows(s, b);
    }
  }

  lemma {:induction false} RenderedRows(s: State, b: BatchId)
    requires RowsAgree(s) && IsActive(s, b)
    ensures b in s.order && |Render(s, Rows(s, b))| == |s.order[b]|
    ensures forall k :: 0 <= k < |s.order[b]| ==>
      var t := s.order[b][k];
      t in s.tasks && s.tasks[t].batch == b && Render(s, Rows(s, b))[k] == Section(t, s.tasks[t].status, s.tasks[t].result)
  {
    RowsAreOrder(s, b);
  }

  /** The number of dispatched and running tasks never exceeds the per-user cap. */
  lemma {:induction false} InFlightAfter(s: State, e: Event)
    requires Enabled(s, e) && |InFlightTasks(s)| <= s.cap
    ensures |InFlightTasks(Step(s, e))| <= s.cap && Step(s, e).cap == s.cap
  {
    if e.EvClaim? {
      ClaimStaysInCap(s, e.retry, e.claims);
    } else if e.EvSpawn? {
      SpawnClaimsNothing(s, e.batch, e.tasks, e.origin, e.conversation, e.request);
    } else {
      StepKeepsRows(s, e);
      KeptInFlight(s, Step(s, e));
    }
  }

  lemma {:induction false} CapIsRespected(cap: nat, es: seq<Event>)
    ensures |InFlightTasks(Run(Init(cap), es))| <= cap && Run(Init(cap), es).cap == cap
  {
    if es == [] {
      assert InFlightTasks(Init(cap)) == {};
    } else {
      CapIsRespected(cap, es[..|es| - 1]);
      var s1 := Run(Init(cap), es[..|es| - 1]);
      if Enabled(s1, es[|es| - 1]) { InFlightAfter(s1, es[|es| - 1]); }
    }
  }
}
