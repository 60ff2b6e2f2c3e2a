/** The life of each device and of each job as the events about it alone tell it. */
module DeviceStories {
  import opened Prelude
  import opened DeviceJobs

  datatype Device = Device(owner: OwnerId, revoked: bool)

  function NextDevice(s: State, e: Event, d: DeviceId, before: Option<Device>): Option<Device> {
    if e.Enroll? && e.device == d && before.None? then Some(Device(e.owner, false))
    else if e.Revoke? && e.device == d && before.Some? && Enabled(s, e) then Some(before.value.(revoked := true))
    else before
  }

  ghost function DeviceOf(es: seq<Event>, d: DeviceId): Option<Device> {
    if es == [] then None else NextDevice(Run(INIT, es[..|es| - 1]), es[|es| - 1], d, DeviceOf(es[..|es| - 1], d))
  }

  ghost predicate Works(es: seq<Event>, d: DeviceId) { DeviceOf(es, d).Some? && !DeviceOf(es, d).value.revoked }

  predicate Waits(job: Job) { job.status.Queued? }
  predicate Pends(job: Job) { job.status.Queued? || job.status.ClaimedBy? }

  function PendingOf(jobs: Jobs, d: DeviceId): set<JobId> { set k | k in jobs && jobs[k].device == d && Pends(jobs[k]) }

  /** An enqueued job is taken if its device works for that owner and has fewer than 30 jobs queued or claimed, and
      the owner has no job of that confirmation. */
  ghost predicate Taken(es: seq<Event>, owner: OwnerId, d: DeviceId, confirmation: string) {
    var jobs := Run(INIT, es).jobs;
    && Works(es, d) && DeviceOf(es, d).value.owner == owner
    && |PendingOf(jobs, d)| < 30
    && forall k :: k in jobs ==> jobs[k].owner != owner || jobs[k].confirmation != confirmation
  }

  function CancelledAt(job: Job, clock: nat): Job { if Waits(job) then job.(status := Cancelled, completedAt := clock) else job }

  /** A sweep of the owner: queued jobs run out after five minutes, claims after their time. */
  function SweptAt(job: Job, clock: nat): Job {
    match job.status
    case Queued => if job.expiresAt <= clock then job.(status := Expired, completedAt := clock) else job
    case ClaimedBy(claim, until) => if until <= clock then job.(status := Unknown(claim), completedAt := clock) else job
    case _ => job
  }

  /** The next chapter, for an event that is enabled after `es`. */
  ghost function Next(es: seq<Event>, e: Event, j: JobId, before: Option<Job>): Option<Job> {
    match e
    case Enqueue(id, owner, d, confirmation, command, clock) =>
      if id == j && Taken(es, owner, d, confirmation)
      then Some(Job(d, owner, confirmation, command, clock, clock + 300_000, Queued, 0)) else before
    case Poll(d, claim, next, clock) =>
      if next == Some(j) && before.Some? && Works(es, d)
      then Some(before.value.(status := ClaimedBy(claim, clock + before.value.command.timeoutMs + 60_000))) else before
    case SaveResult(d, k, claim, result, clock) =>
      if k == j && before.Some? && before.value.device == d && Works(es, d)
         && before.value.status.ClaimedBy? && before.value.status.claim == claim && clock < before.value.status.expiresAt
      then Some(before.value.(status := Completed(claim, result), completedAt := clock)) else before
    case Cancel(owner, k, clock) =>
      if k == j && before.Some? && before.value.owner == owner then Some(CancelledAt(before.value, clock)) else before
    case Revoke(d, clock) => if before.Some? && before.value.device == d then Some(CancelledAt(before.value, clock)) else before
    case DisabledPoll(d, clock) => if before.Some? && before.value.device == d then Some(CancelledAt(before.value, clock)) else before
    case Sweep(owner, gone, clock) =>
      if j in gone then None
      else if before.Some? && before.value.owner == owner then Some(SweptAt(before.value, clock)) else before
    case _ => before
  }

  ghost function Story(es: seq<Event>, j: JobId): Option<Job> {
    if es == [] then None
    else
      var init, e := es[..|es| - 1], es[|es| - 1];
      if Enabled(Run(INIT, init), e) then Next(init, e, j, Story(init, j)) else Story(init, j)
  }

  function Stored(jobs: Jobs, j: JobId): Option<Job> { if j in jobs then Some(jobs[j]) else None }

  // ---------------------------------------------------------------- the table tells the same stories

  predicate DeviceAgrees(s: State, d: DeviceId, device: Option<Device>) {
    && (d in s.revoked <==> device.Some?) && (d in s.owners <==> device.Some?)
    && (device.Some? ==> s.revoked[d] == device.value.revoked && s.owners[d] == device.value.owner)
  }

  lemma {:induction false} DeviceStep(s: State, e: Event, d: DeviceId, device: Option<Device>)
    requires DeviceAgrees(s, d, device)
    ensures DeviceAgrees(if Enabled(s, e) then Step(s, e) else s, d, NextDevice(s, e, d, device))
  {
  }

  lemma {:induction false} DevicesAgree(es: seq<Event>, d: DeviceId)
    ensures DeviceAgrees(Run(INIT, es), d, DeviceOf(es, d))
  {
    if es != [] {
      DevicesAgree(es[..|es| - 1], d);
      DeviceStep(Run(INIT, es[..|es| - 1]), es[|es| - 1], d, DeviceOf(es[..|es| - 1], d));
    }
  }

  lemma {:induction false} WorksIff(es: seq<Event>, d: DeviceId)
    ensures ActiveDevice(Run(INIT, es), d) <==> Works(es, d)
  {
    DevicesAgree(es, d);
  }

  lemma {:induction false} TakenIff(es: seq<Event>, owner: OwnerId, d: DeviceId, confirmation: string)
    ensures CanEnqueue(Run(INIT, es), owner, d, confirmation) <==> Taken(es, owner, d, confirmation)
  {
    DevicesAgree(es, d);
    var jobs := Run(INIT, es).jobs;
    assert OpenJobs(jobs, d) == PendingOf(jobs, d);
  }

  lemma {:induction false} EnqueueTells(es: seq<Event>, e: Event, j: JobId)
    requires e.Enqueue? && Enabled(Run(INIT, es), e)
    ensures Stored(Step(Run(INIT, es), e).jobs, j) == Next(es, e, j, Stored(Run(INIT, es).jobs, j))
  {
    TakenIff(es, e.owner, e.device, e.confirmation);
  }

  lemma {:induction false} PollTells(es: seq<Event>, e: Event, j: JobId)
    requires e.Poll? && Enabled(Run(INIT, es), e)
    ensures Stored(Step(Run(INIT, es), e).jobs, j) == Next(es, e, j, Stored(Run(INIT, es).jobs, j))
  {
    WorksIff(es, e.device);
  }

  lemma {:induction false} ResultTells(es: seq<Event>, e: Event, j: JobId)
    requires e.SaveResult? && Enabled(Run(INIT, es), e)
    ensures Stored(Step(Run(INIT, es), e).jobs, j) == Next(es, e, j, Stored(Run(INIT, es).jobs, j))
  {
    WorksIff(es, e.device);
  }

  lemma {:induction false} SweepTells(es: seq<Event>, e: Event, j: JobId)
    requires e.Sweep? && Enabled(Run(INIT, es), e)
    ensures Stored(Step(Run(INIT, es), e).jobs, j) == Next(es, e, j, Stored(Run(INIT, es).jobs, j))
  {
    var jobs := Run(INIT, es).jobs;
    if j in jobs { assert SweptJob(jobs[j], e.owner, e.clock) == if jobs[j].owner == e.owner then SweptAt(jobs[j], e.clock) else jobs[j]; }
  }

  lemma {:induction false} StepTells(es: seq<Event>, e: Event, j: JobId)
    requires Enabled(Run(INIT, es), e)
    ensures Stored(Step(Run(INIT, es), e).jobs, j) == Next(es, e, j, Stored(Run(INIT, es).jobs, j))
  {
    if e.Enqueue? {
      EnqueueTells(es, e, j);
    } else if e.Poll? {
      PollTells(es, e, j);
    } else if e.SaveResult? {
      ResultTells(es, e, j);
    } else if e.Sweep? {
      SweepTells(es, e, j);
    }
  }

  /** In every run each row of the job table is exactly what the events about that job alone tell. */
  lemma {:induction false} JobsAreTheirStories(es: seq<Event>, j: JobId)
    ensures Stored(Run(INIT, es).jobs, j) == Story(es, j)
  {
    if es != [] {
      var init, e := es[..|es| - 1], es[|es| - 1];
      JobsAreTheirStories(init, j);
      if Enabled(Run(INIT, init), e) { StepTells(init, e, j); }
    }
  }

  // ---------------------------------------------------------------- polls, sweeps and the claims handed out

  /** The claims that polls of working devices got. */
  ghost function HandedOut(es: seq<Event>): seq<Claim> {
    if es == [] then []
    else
      var init, e := es[..|es| - 1], es[|es| - 1];
      if e.Poll? && Enabled(Run(INIT, init), e) && e.next.Some? && Works(init, e.device)
      then HandedOut(init) + [Claim(e.next.value, e.claim)] else HandedOut(init)
  }

  lemma {:induction false} ClaimsAreHandedOut(es: seq<Event>)
    ensures Run(INIT, es).claims == HandedOut(es)
  {
    if es != [] {
      ClaimsAreHandedOut(es[..|es| - 1]);
      if es[|es| - 1].Poll? { WorksIff(es[..|es| - 1], es[|es| - 1].device); }
    }
  }

  predicate Due(job: Job, d: DeviceId, clock: nat) { job.device == d && Waits(job) && clock < job.expiresAt }

  /** A poll takes the job of its device that has waited longest and has not run out, the smaller id first among equals,
      and takes none only if there is none. */
  lemma {:induction false} PollTakesTheLongestWaiting(es: seq<Event>, e: Event)
    requires e.Poll? && Enabled(Run(INIT, es), e)
    ensures var jobs := Run(INIT, es).jobs;
      match e.next
      case None => forall j :: j in jobs ==> !Due(jobs[j], e.device, e.clock)
      case Some(n) =>
        && n in jobs && Due(jobs[n], e.device, e.clock)
        && forall j :: j in jobs && Due(jobs[j], e.device, e.clock) && j != n ==>
             jobs[n].createdAt < jobs[j].createdAt || (jobs[n].createdAt == jobs[j].createdAt && n < j)
  {
    var jobs := Run(INIT, es).jobs;
    forall j | j in jobs && Due(jobs[j], e.device, e.clock) ensures Claimable(jobs, e.device, e.clock, j) {}
  }

  /** What a sweep deletes is finished; of the finished jobs of its owner it keeps at most 200, none older than a week,
      none that finished before one it deletes, and all 200 if it deletes any that is younger. */
  lemma {:induction false} SweepKeepsTheLatest(es: seq<Event>, e: Event)
    requires e.Sweep? && Enabled(Run(INIT, es), e)
    ensures var swept, t := Swept(Run(INIT, es).jobs, e.owner, e.clock), Step(Run(INIT, es), e);
      var kept := set j | j in t.jobs && t.jobs[j].owner == e.owner && !Pends(t.jobs[j]);
      && (forall j :: j in swept && j !in t.jobs ==> swept[j].owner == e.owner && !Pends(swept[j]))
      && |kept| <= 200
      && (forall k :: k in kept ==> e.clock <= t.jobs[k].completedAt + 7 * 86_400_000)
      && (forall g, k :: g in swept && g !in t.jobs && k in kept ==> swept[g].completedAt <= t.jobs[k].completedAt)
      && ((exists g :: g in swept && g !in t.jobs && e.clock <= swept[g].completedAt + 7 * 86_400_000) ==> |kept| == 200)
  {
    var swept, t := Swept(Run(INIT, es).jobs, e.owner, e.clock), Step(Run(INIT, es), e);
    var finished := set j | j in swept && swept[j].owner == e.owner && swept[j].status.Terminal();
    assert (set j | j in t.jobs && t.jobs[j].owner == e.owner && !Pends(t.jobs[j])) == finished - e.gone;
  }

  /** A report is stored exactly if its job is claimed by it and the claim has not run out, on an enrolled and unrevoked
      device; it is a duplicate exactly if it is stored already; any other is rejected. What is not stored changes nothing. */
  lemma {:induction false} ReportIsAnswered(s: State, device: DeviceId, job: JobId, claim: ClaimId, result: string, clock: nat)
    ensures var reply, t := SaveReplyTo(s, device, job, claim, result, clock), ResultSaved(s, device, job, claim, result, clock);
      var ours := job in s.jobs && s.jobs[job].device == device;
      && (reply.Saved? <==> ours && s.jobs[job].status.ClaimedBy? && s.jobs[job].status.claim == claim && clock < s.jobs[job].status.expiresAt
                            && device in s.revoked && !s.revoked[device])
      && (reply.Duplicate? <==> ours && s.jobs[job].status == Completed(claim, result))
      && (if reply.Saved? then t.jobs.Keys == s.jobs.Keys && t.jobs[job].status == Completed(claim, result) else t == s)
  {
  }
}
