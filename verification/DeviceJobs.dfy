/**
  The job table of local devices: enqueueing, claiming by poll, results, cancellation, revocation
  and the sweep. Every event is one statement or batch, with the clock value its handler read,
  which may be older than the present.
*/
module DeviceJobs {
  import opened Prelude

  const JOB_TTL_MS: nat := 300_000
  const CLAIM_GRACE_MS: nat := 60_000
  const RETENTION_MS: nat := 604_800_000
  const KEPT_JOBS: nat := 200
  const MAX_OPEN: nat := 30

  type JobId = nat
  type ClaimId = nat
  type DeviceId = nat
  type OwnerId = nat

  datatype Command = Command(command: string, cwd: string, timeoutMs: nat, conversation: string)

  datatype Status = Queued | ClaimedBy(claim: ClaimId, expiresAt: nat)
                  | Completed(reporter: ClaimId, result: string) | Cancelled | Expired | Unknown(lost: ClaimId) {
    predicate Open() { Queued? || ClaimedBy? }
    predicate Terminal() { !Open() }
  }

  datatype Job = Job(device: DeviceId, owner: OwnerId, confirmation: string, command: Command,
                     createdAt: nat, expiresAt: nat, status: Status, completedAt: nat)

  type Jobs = map<JobId, Job>

  datatype Claim = Claim(job: JobId, id: ClaimId)

  datatype State = State(
    now: nat,
    revoked: map<DeviceId, bool>,
    owners: map<DeviceId, OwnerId>,
    jobs: Jobs,
    used: set<JobId>,                // history: every job id ever inserted
    claims: seq<Claim>)              // history: every claim handed to a device

  const INIT := State(0, map[], map[], map[], {}, [])

  datatype Event =
    | Tick(ms: nat)
    | Enroll(device: DeviceId, owner: OwnerId)
    | Revoke(device: DeviceId, clock: nat)
    | Enqueue(id: JobId, owner: OwnerId, device: DeviceId, confirmation: string, command: Command, clock: nat)
    | Poll(device: DeviceId, claim: ClaimId, next: Option<JobId>, clock: nat)
    | DisabledPoll(device: DeviceId, clock: nat)
    | SaveResult(device: DeviceId, job: JobId, claim: ClaimId, result: string, clock: nat)
    | Cancel(owner: OwnerId, job: JobId, clock: nat)
    | Sweep(owner: OwnerId, gone: set<JobId>, clock: nat)

  predicate ActiveDevice(s: State, d: DeviceId) { d in s.revoked && !s.revoked[d] }

  function OpenJobs(jobs: Jobs, d: DeviceId): set<JobId> {
    set j | j in jobs && jobs[j].device == d && jobs[j].status.Open()
  }

  predicate CanEnqueue(s: State, owner: OwnerId, device: DeviceId, confirmation: string) {
    && ActiveDevice(s, device) && device in s.owners && s.owners[device] == owner
    && |OpenJobs(s.jobs, device)| < MAX_OPEN
    && !(exists j :: j in s.jobs && s.jobs[j].owner == owner && s.jobs[j].confirmation == confirmation)
  }

  predicate Claimable(jobs: Jobs, device: DeviceId, clock: nat, j: JobId) {
    j in jobs && jobs[j].device == device && jobs[j].status.Queued? && jobs[j].expiresAt > clock
  }

  predicate Earlier(jobs: Jobs, i: JobId, j: JobId)
    requires i in jobs && j in jobs
  {
    jobs[i].createdAt < jobs[j].createdAt || (jobs[i].createdAt == jobs[j].createdAt && i <= j)
  }

  /** The row the inner SELECT of a poll picks: the earliest claimable one. */
  predicate IsNext(jobs: Jobs, device: DeviceId, clock: nat, next: Option<JobId>) {
    match next
    case None => forall j :: j in jobs ==> !Claimable(jobs, device, clock, j)
    case Some(n) => Claimable(jobs, device, clock, n) && forall j :: j in jobs && Claimable(jobs, device, clock, j) ==> Earlier(jobs, n, j)
  }

  function SetStatus(jobs: Jobs, js: set<JobId>, status: Status, clock: nat): Jobs {
    map j | j in jobs :: if j in js then jobs[j].(status := status, completedAt := clock) else jobs[j]
  }

  function QueuedOf(jobs: Jobs, d: DeviceId): set<JobId> {
    set j | j in jobs && jobs[j].device == d && jobs[j].status.Queued?
  }

  /** The two expiring statements of sweepDeviceJobs. */
  function SweptJob(job: Job, owner: OwnerId, clock: nat): Job {
    if job.owner != owner then job
    else if job.status.Queued? && job.expiresAt <= clock then job.(status := Expired, completedAt := clock)
    else if job.status.ClaimedBy? && job.status.expiresAt <= clock then job.(status := Unknown(job.status.claim), completedAt := clock)
    else job
  }

  function Swept(jobs: Jobs, owner: OwnerId, clock: nat): Jobs {
    map j | j in jobs :: SweptJob(jobs[j], owner, clock)
  }

  /** The deleting statement: finished rows that are older than a week or not among the 200 latest. */
  predicate Discards(jobs: Jobs, owner: OwnerId, gone: set<JobId>, clock: nat) {
    var finished := set j | j in jobs && jobs[j].owner == owner && jobs[j].status.Terminal();
    && gone <= finished
    && |finished - gone| <= KEPT_JOBS
    && (forall k :: k in finished - gone ==> jobs[k].completedAt + RETENTION_MS >= clock)
    && (forall g, k :: g in gone && k in finished - gone ==> jobs[g].completedAt <= jobs[k].completedAt)
    && ((exists g :: g in gone && jobs[g].completedAt + RETENTION_MS >= clock) ==> |finished - gone| == KEPT_JOBS)
  }

  predicate Enabled(s: State, e: Event) {
    match e
    case Tick(_) => true
    case Enroll(d, _) => d !in s.revoked
    case Revoke(d, clock) => d in s.revoked && clock <= s.now
    case Enqueue(id, _, _, _, _, clock) => id !in s.used && clock <= s.now
    case Poll(d, _, next, clock) => clock <= s.now && IsNext(s.jobs, d, clock, next)
    case DisabledPoll(_, clock) => clock <= s.now
    case SaveResult(_, _, _, _, clock) => clock <= s.now
    case Cancel(_, _, clock) => clock <= s.now
    case Sweep(owner, gone, clock) => clock <= s.now && Discards(Swept(s.jobs, owner, clock), owner, gone, clock)
  }

  /** The guard of the UPDATE that stores a result. */
  predicate CanSave(s: State, device: DeviceId, job: JobId, claim: ClaimId, clock: nat) {
    && job in s.jobs && s.jobs[job].device == device
    && s.jobs[job].status.ClaimedBy? && s.jobs[job].status.claim == claim && s.jobs[job].status.expiresAt > clock
    && ActiveDevice(s, device)
  }

  datatype SaveReply = Saved | Duplicate | Rejected

  function SaveReplyTo(s: State, device: DeviceId, job: JobId, claim: ClaimId, result: string, clock: nat): SaveReply {
    if CanSave(s, device, job, claim, clock) then Saved
    else if job in s.jobs && s.jobs[job].device == device && s.jobs[job].status == Completed(claim, result) then Duplicate
    else Rejected
  }

  function Revoked(s: State, d: DeviceId, clock: nat): State {
    s.(revoked := s.revoked[d := true], jobs := SetStatus(s.jobs, QueuedOf(s.jobs, d), Cancelled, clock))
  }

  function Enqueued(s: State, id: JobId, owner: OwnerId, device: DeviceId, confirmation: string, command: Command, clock: nat): State {
    if CanEnqueue(s, owner, device, confirmation)
    then s.(used := s.used + {id},
            jobs := s.jobs[id := Job(device, owner, confirmation, command, clock, clock + JOB_TTL_MS, Queued, 0)])
    else s.(used := s.used + {id})
  }

  function ClaimJob(s: State, j: JobId, claim: ClaimId, clock: nat): State
    requires j in s.jobs
  {
    var until := clock + s.jobs[j].command.timeoutMs + CLAIM_GRACE_MS;
    s.(jobs := s.jobs[j := s.jobs[j].(status := ClaimedBy(claim, until))], claims := s.claims + [Claim(j, claim)])
  }

  function Polled(s: State, d: DeviceId, claim: ClaimId, next: Option<JobId>, clock: nat): State {
    if next.Some? && next.value in s.jobs && ActiveDevice(s, d) then ClaimJob(s, next.value, claim, clock) else s
  }

  function ResultSaved(s: State, d: DeviceId, j: JobId, claim: ClaimId, result: string, clock: nat): State {
    if CanSave(s, d, j, claim, clock)
    then s.(jobs := s.jobs[j := s.jobs[j].(status := Completed(claim, result), completedAt := clock)]) else s
  }

  function CancelJob(s: State, owner: OwnerId, j: JobId, clock: nat): State {
    if j in s.jobs && s.jobs[j].owner == owner && s.jobs[j].status.Queued?
    then s.(jobs := s.jobs[j := s.jobs[j].(status := Cancelled, completedAt := clock)]) else s
  }

  function Step(s: State, e: Event): State
    requires Enabled(s, e)
  {
    match e
    case Tick(ms) => s.(now := s.now + ms)
    case Enroll(d, owner) => s.(revoked := s.revoked[d := false], owners := s.owners[d := owner])
    case Revoke(d, clock) => Revoked(s, d, clock)
    case Enqueue(id, owner, device, confirmation, command, clock) => Enqueued(s, id, owner, device, confirmation, command, clock)
    case Poll(d, claim, next, clock) => Polled(s, d, claim, next, clock)
    case DisabledPoll(d, clock) => s.(jobs := SetStatus(s.jobs, QueuedOf(s.jobs, d), Cancelled, clock))
    case SaveResult(d, j, claim, result, clock) => ResultSaved(s, d, j, claim, result, clock)
    case Cancel(owner, j, clock) => CancelJob(s, owner, j, clock)
    case Sweep(owner, gone, clock) => s.(jobs := Swept(s.jobs, owner, clock) - gone)
  }

  function Run(s: State, es: seq<Event>): State {
    if es == [] then s
    else var s1 := Run(s, es[..|es| - 1]);
         var e := es[|es| - 1];
         if Enabled(s1, e) then Step(s1, e) else s1
  }

  // ---------------------------------------------------------------- what every step keeps

  /** The state machine of one job: queued to claimed, cancelled or expired; claimed to completed or
      unknown under the same claim; the rest is final. */
  predicate Moves(a: Job, b: Job) {
    && b.device == a.device && b.owner == a.owner && b.confirmation == a.confirmation && b.command == a.command
    && b.createdAt == a.createdAt && b.expiresAt == a.expiresAt
    && match a.status
       case Queued => !b.status.Completed? && !b.status.Unknown?
       case ClaimedBy(c, _) =>
         b.status == a.status || b.status == Unknown(c) || (b.status.Completed? && b.status.reporter == c)
       case _ => b == a
  }

  /** Jobs that stay move along their state machine; new ones start queued under a new id. */
  ghost predicate JobsMove(s: State, t: State) {
    && (forall j :: j in s.jobs && j in t.jobs ==> Moves(s.jobs[j], t.jobs[j]))
    && (forall j :: j in t.jobs && j !in s.jobs ==> j !in s.used && t.jobs[j].status.Queued?)
  }

  predicate ClaimOf(job: Job, c: ClaimId) {
    match job.status
    case ClaimedBy(id, _) => id == c
    case Completed(reporter, _) => reporter == c
    case Unknown(lost) => lost == c
    case _ => false
  }

  ghost predicate ClaimsOnce(s: State) {
    && (forall k :: 0 <= k < |s.claims| ==> s.claims[k].job in s.used)
    && (forall k :: 0 <= k < |s.claims| && s.claims[k].job in s.jobs ==> ClaimOf(s.jobs[s.claims[k].job], s.claims[k].id))
    && (forall k, l :: 0 <= k < l < |s.claims| ==> s.claims[k].job != s.claims[l].job)
  }

  ghost predicate OpenCapped(jobs: Jobs) {
    forall d :: |OpenJobs(jobs, d)| <= MAX_OPEN
  }

  ghost predicate OnePerConfirmation(jobs: Jobs) {
    forall i, j :: i in jobs && j in jobs && jobs[i].owner == jobs[j].owner && jobs[i].confirmation == jobs[j].confirmation ==> i == j
  }

  /** Nothing waits in the queue of a revoked device. */
  ghost predicate RevokedIdle(s: State) {
    forall j :: j in s.jobs && s.jobs[j].status.Queued? ==> ActiveDevice(s, s.jobs[j].device)
  }

  ghost predicate Inv(s: State) {
    && s.jobs.Keys <= s.used
    && ClaimsOnce(s) && OpenCapped(s.jobs) && OnePerConfirmation(s.jobs) && RevokedIdle(s)
  }

  lemma {:induction false} FewerOpen(a: Jobs, b: Jobs)
    requires OpenCapped(a) && forall j :: j in b ==> j in a && a[j].device == b[j].device && (b[j].status.Open() ==> a[j].status.Open())
    ensures OpenCapped(b)
  {
    forall d ensures |OpenJobs(b, d)| <= MAX_OPEN { SubsetSize(OpenJobs(b, d), OpenJobs(a, d)); }
  }

  lemma {:induction false} OneMoreOpen(jobs: Jobs, id: JobId, job: Job)
    requires OpenCapped(jobs) && id !in jobs && |OpenJobs(jobs, job.device)| < MAX_OPEN && job.status.Queued?
    ensures OpenCapped(jobs[id := job])
  {
    var more := jobs[id := job];
    forall d ensures |OpenJobs(more, d)| <= MAX_OPEN {
      assert OpenJobs(more, d) == OpenJobs(jobs, d) + if d == job.device then {id} else {};
    }
  }

  /** Replacing the table by one in which the same jobs, or fewer, have moved on without a new claim. */
  lemma {:induction false} MovedKeepsInv(s: State, jobs: Jobs)
    requires Inv(s)
    requires forall j :: j in jobs ==> j in s.jobs && Moves(s.jobs[j], jobs[j]) && (s.jobs[j].status.Queued? ==> !jobs[j].status.ClaimedBy?)
    ensures Inv(s.(jobs := jobs))
  {
    FewerOpen(s.jobs, jobs);
    var t := s.(jobs := jobs);
    forall k | 0 <= k < |s.claims| && s.claims[k].job in jobs ensures ClaimOf(jobs[s.claims[k].job], s.claims[k].id) {
      assert ClaimOf(s.jobs[s.claims[k].job], s.claims[k].id);
    }
    assert ClaimsOnce(t);
    assert RevokedIdle(t);
  }

  lemma {:induction false} EnqueueKeepsInv(s: State, id: JobId, owner: OwnerId, device: DeviceId, confirmation: string, command: Command, clock: nat)
    requires Inv(s) && id !in s.used
    ensures var t := Enqueued(s, id, owner, device, confirmation, command, clock); Inv(t) && JobsMove(s, t)
  {
    var t := Enqueued(s, id, owner, device, confirmation, command, clock);
    if CanEnqueue(s, owner, device, confirmation) { OneMoreOpen(s.jobs, id, t.jobs[id]); }
    assert ClaimsOnce(t);
    assert OnePerConfirmation(t.jobs);
    assert RevokedIdle(t);
  }

  lemma {:induction false} ClaimKeepsInv(s: State, j: JobId, claim: ClaimId, clock: nat)
    requires Inv(s) && j in s.jobs && s.jobs[j].status.Queued?
    ensures Inv(ClaimJob(s, j, claim, clock)) && JobsMove(s, ClaimJob(s, j, claim, clock))
  {
    var t := ClaimJob(s, j, claim, clock);
    FewerOpen(s.jobs, t.jobs);
    forall k | 0 <= k < |s.claims| ensures s.claims[k].job != j {
      assert s.claims[k].job in s.jobs ==> ClaimOf(s.jobs[s.claims[k].job], s.claims[k].id);
    }
    assert ClaimsOnce(t);
    assert OnePerConfirmation(t.jobs);
    assert RevokedIdle(t);
  }

  lemma {:induction false} RevokeKeepsInv(s: State, d: DeviceId, clock: nat)
    requires Inv(s)
    ensures Inv(Revoked(s, d, clock)) && JobsMove(s, Revoked(s, d, clock))
  {
    var jobs := SetStatus(s.jobs, QueuedOf(s.jobs, d), Cancelled, clock);
    MovedKeepsInv(s, jobs);
    assert RevokedIdle(s.(revoked := s.revoked[d := true], jobs := jobs));
  }

  lemma {:induction false} SaveKeepsInv(s: State, d: DeviceId, j: JobId, claim: ClaimId, result: string, clock: nat)
    requires Inv(s)
    ensures var t := ResultSaved(s, d, j, claim, result, clock); Inv(t) && JobsMove(s, t)
  {
    MovedKeepsInv(s, ResultSaved(s, d, j, claim, result, clock).jobs);
  }

  lemma {:induction false} CancelKeepsInv(s: State, owner: OwnerId, j: JobId, clock: nat)
    requires Inv(s)
    ensures Inv(CancelJob(s, owner, j, clock)) && JobsMove(s, CancelJob(s, owner, j, clock))
  {
    MovedKeepsInv(s, CancelJob(s, owner, j, clock).jobs);
  }

  lemma {:induction false} SweepKeepsInv(s: State, owner: OwnerId, gone: set<JobId>, clock: nat)
    requires Inv(s)
    ensures var t := s.(jobs := Swept(s.jobs, owner, clock) - gone); Inv(t) && JobsMove(s, t)
  {
    MovedKeepsInv(s, Swept(s.jobs, owner, clock) - gone);
  }

  lemma {:induction false} OtherKeepsInv(s: State, e: Event)
    requires Inv(s) && (e.Tick? || e.Enroll? || e.DisabledPoll?) && Enabled(s, e)
    ensures Inv(Step(s, e)) && JobsMove(s, Step(s, e))
  {
    match e
    case DisabledPoll(d, clock) => MovedKeepsInv(s, SetStatus(s.jobs, QueuedOf(s.jobs, d), Cancelled, clock));
    case _ =>
  }

  lemma {:induction false} StepKeepsInv(s: State, e: Event)
    requires Inv(s) && Enabled(s, e)
    ensures Inv(Step(s, e)) && JobsMove(s, Step(s, e))
  {
    match e
    case Revoke(d, clock) => RevokeKeepsInv(s, d, clock);
    case Enqueue(id, owner, device, confirmation, command, clock) => EnqueueKeepsInv(s, id, owner, device, confirmation, command, clock);
    case Poll(d, claim, next, clock) => if next.Some? { ClaimKeepsInv(s, next.value, claim, clock); }
    case SaveResult(d, j, claim, result, clock) => SaveKeepsInv(s, d, j, claim, result, clock);
    case Cancel(owner, j, clock) => CancelKeepsInv(s, owner, j, clock);
    case Sweep(owner, gone, clock) => SweepKeepsInv(s, owner, gone, clock);
    case _ => OtherKeepsInv(s, e);
  }

  lemma {:induction false} RunKeepsInv(es: seq<Event>)
    ensures Inv(Run(INIT, es))
  {
    if es == [] {
      forall d ensures |OpenJobs(INIT.jobs, d)| == 0 { assert OpenJobs(INIT.jobs, d) == {}; }
    } else {
      RunKeepsInv(es[..|es| - 1]);
      var s := Run(INIT, es[..|es| - 1]);
      if Enabled(s, es[|es| - 1]) { StepKeepsInv(s, es[|es| - 1]); }
    }
  }

  // ---------------------------------------------------------------- main theorems

  /** Each job is claimed at most once, whatever devices poll and however late their clocks are. */
  lemma {:induction false} ClaimedAtMostOnce(es: seq<Event>, k: nat, l: nat)
    requires k < l < |Run(INIT, es).claims|
    ensures Run(INIT, es).claims[k].job != Run(INIT, es).claims[l].job
  {
    RunKeepsInv(es);
  }

  /** No device ever has more than 30 jobs queued or claimed. */
  lemma {:induction false} QueueIsCapped(es: seq<Event>, d: DeviceId)
    ensures |OpenJobs(Run(INIT, es).jobs, d)| <= MAX_OPEN
  {
    RunKeepsInv(es);
  }

  /** Every step of every run moves each job along its state machine, and finished jobs not at all. */
  lemma {:induction false} JobsFollowTheirStates(es: seq<Event>, e: Event, j: JobId)
    requires Enabled(Run(INIT, es), e) && j in Run(INIT, es).jobs && j in Step(Run(INIT, es), e).jobs
    ensures Moves(Run(INIT, es).jobs[j], Step(Run(INIT, es), e).jobs[j])
  {
    RunKeepsInv(es);
    StepKeepsInv(Run(INIT, es), e);
  }

  /** A job that is gone never comes back under the same id. */
  lemma {:induction false} GoneForGood(s: State, es: seq<Event>, j: JobId)
    requires Inv(s) && j in s.used && j !in s.jobs
    ensures Inv(Run(s, es)) && j in Run(s, es).used && j !in Run(s, es).jobs
  {
    if es != [] {
      GoneForGood(s, es[..|es| - 1], j);
      var t := Run(s, es[..|es| - 1]);
      if Enabled(t, es[|es| - 1]) { StepKeepsInv(t, es[|es| - 1]); }
    }
  }

  /** Once finished, a job is either exactly as it was or deleted, at any later time. */
  lemma {:induction false} FinishedIsFinal(s: State, es: seq<Event>, j: JobId)
    requires Inv(s) && j in s.jobs && s.jobs[j].status.Terminal()
    ensures Inv(Run(s, es)) && j in Run(s, es).used && (j in Run(s, es).jobs ==> Run(s, es).jobs[j] == s.jobs[j])
  {
    if es != [] {
      FinishedIsFinal(s, es[..|es| - 1], j);
      var t := Run(s, es[..|es| - 1]);
      if Enabled(t, es[|es| - 1]) { StepKeepsInv(t, es[|es| - 1]); }
    }
  }

  /** After a result was saved and whatever came later: while the job is kept, the same report from the same
      device is a duplicate; every other report, and every report once the job is gone, is refused; none
      changes anything. */
  lemma {:induction false} LateReportsChangeNothing(es: seq<Event>, d: DeviceId, j: JobId, claim: ClaimId, result: string, clock: nat, more: seq<Event>,
                                 d2: DeviceId, claim2: ClaimId, result2: string, clock2: nat)
    requires CanSave(Run(INIT, es), d, j, claim, clock) && clock <= Run(INIT, es).now
    ensures var t := Run(ResultSaved(Run(INIT, es), d, j, claim, result, clock), more);
      && ResultSaved(t, d2, j, claim2, result2, clock2) == t
      && SaveReplyTo(t, d2, j, claim2, result2, clock2) ==
           if j in t.jobs && d2 == d && claim2 == claim && result2 == result then Duplicate else Rejected
  {
    RunKeepsInv(es);
    StepKeepsInv(Run(INIT, es), SaveResult(d, j, claim, result, clock));
    var s := ResultSaved(Run(INIT, es), d, j, claim, result, clock);
    FinishedIsFinal(s, more, j);
    SettledReport(s, Run(s, more), d, j, claim, result, d2, claim2, result2, clock2);
  }

  lemma {:induction false} SettledReport(s: State, t: State, d: DeviceId, j: JobId, claim: ClaimId, result: string,
                      d2: DeviceId, claim2: ClaimId, result2: string, clock2: nat)
    requires j in s.jobs && s.jobs[j].device == d && s.jobs[j].status == Completed(claim, result)
    requires j in t.jobs ==> t.jobs[j] == s.jobs[j]
    ensures ResultSaved(t, d2, j, claim2, result2, clock2) == t
    ensures SaveReplyTo(t, d2, j, claim2, result2, clock2) ==
      if j in t.jobs && d2 == d && claim2 == claim && result2 == result then Duplicate else Rejected
  {
  }

  /** A revoked device is never handed another job. */
  lemma {:induction false} RevokedGetsNothing(es: seq<Event>, d: DeviceId, claim: ClaimId, next: Option<JobId>, clock: nat)
    requires Enabled(Run(INIT, es), Poll(d, claim, next, clock)) && !ActiveDevice(Run(INIT, es), d)
    ensures next.None? && Step(Run(INIT, es), Poll(d, claim, next, clock)) == Run(INIT, es)
  {
    RunKeepsInv(es);
  }

  // ---------------------------------------------------------------- the statements in place

  class JobTable {
    var jobs: Jobs

    constructor ()
      ensures jobs == map[]
    {
      jobs := map[];
    }

    /** The inner SELECT of a poll: a scan for the earliest claimable row. */
    method Earliest(device: DeviceId, clock: nat) returns (next: Option<JobId>)
      ensures IsNext(jobs, device, clock, next)
    {
      next := None;
      var rest := jobs.Keys;
      while rest != {}
        invariant rest <= jobs.Keys
        invariant next.None? ==> forall j :: j in jobs && j !in rest ==> !Claimable(jobs, device, clock, j)
        invariant next.Some? ==> Claimable(jobs, device, clock, next.value)
        invariant next.Some? ==> forall j :: j in jobs && j !in rest && Claimable(jobs, device, clock, j) ==> Earlier(jobs, next.value, j)
        decreases rest
      {
        var j :| j in rest;
        rest := rest - {j};
        if Claimable(jobs, device, clock, j) && (next.None? || !Earlier(jobs, next.value, j)) { next := Some(j); }
      }
    }

    method ClaimNext(device: DeviceId, active: bool, claim: ClaimId, clock: nat) returns (claimed: Option<JobId>)
      modifies this
      ensures claimed.None? ==> jobs == old(jobs) && (!active || IsNext(old(jobs), device, clock, None))
      ensures claimed.Some? ==> active && IsNext(old(jobs), device, clock, claimed)
      ensures claimed.Some? ==> jobs == old(jobs)[claimed.value := old(jobs)[claimed.value].(status :=
        ClaimedBy(claim, clock + old(jobs)[claimed.value].command.timeoutMs + CLAIM_GRACE_MS))]
    {
      claimed := None;
      if !active { return; }
      claimed := Earliest(device, clock);
      if claimed.Some? {
        var job := jobs[claimed.value];
        jobs := jobs[claimed.value := job.(status := ClaimedBy(claim, clock + job.command.timeoutMs + CLAIM_GRACE_MS))];
      }
    }

    /** saveResult: the guarded UPDATE, then the look at what is there. */
    method Report(device: DeviceId, active: bool, j: JobId, claim: ClaimId, result: string, clock: nat) returns (reply: SaveReply)
      modifies this
      ensures var s := INIT.(jobs := old(jobs), revoked := map[device := !active]);
        reply == SaveReplyTo(s, device, j, claim, result, clock) && jobs == ResultSaved(s, device, j, claim, result, clock).jobs
    {
      if active && j in jobs && jobs[j].device == device && jobs[j].status.ClaimedBy?
         && jobs[j].status.claim == claim && jobs[j].status.expiresAt > clock {
        jobs := jobs[j := jobs[j].(status := Completed(claim, result), completedAt := clock)];
        return Saved;
      }
      if j in jobs && jobs[j].device == device && jobs[j].status == Completed(claim, result) { return Duplicate; }
      return Rejected;
    }
  }
}
