/**
  The two-phase gate of a confirm tool over the confirmation store of its owner. One `Event` is
  one stretch of code between two awaits, so calls, decisions, expiry and crashes interleave
  freely. The argument hash is represented by the text it digests (no collisions).
*/
module ConfirmationGate {
  import opened Prelude
  import opened CanonicalJson

  const CONFIRMATION_TTL_MS: nat := 600_000

  type ConfirmationId = nat
  type ConversationId = nat
  type ToolName = string
  type CallId = nat

  // ---------------------------------------------------------------- the store

  datatype Status = Pending | Approved | Declined

  datatype Row = Row(conversation: ConversationId, tool: ToolName, hash: Text, status: Status,
                     expiresAt: nat, approvedAt: Option<nat>, consumedAt: Option<nat>)

  type Rows = map<ConfirmationId, Row>

  function Issue(rows: Rows, id: ConfirmationId, conversation: ConversationId, tool: ToolName, hash: Text, now: nat): Rows {
    var kept := map k | k in rows && rows[k].expiresAt >= now :: rows[k];
    kept[id := Row(conversation, tool, hash, Pending, now + CONFIRMATION_TTL_MS, None, None)]
  }

  predicate CanDecide(rows: Rows, id: ConfirmationId, now: nat) {
    id in rows && rows[id].status.Pending? && rows[id].expiresAt > now
  }

  function Decide(rows: Rows, id: ConfirmationId, confirmed: bool, now: nat): Rows {
    if CanDecide(rows, id, now)
    then rows[id := rows[id].(status := if confirmed then Approved else Declined, approvedAt := Some(now))]
    else rows
  }

  predicate Executable(rows: Rows, id: ConfirmationId, conversation: ConversationId, tool: ToolName, hash: Text, now: nat) {
    && id in rows
    && rows[id].consumedAt.None?
    && rows[id].status.Approved? && rows[id].approvedAt.Some?
    && rows[id].expiresAt > now
    && rows[id].conversation == conversation && rows[id].tool == tool && rows[id].hash == hash
  }

  predicate CanConsume(rows: Rows, id: ConfirmationId, now: nat) {
    id in rows && rows[id].consumedAt.None? && rows[id].status.Approved? && rows[id].expiresAt > now
  }

  function Consume(rows: Rows, id: ConfirmationId, now: nat): Rows {
    if CanConsume(rows, id, now) then rows[id := rows[id].(consumedAt := Some(now))] else rows
  }

  function ClearConversation(rows: Rows, conversation: ConversationId): Rows {
    map k | k in rows && rows[k].conversation != conversation :: rows[k]
  }

  /** The table the owner keeps, updated in place. */
  class Store {
    var rows: Rows

    constructor ()
      ensures rows == map[]
    {
      rows := map[];
    }

    method IssueConfirmation(id: ConfirmationId, conversation: ConversationId, tool: ToolName, hash: Text, now: nat)
      modifies this
      ensures rows == Issue(old(rows), id, conversation, tool, hash, now)
    {
      rows := rows - (set k | k in rows && rows[k].expiresAt < now);
      rows := rows[id := Row(conversation, tool, hash, Pending, now + CONFIRMATION_TTL_MS, None, None)];
    }

    method DecideConfirmation(id: ConfirmationId, confirmed: bool, now: nat) returns (decided: bool)
      modifies this
      ensures rows == Decide(old(rows), id, confirmed, now)
      ensures decided <==> CanDecide(old(rows), id, now)
    {
      if id !in rows || !rows[id].status.Pending? || rows[id].expiresAt <= now { return false; }
      var next := if confirmed then Approved else Declined;
      rows := rows[id := rows[id].(status := next, approvedAt := Some(now))];
      return rows[id].status == next && rows[id].approvedAt == Some(now);
    }

    method ConsumeConfirmation(id: ConfirmationId, now: nat) returns (won: bool)
      modifies this
      ensures rows == Consume(old(rows), id, now)
      ensures won <==> CanConsume(old(rows), id, now)
    {
      won := id in rows && rows[id].consumedAt.None? && rows[id].status.Approved? && rows[id].expiresAt > now;
      if won {
        rows := rows[id := rows[id].(consumedAt := Some(now))];
      }
    }
  }

  // ---------------------------------------------------------------- calls of the gated tool

  /** What one call of the gated tool presents, with the hash it computes first. */
  datatype Request = Request(conversation: ConversationId, tool: ToolName, scope: Option<Text>,
                             input: seq<Field>, presented: Option<ConfirmationId>, hash: Text) {
    predicate Hashed() { IsValue(Obj(input)) && hash == Preimage(input, scope) }
  }

  /** Where a call stands: before the check, between check and consume, after a won consume, or
      on its way to a fresh confirmation. */
  datatype Phase = Started | Checked | Won | Refused

  datatype Call = Call(request: Request, phase: Phase)

  datatype Execution = Execution(call: CallId, id: ConfirmationId, request: Request)
  datatype Issued = Issued(request: Request, at: nat)
  datatype Spent = Spent(call: CallId, at: nat)

  datatype State = State(
    now: nat,
    rows: Rows,
    calls: map<CallId, Call>,
    started: set<CallId>,                       // history: every call ever begun,
    requests: set<Request>,                     // and what it presented
    issued: map<ConfirmationId, Issued>,        // history: what each id was issued for
    approved: set<ConfirmationId>,              // history: ids that were confirmed
    spent: map<ConfirmationId, Spent>,          // history: which call won an id, and when
    executions: seq<Execution>)                 // history: every external execution

  const INIT := State(0, map[], map[], {}, {}, map[], {}, map[], [])

  datatype Event =
    | Tick(ms: nat)
    | Begin(call: CallId, request: Request, bound: bool)
    | CheckExecutable(call: CallId)
    | ConsumeId(call: CallId)
    | Execute(call: CallId)
    | IssueFresh(call: CallId, id: ConfirmationId)
    | Decision(decided: ConfirmationId, confirmed: bool)
    | Clear(conversation: ConversationId)
    | Crash

  predicate InPhase(s: State, c: CallId, phase: Phase) {
    c in s.calls && s.calls[c].phase == phase
  }

  predicate Enabled(s: State, e: Event) {
    match e
    case Begin(c, r, _) => c !in s.started && r.Hashed()
    case CheckExecutable(c) => InPhase(s, c, Started)
    case ConsumeId(c) => InPhase(s, c, Checked) && s.calls[c].request.presented.Some?
    case Execute(c) => InPhase(s, c, Won) && s.calls[c].request.presented.Some?
    case IssueFresh(c, id) => InPhase(s, c, Refused) && id !in s.issued
    case _ => true
  }

  function MoveTo(s: State, c: CallId, phase: Phase): State
    requires c in s.calls
  {
    s.(calls := s.calls[c := s.calls[c].(phase := phase)])
  }

  /** Without a bound store or a conversation the call only builds a preview. */
  function Began(s: State, c: CallId, r: Request, bound: bool): State {
    var t := s.(started := s.started + {c}, requests := s.requests + {r});
    if bound then t.(calls := s.calls[c := Call(r, Started)]) else t
  }

  function Check(s: State, c: CallId): State
    requires c in s.calls
  {
    var r := s.calls[c].request;
    if r.presented.Some? && Executable(s.rows, r.presented.value, r.conversation, r.tool, r.hash, s.now)
    then MoveTo(s, c, Checked) else MoveTo(s, c, Refused)
  }

  function Win(s: State, c: CallId): State
    requires c in s.calls && s.calls[c].request.presented.Some?
  {
    var id := s.calls[c].request.presented.value;
    MoveTo(s, c, Won).(rows := Consume(s.rows, id, s.now), spent := s.spent[id := Spent(c, s.now)])
  }

  function Executed(s: State, c: CallId): State
    requires c in s.calls && s.calls[c].request.presented.Some?
  {
    var r := s.calls[c].request;
    s.(calls := s.calls - {c}, executions := s.executions + [Execution(c, r.presented.value, r)])
  }

  function IssueTo(s: State, c: CallId, id: ConfirmationId): State
    requires c in s.calls
  {
    var r := s.calls[c].request;
    s.(calls := s.calls - {c},
       rows := Issue(s.rows, id, r.conversation, r.tool, r.hash, s.now),
       issued := s.issued[id := Issued(r, s.now)])
  }

  function Decided(s: State, id: ConfirmationId, confirmed: bool): State {
    s.(rows := Decide(s.rows, id, confirmed, s.now),
       approved := if confirmed && CanDecide(s.rows, id, s.now) then s.approved + {id} else s.approved)
  }

  function Step(s: State, e: Event): State
    requires Enabled(s, e)
  {
    match e
    case Tick(ms) => s.(now := s.now + ms)
    case Begin(c, r, bound) => Began(s, c, r, bound)
    case CheckExecutable(c) => Check(s, c)
    case ConsumeId(c) =>
      if CanConsume(s.rows, s.calls[c].request.presented.value, s.now) then Win(s, c) else MoveTo(s, c, Refused)
    case Execute(c) => Executed(s, c)
    case IssueFresh(c, id) => IssueTo(s, c, id)
    case Decision(id, confirmed) => Decided(s, id, confirmed)
    case Clear(conversation) => s.(rows := ClearConversation(s.rows, conversation))
    case Crash => s.(calls := map[])
  }

  /** Disabled events do nothing, so every sequence of events is a run. */
  function Run(s: State, es: seq<Event>): State {
    if es == [] then s
    else var s1 := Run(s, es[..|es| - 1]);
         var e := es[|es| - 1];
         if Enabled(s1, e) then Step(s1, e) else s1
  }

  // ---------------------------------------------------------------- what every step keeps

  /** The call presents an id that was issued for the same conversation, tool and hash. */
  predicate MatchesIssue(s: State, r: Request, id: ConfirmationId) {
    && id in s.issued
    && s.issued[id].request.conversation == r.conversation
    && s.issued[id].request.tool == r.tool
    && s.issued[id].request.hash == r.hash
  }

  predicate RowAgrees(s: State, id: ConfirmationId, row: Row) {
    && id in s.issued
    && row.conversation == s.issued[id].request.conversation
    && row.tool == s.issued[id].request.tool
    && row.hash == s.issued[id].request.hash
    && row.expiresAt == s.issued[id].at + CONFIRMATION_TTL_MS
    && (row.status.Approved? ==> id in s.approved && row.approvedAt.Some?)
    && (id in s.spent ==> row.consumedAt.Some?)
  }

  ghost predicate RowsAgree(s: State) {
    forall id :: id in s.rows ==> RowAgrees(s, id, s.rows[id])
  }

  predicate SpentAgrees(s: State, id: ConfirmationId, spent: Spent) {
    && id in s.issued && id in s.approved
    && spent.call in s.started
    && spent.at < s.issued[id].at + CONFIRMATION_TTL_MS
  }

  ghost predicate AllSpentAgree(s: State) {
    forall id :: id in s.spent ==> SpentAgrees(s, id, s.spent[id])
  }

  ghost predicate RequestsBegan(s: State) {
    && (forall id :: id in s.issued ==> s.issued[id].request in s.requests)
    && (forall c :: c in s.calls ==> s.calls[c].request in s.requests)
  }

  predicate CallAgrees(s: State, c: CallId, call: Call) {
    && c in s.started
    && (call.phase.Checked? || call.phase.Won? ==>
          call.request.presented.Some? && MatchesIssue(s, call.request, call.request.presented.value))
    && (call.phase.Won? ==> call.request.presented.value in s.spent && s.spent[call.request.presented.value].call == c)
  }

  ghost predicate CallsAgree(s: State) {
    forall c :: c in s.calls ==> CallAgrees(s, c, s.calls[c])
  }

  predicate ExecutionAgrees(s: State, e: Execution) {
    && e.call in s.started && e.call !in s.calls
    && e.id in s.spent && s.spent[e.id].call == e.call
    && MatchesIssue(s, e.request, e.id)
    && e.request in s.requests
  }

  ghost predicate ExecutionsAgree(s: State) {
    forall i :: 0 <= i < |s.executions| ==> ExecutionAgrees(s, s.executions[i])
  }

  ghost predicate OncePerCall(s: State) {
    forall i, j :: 0 <= i < j < |s.executions| ==> s.executions[i].call != s.executions[j].call
  }

  ghost predicate Inv(s: State) {
    RowsAgree(s) && AllSpentAgree(s) && RequestsBegan(s) && CallsAgree(s) && ExecutionsAgree(s) && OncePerCall(s)
  }

  lemma {:induction false} BeginKeepsInv(s: State, c: CallId, r: Request, bound: bool)
    requires Inv(s) && c !in s.started
    ensures Inv(Began(s, c, r, bound))
  {
  }

  lemma {:induction false} CheckKeepsInv(s: State, c: CallId)
    requires Inv(s) && InPhase(s, c, Started)
    ensures Inv(Check(s, c))
  {
  }

  lemma {:induction false} WinKeepsInv(s: State, c: CallId)
    requires Inv(s) && InPhase(s, c, Checked) && s.calls[c].request.presented.Some?
    requires CanConsume(s.rows, s.calls[c].request.presented.value, s.now)
    ensures Inv(Win(s, c))
  {
    var t := Win(s, c);
    var id := s.calls[c].request.presented.value;
    assert id !in s.spent;
    assert RowsAgree(t) && AllSpentAgree(t);
  }

  lemma {:induction false} ExecuteKeepsInv(s: State, c: CallId)
    requires Inv(s) && InPhase(s, c, Won) && s.calls[c].request.presented.Some?
    ensures Inv(Executed(s, c))
  {
  }

  lemma {:induction false} IssueKeepsInv(s: State, c: CallId, id: ConfirmationId)
    requires Inv(s) && InPhase(s, c, Refused) && id !in s.issued
    ensures Inv(IssueTo(s, c, id))
  {
    var t := IssueTo(s, c, id);
    assert id !in s.spent;
    assert RowsAgree(t) && AllSpentAgree(t);
    assert CallsAgree(t);
    assert ExecutionsAgree(t);
  }

  lemma {:induction false} DecideKeepsInv(s: State, id: ConfirmationId, confirmed: bool)
    requires Inv(s)
    ensures Inv(Decided(s, id, confirmed))
  {
  }

  lemma {:induction false} StepKeepsInv(s: State, e: Event)
    requires Inv(s) && Enabled(s, e)
    ensures Inv(Step(s, e))
  {
    match e
    case Begin(c, r, bound) => BeginKeepsInv(s, c, r, bound);
    case CheckExecutable(c) => CheckKeepsInv(s, c);
    case ConsumeId(c) => if CanConsume(s.rows, s.calls[c].request.presented.value, s.now) { WinKeepsInv(s, c); }
    case Execute(c) => ExecuteKeepsInv(s, c);
    case IssueFresh(c, id) => IssueKeepsInv(s, c, id);
    case Decision(id, confirmed) => DecideKeepsInv(s, id, confirmed);
    case _ =>
  }

  lemma {:induction false} RunKeepsInv(es: seq<Event>)
    ensures Inv(Run(INIT, es))
  {
    if es != [] {
      RunKeepsInv(es[..|es| - 1]);
      var s := Run(INIT, es[..|es| - 1]);
      if Enabled(s, es[|es| - 1]) { StepKeepsInv(s, es[|es| - 1]); }
    }
  }

  lemma {:induction false} RequestsAreHashed(es: seq<Event>, r: Request)
    requires r in Run(INIT, es).requests
    ensures r.Hashed()
  {
    if es != [] {
      var s, e := Run(INIT, es[..|es| - 1]), es[|es| - 1];
      if r in s.requests {
        RequestsAreHashed(es[..|es| - 1], r);
      } else {
        assert Enabled(s, e) && e.Begin? && e.request == r;
      }
    }
  }

  // ---------------------------------------------------------------- main theorems

  /** However calls, decisions, expiry and crashes interleave, a confirmation runs the tool at most once. */
  lemma {:induction false} ExecutesAtMostOnce(es: seq<Event>, i: nat, j: nat)
    requires i < j < |Run(INIT, es).executions|
    ensures Run(INIT, es).executions[i].id != Run(INIT, es).executions[j].id
  {
    RunKeepsInv(es);
  }

  /** Every execution was approved, was won before the confirmation expired, and carries the
      conversation, tool, scope and, up to the spelling of the JSON, the arguments it was issued for. */
  lemma {:induction false} ExecutesOnlyWhatWasApproved(es: seq<Event>, i: nat)
    requires i < |Run(INIT, es).executions|
    ensures var s := Run(INIT, es);
      var e := s.executions[i];
      && e.id in s.issued && e.id in s.approved && e.id in s.spent
      && s.spent[e.id].at < s.issued[e.id].at + CONFIRMATION_TTL_MS
      && s.issued[e.id].request.conversation == e.request.conversation
      && s.issued[e.id].request.tool == e.request.tool
      && s.issued[e.id].request.scope == e.request.scope
      && Same(Obj(Rest(s.issued[e.id].request.input)), Obj(Rest(e.request.input)))
  {
    RunKeepsInv(es);
    var s := Run(INIT, es);
    var e := s.executions[i];
    var r := s.issued[e.id].request;
    assert r in s.requests && e.request in s.requests;
    RequestsAreHashed(es, r);
    RequestsAreHashed(es, e.request);
    PreimagesAgree(r.input, r.scope, e.request.input, e.request.scope);
  }

  // ---------------------------------------------------------------- decisions are final

  /** A decision counts if the confirmation is still stored, undecided by any earlier one, and not ten minutes old. */
  predicate Counts(s: State, e: Event, id: ConfirmationId, verdict: Option<bool>) {
    && e.Decision? && e.decided == id && verdict.None?
    && id in s.rows && id in s.issued && s.now < s.issued[id].at + CONFIRMATION_TTL_MS
  }

  function NextVerdict(s: State, e: Event, id: ConfirmationId, verdict: Option<bool>): Option<bool> {
    if Counts(s, e, id, verdict) then Some(e.confirmed) else verdict
  }

  /** The first decision about `id` that counted; history alone. */
  ghost function Verdict(es: seq<Event>, id: ConfirmationId): Option<bool> {
    if es == [] then None else NextVerdict(Run(INIT, es[..|es| - 1]), es[|es| - 1], id, Verdict(es[..|es| - 1], id))
  }

  /** What the table says about a confirmation, given the verdict about it. */
  predicate FollowsVerdict(s: State, id: ConfirmationId, verdict: Option<bool>) {
    && (id in s.rows ==>
          (match verdict
           case None => s.rows[id].status.Pending?
           case Some(confirmed) => s.rows[id].status == if confirmed then Approved else Declined)
          && (s.rows[id].consumedAt.Some? <==> id in s.spent))
    && (id in s.spent || id in s.approved ==> verdict == Some(true))
    && (id !in s.issued ==> verdict.None?)
  }

  lemma {:induction false} DecisionFollowsVerdict(s: State, e: Event, id: ConfirmationId, verdict: Option<bool>)
    requires Inv(s) && e.Decision? && FollowsVerdict(s, id, verdict)
    ensures FollowsVerdict(Decided(s, e.decided, e.confirmed), id, NextVerdict(s, e, id, verdict))
  {
    if id in s.rows { assert RowAgrees(s, id, s.rows[id]); }
  }

  lemma {:induction false} WinFollowsVerdict(s: State, c: CallId, id: ConfirmationId, verdict: Option<bool>)
    requires Inv(s) && FollowsVerdict(s, id, verdict) && c in s.calls && s.calls[c].request.presented.Some?
    requires CanConsume(s.rows, s.calls[c].request.presented.value, s.now)
    ensures FollowsVerdict(Win(s, c), id, verdict)
  {
  }

  lemma {:induction false} IssueFollowsVerdict(s: State, c: CallId, next: ConfirmationId, id: ConfirmationId, verdict: Option<bool>)
    requires Inv(s) && FollowsVerdict(s, id, verdict) && c in s.calls && next !in s.issued
    ensures FollowsVerdict(IssueTo(s, c, next), id, verdict)
  {
    assert next !in s.spent;
  }

  lemma {:induction false} StepFollowsVerdict(s: State, e: Event, id: ConfirmationId, verdict: Option<bool>)
    requires Inv(s) && Enabled(s, e) && FollowsVerdict(s, id, verdict)
    ensures FollowsVerdict(Step(s, e), id, NextVerdict(s, e, id, verdict))
  {
    if e.Decision? {
      DecisionFollowsVerdict(s, e, id, verdict);
    } else if e.ConsumeId? && CanConsume(s.rows, s.calls[e.call].request.presented.value, s.now) {
      WinFollowsVerdict(s, e.call, id, verdict);
    } else if e.IssueFresh? {
      IssueFollowsVerdict(s, e.call, e.id, id, verdict);
    }
  }

  /** In every run a confirmation is decided at most once and for good: its row says what the first decision that
      counted said, and only a confirmed one is ever approved or spent. */
  lemma {:induction false} DecisionsAreFinal(es: seq<Event>, id: ConfirmationId)
    ensures FollowsVerdict(Run(INIT, es), id, Verdict(es, id))
  {
    if es != [] {
      var init, e := es[..|es| - 1], es[|es| - 1];
      DecisionsAreFinal(init, id);
      RunKeepsInv(init);
      if Enabled(Run(INIT, init), e) { StepFollowsVerdict(Run(INIT, init), e, id, Verdict(init, id)); }
    }
  }

  lemma {:induction false} VerdictStays(es: seq<Event>, more: seq<Event>, id: ConfirmationId)
    requires Verdict(es, id).Some?
    ensures Verdict(es + more, id) == Verdict(es, id)
    decreases |more|
  {
    if more == [] {
      assert es + more == es;
    } else {
      VerdictStays(es, more[..|more| - 1], id);
      ButLast(es, more);
    }
  }

  /** A declined confirmation is never approved, spent or executed, whatever happens afterwards. */
  lemma {:induction false} DeclinedNeverExecutes(es: seq<Event>, more: seq<Event>, id: ConfirmationId)
    requires Verdict(es, id) == Some(false)
    ensures var s := Run(INIT, es + more);
      && id !in s.approved && id !in s.spent
      && (id in s.rows ==> s.rows[id].status.Declined?)
      && forall i :: 0 <= i < |s.executions| ==> s.executions[i].id != id
  {
    VerdictStays(es, more, id);
    DecisionsAreFinal(es + more, id);
    RunKeepsInv(es + more);
    var s := Run(INIT, es + more);
    forall i | 0 <= i < |s.executions| ensures s.executions[i].id != id { assert ExecutionAgrees(s, s.executions[i]); }
  }

  /** Whether the table still holds a confirmation: from its issue until its conversation is cleared, or another is
      issued after it expired. */
  ghost predicate Stored(es: seq<Event>, id: ConfirmationId) {
    es != []
    && (var init, e := es[..|es| - 1], es[|es| - 1];
        var s := Run(INIT, init);
        if !Enabled(s, e) then Stored(init, id)
        else if e.IssueFresh? && e.id == id then true
        else
          && Stored(init, id) && id in s.issued
          && (e.IssueFresh? ==> s.now <= s.issued[id].at + CONFIRMATION_TTL_MS)
          && (e.Clear? ==> s.issued[id].request.conversation != e.conversation))
  }

  /** In every run the table holds exactly those. */
  lemma {:induction false} RowsAreKept(es: seq<Event>, id: ConfirmationId)
    ensures id in Run(INIT, es).rows <==> Stored(es, id)
  {
    if es != [] {
      var init, e := es[..|es| - 1], es[|es| - 1];
      RowsAreKept(init, id);
      RunKeepsInv(init);
      var s := Run(INIT, init);
      if id in s.rows { assert RowAgrees(s, id, s.rows[id]); }
    }
  }

  // ---------------------------------------------------------------- an undisturbed call

  /** The call presents a stored, confirmed, unspent and unexpired confirmation for the same conversation, tool and
      scope, and for arguments that are the same JSON. */
  ghost predicate MayRun(es: seq<Event>, r: Request) {
    var s := Run(INIT, es);
    && r.presented.Some?
    && var id := r.presented.value;
    && Stored(es, id) && Verdict(es, id) == Some(true) && id !in s.spent
    && id in s.issued && s.now < s.issued[id].at + CONFIRMATION_TTL_MS
    && s.issued[id].request.conversation == r.conversation && s.issued[id].request.tool == r.tool
    && s.issued[id].request.scope == r.scope
    && Same(Obj(Rest(s.issued[id].request.input)), Obj(Rest(r.input)))
  }

  lemma {:induction false} ExecutableIff(es: seq<Event>, r: Request)
    requires r.Hashed()
    ensures var s := Run(INIT, es);
      MayRun(es, r) <==> r.presented.Some? && Executable(s.rows, r.presented.value, r.conversation, r.tool, r.hash, s.now)
  {
    RunKeepsInv(es);
    var s := Run(INIT, es);
    if r.presented.Some? {
      var id := r.presented.value;
      RowsAreKept(es, id);
      DecisionsAreFinal(es, id);
      if id in s.rows {
        assert RowAgrees(s, id, s.rows[id]);
        var was := s.issued[id].request;
        RequestsAreHashed(es, was);
        PreimagesAgree(was.input, was.scope, r.input, r.scope);
      }
    }
  }

  function Alone(c: CallId, r: Request, n: ConfirmationId): seq<Event> {
    [Begin(c, r, true), CheckExecutable(c)] + ([ConsumeId(c), Execute(c)] + [IssueFresh(c, n)])
  }

  /** A call that nothing disturbs executes if and only if it may run, and spends its confirmation. Otherwise it does
      not execute, and a new confirmation that can be decided for ten minutes is issued for exactly its request. */
  lemma {:induction false} CallAlone(es: seq<Event>, c: CallId, r: Request, n: ConfirmationId)
    requires var s := Run(INIT, es); c !in s.started && r.Hashed() && n !in s.issued
    ensures var s, t := Run(INIT, es), Run(Run(INIT, es), Alone(c, r, n));
      if MayRun(es, r) then
        && t.executions == s.executions + [Execution(c, r.presented.value, r)] && t.issued == s.issued
        && r.presented.value in t.spent && !CanConsume(t.rows, r.presented.value, t.now)
      else
        && t.executions == s.executions && t.spent == s.spent && t.issued == s.issued[n := Issued(r, s.now)]
        && n in t.rows && CanDecide(t.rows, n, t.now) && t.rows[n].expiresAt == s.now + CONFIRMATION_TTL_MS
  {
    RunKeepsInv(es);
    ExecutableIff(es, r);
    if MayRun(es, r) { RunsAlone(Run(INIT, es), c, r, n); } else { RefusedAlone(Run(INIT, es), c, r, n); }
  }

  function AfterCheck(s: State, c: CallId, r: Request, phase: Phase): State {
    s.(started := s.started + {c}, requests := s.requests + {r}, calls := s.calls[c := Call(r, phase)])
  }

  lemma {:induction false} BeginAndCheck(s: State, c: CallId, r: Request)
    requires c !in s.started && r.Hashed()
    ensures Run(s, [Begin(c, r, true), CheckExecutable(c)])
      == AfterCheck(s, c, r, if r.presented.Some? && Executable(s.rows, r.presented.value, r.conversation, r.tool, r.hash, s.now) then Checked else Refused)
  {
    var s1 := Step(s, Begin(c, r, true));
    assert s1.calls[c] == Call(r, Started);
    assert forall phase :: s1.calls[c := Call(r, phase)] == s.calls[c := Call(r, phase)];
    RunTwo(s, Begin(c, r, true), CheckExecutable(c));
  }

  lemma {:induction false} WinAndExecute(s: State, c: CallId, r: Request)
    requires c in s.calls && s.calls[c] == Call(r, Checked) && r.presented.Some? && CanConsume(s.rows, r.presented.value, s.now)
    ensures var t := Run(s, [ConsumeId(c), Execute(c)]);
      && t.executions == s.executions + [Execution(c, r.presented.value, r)] && t.issued == s.issued && c !in t.calls
      && r.presented.value in t.spent && !CanConsume(t.rows, r.presented.value, t.now)
  {
    var s1 := Step(s, ConsumeId(c));
    assert s1.calls[c] == Call(r, Won);
    RunTwo(s, ConsumeId(c), Execute(c));
  }

  lemma {:induction false} RunsAlone(s: State, c: CallId, r: Request, n: ConfirmationId)
    requires c !in s.started && r.Hashed() && r.presented.Some?
    requires Executable(s.rows, r.presented.value, r.conversation, r.tool, r.hash, s.now)
    ensures var t := Run(s, Alone(c, r, n));
      && t.executions == s.executions + [Execution(c, r.presented.value, r)] && t.issued == s.issued
      && r.presented.value in t.spent && !CanConsume(t.rows, r.presented.value, t.now)
  {
    BeginAndCheck(s, c, r);
    var s1 := AfterCheck(s, c, r, Checked);
    WinAndExecute(s1, c, r);
    RunOne(Run(s1, [ConsumeId(c), Execute(c)]), IssueFresh(c, n));
    AloneIs(s, c, r, n);
  }

  lemma {:induction false} AloneIs(s: State, c: CallId, r: Request, n: ConfirmationId)
    ensures Run(s, Alone(c, r, n))
      == Run(Run(Run(s, [Begin(c, r, true), CheckExecutable(c)]), [ConsumeId(c), Execute(c)]), [IssueFresh(c, n)])
  {
    RunConcat(Run(s, [Begin(c, r, true), CheckExecutable(c)]), [ConsumeId(c), Execute(c)], [IssueFresh(c, n)]);
    RunConcat(s, [Begin(c, r, true), CheckExecutable(c)], [ConsumeId(c), Execute(c)] + [IssueFresh(c, n)]);
  }

  lemma {:induction false} RefusedAlone(s: State, c: CallId, r: Request, n: ConfirmationId)
    requires c !in s.started && r.Hashed() && n !in s.issued
    requires !(r.presented.Some? && Executable(s.rows, r.presented.value, r.conversation, r.tool, r.hash, s.now))
    ensures var t := Run(s, Alone(c, r, n));
      && t.executions == s.executions && t.spent == s.spent && t.issued == s.issued[n := Issued(r, s.now)]
      && n in t.rows && CanDecide(t.rows, n, t.now) && t.rows[n].expiresAt == s.now + CONFIRMATION_TTL_MS
  {
    BeginAndCheck(s, c, r);
    var s1 := AfterCheck(s, c, r, Refused);
    assert s1.calls[c] == Call(r, Refused);
    RunTwo(s1, ConsumeId(c), Execute(c));
    RunOne(s1, IssueFresh(c, n));
    AloneIs(s, c, r, n);
  }

  function Try(s: State, e: Event): State { if Enabled(s, e) then Step(s, e) else s }

  lemma {:induction false} RunOne(s: State, e: Event)
    ensures Run(s, [e]) == Try(s, e)
  {
    assert [e][..0] == [];
  }

  lemma {:induction false} RunTwo(s: State, e: Event, f: Event)
    ensures Run(s, [e, f]) == Try(Try(s, e), f)
  {
    assert [e, f][..1] == [e];
    RunOne(s, e);
  }

  lemma {:induction false} RunConcat(s: State, es: seq<Event>, fs: seq<Event>)
    ensures Run(s, es + fs) == Run(Run(s, es), fs)
    decreases |fs|
  {
    if fs == [] {
      assert es + fs == es;
    } else {
      RunConcat(s, es, fs[..|fs| - 1]);
      ButLast(es, fs);
    }
  }

  // ---------------------------------------------------------------- crashes

  /** The calls that are running began after the first `es`. */
  ghost predicate BegunSince(s: State, t: State) {
    && s.started <= t.started && s.executions <= t.executions
    && (forall c :: c in t.calls ==> c !in s.started)
    && (forall i :: |s.executions| <= i < |t.executions| ==> t.executions[i].call !in s.started)
  }

  /** A crash ends every call: none that had begun executes afterwards. */
  lemma {:induction false} CrashEndsCalls(es: seq<Event>, more: seq<Event>)
    ensures BegunSince(Run(INIT, es), Run(INIT, es + [Crash] + more))
  {
    if more == [] {
      assert es + [Crash] + more == es + [Crash] && (es + [Crash])[..|es|] == es;
    } else {
      var init := more[..|more| - 1];
      CrashEndsCalls(es, init);
      ButLast(es + [Crash], more);
      var t, e := Run(INIT, es + [Crash] + init), more[|more| - 1];
      if Enabled(t, e) { StepSince(Run(INIT, es), t, e); }
    }
  }

  lemma {:induction false} StepSince(s: State, t: State, e: Event)
    requires BegunSince(s, t) && Enabled(t, e)
    ensures BegunSince(s, Step(t, e))
  {
  }
}
