/**
  The promise chain that serialises the connector service. A request that enters remembers the
  promise it found at the tail, leaves its own there, and runs once its predecessor is resolved.
*/
module ConnectorQueue {
  import opened Prelude

  const MAX_PENDING: nat := 32

  type RequestId = nat

  /** The promise each request waits for: the initial one, or the one of the request before it. */
  datatype Promise = Ready | Of(request: RequestId)

  datatype State = State(
    tail: Promise,
    pending: nat,
    resolved: set<Promise>,
    waiting: map<RequestId, Promise>,
    running: set<RequestId>,
    arrived: seq<RequestId>,          // history: requests admitted, in order
    started: seq<RequestId>)          // history: requests that began to run, in order

  const INIT := State(Ready, 0, {Ready}, map[], {}, [], [])

  datatype Event = Arrive(request: RequestId) | Start(request: RequestId) | Finish(request: RequestId)

  predicate Enabled(s: State, e: Event) {
    match e
    case Arrive(r) => r !in s.arrived
    case Start(r) => r in s.waiting && s.waiting[r] in s.resolved
    case Finish(r) => r in s.running && s.pending > 0
  }

  function Step(s: State, e: Event): State
    requires Enabled(s, e)
  {
    match e
    case Arrive(r) =>
      if s.pending >= MAX_PENDING then s
      else s.(pending := s.pending + 1, tail := Of(r), waiting := s.waiting[r := s.tail], arrived := s.arrived + [r])
    case Start(r) => s.(waiting := s.waiting - {r}, running := s.running + {r}, started := s.started + [r])
    case Finish(r) => s.(pending := s.pending - 1, running := s.running - {r}, resolved := s.resolved + {Of(r)})
  }

  function Run(s: State, es: seq<Event>): State {
    if es == [] then s
    else var s1 := Run(s, es[..|es| - 1]);
         var e := es[|es| - 1];
         if Enabled(s1, e) then Step(s1, e) else s1
  }

  /** The chain as it stands in memory: one object, its fields changed by every request. */
  class SerialQueue {
    var tail: Promise
    var pending: nat
    ghost var resolved: set<Promise>
    ghost var waiting: map<RequestId, Promise>
    ghost var running: set<RequestId>
    ghost var arrived: seq<RequestId>
    ghost var started: seq<RequestId>

    ghost function View(): State
      reads this
    {
      State(tail, pending, resolved, waiting, running, arrived, started)
    }

    constructor ()
      ensures View() == INIT
    {
      tail, pending, resolved := Ready, 0, {Ready};
      waiting, running, arrived, started := map[], {}, [], [];
    }

    method Enter(r: RequestId) returns (predecessor: Option<Promise>)
      requires Enabled(View(), Arrive(r))
      modifies this
      ensures View() == Step(old(View()), Arrive(r))
      ensures predecessor == if old(pending) >= MAX_PENDING then None else Some(old(tail))
    {
      if pending >= MAX_PENDING { return None; }
      pending := pending + 1;
      predecessor := Some(tail);
      waiting, arrived := waiting[r := tail], arrived + [r];
      tail := Of(r);
    }

    method Resume(r: RequestId)
      requires Enabled(View(), Start(r))
      modifies this
      ensures View() == Step(old(View()), Start(r))
    {
      waiting, running, started := waiting - {r}, running + {r}, started + [r];
    }

    method Leave(r: RequestId)
      requires Enabled(View(), Finish(r))
      modifies this
      ensures View() == Step(old(View()), Finish(r))
    {
      pending := pending - 1;
      running, resolved := running - {r}, resolved + {Of(r)};
    }
  }

  /** What `arrived[k]` waits for. */
  function Before(arrived: seq<RequestId>, k: nat): Promise
    requires k <= |arrived|
  {
    if k == 0 then Ready else Of(arrived[k - 1])
  }

  /** With `done` requests finished: those are exactly the resolved ones, the next one may be running, the rest wait in order. */
  ghost predicate Chained(s: State, done: nat) {
    && done <= |s.started| <= |s.arrived| && |s.started| <= done + 1
    && s.started == s.arrived[..|s.started|]
    && Distinct(s.arrived)
    && s.pending == |s.arrived| - done <= MAX_PENDING
    && s.tail == Before(s.arrived, |s.arrived|)
    && s.running == (if |s.started| > done then {s.arrived[done]} else {})
    && ResolvedUpTo(s.resolved, s.arrived, done)
    && WaitingFrom(s.waiting, s.arrived, |s.started|)
  }

  ghost predicate ResolvedUpTo(resolved: set<Promise>, arrived: seq<RequestId>, done: nat) {
    && (forall k :: 0 <= k <= |arrived| ==> (Before(arrived, k) in resolved <==> k <= done))
    && (forall r :: Of(r) in resolved ==> r in arrived)
  }

  ghost predicate WaitingFrom(waiting: map<RequestId, Promise>, arrived: seq<RequestId>, from: nat) {
    && (forall k :: 0 <= k < |arrived| ==> (arrived[k] in waiting <==> k >= from))
    && (forall k {:trigger Before(arrived, k)} :: from <= k < |arrived| ==> waiting[arrived[k]] == Before(arrived, k))
    && (forall r :: r in waiting ==> r in arrived)
  }

  lemma {:induction false} MoreArrived(resolved: set<Promise>, waiting: map<RequestId, Promise>, arrived: seq<RequestId>, done: nat, from: nat, r: RequestId)
    requires ResolvedUpTo(resolved, arrived, done) && WaitingFrom(waiting, arrived, from)
    requires r !in arrived && done <= |arrived| && from <= |arrived|
    ensures ResolvedUpTo(resolved, arrived + [r], done)
    ensures WaitingFrom(waiting[r := Before(arrived, |arrived|)], arrived + [r], from)
  {
    var more := arrived + [r];
    assert forall k :: 0 <= k < |arrived| ==> more[k] == arrived[k] && arrived[k] in arrived;
    forall k | 0 <= k <= |more| ensures Before(more, k) in resolved <==> k <= done {
      if k <= |arrived| { assert Before(more, k) == Before(arrived, k); }
    }
    forall k | from <= k < |more| ensures waiting[r := Before(arrived, |arrived|)][more[k]] == Before(more, k) {
      assert Before(more, k) == Before(arrived, k);
    }
  }

  lemma {:induction false} ArriveKeeps(s: State, done: nat, r: RequestId)
    requires Chained(s, done) && r !in s.arrived && s.pending < MAX_PENDING
    ensures Chained(Step(s, Arrive(r)), done)
  {
    MoreArrived(s.resolved, s.waiting, s.arrived, done, |s.started|, r);
    assert s.started == (s.arrived + [r])[..|s.started|];
  }

  /** Only the first request in line can start, and only when nothing runs. */
  lemma {:induction false} WhoStarts(s: State, done: nat, r: RequestId)
    requires Chained(s, done) && Enabled(s, Start(r))
    ensures |s.started| == done < |s.arrived| && r == s.arrived[done]
  {
    var k :| 0 <= k < |s.arrived| && s.arrived[k] == r;
    assert s.waiting[r] == Before(s.arrived, k);
  }

  lemma {:induction false} StartKeeps(s: State, done: nat, r: RequestId)
    requires Chained(s, done) && |s.started| == done < |s.arrived| && r == s.arrived[done]
    ensures Chained(s.(waiting := s.waiting - {r}, running := s.running + {r}, started := s.started + [r]), done)
  {
    assert s.running == {};
    assert s.running + {r} == {r};
    assert s.started + [r] == s.arrived[..done + 1];
    FirstLeaves(s.waiting, s.arrived, done);
  }

  lemma {:induction false} FirstLeaves(waiting: map<RequestId, Promise>, arrived: seq<RequestId>, from: nat)
    requires WaitingFrom(waiting, arrived, from) && Distinct(arrived) && from < |arrived|
    ensures WaitingFrom(waiting - {arrived[from]}, arrived, from + 1)
  {
    forall k | 0 <= k < |arrived| && k != from ensures arrived[k] != arrived[from] {}
  }

  lemma {:induction false} FinishKeeps(s: State, done: nat, r: RequestId)
    requires Chained(s, done) && Enabled(s, Finish(r))
    ensures Chained(Step(s, Finish(r)), done + 1)
  {
    assert r == s.arrived[done] && |s.started| == done + 1;
    forall k | 0 <= k <= |s.arrived| ensures Before(s.arrived, k) in s.resolved + {Of(r)} <==> k <= done + 1 {
      if k > 0 && Before(s.arrived, k) == Of(r) { assert k - 1 == done; }
    }
  }

  lemma {:induction false} RunIsChained(es: seq<Event>) returns (done: nat)
    ensures Chained(Run(INIT, es), done)
  {
    if es == [] {
      done := 0;
    } else {
      done := RunIsChained(es[..|es| - 1]);
      var s, e := Run(INIT, es[..|es| - 1]), es[|es| - 1];
      if Enabled(s, e) {
        match e
        case Arrive(r) => if s.pending < MAX_PENDING { ArriveKeeps(s, done, r); }
        case Start(r) => WhoStarts(s, done, r); StartKeeps(s, done, r);
        case Finish(r) => FinishKeeps(s, done, r); done := done + 1;
      }
    }
  }

  /** One request at a time, in arrival order, and never more than 32 admitted and unfinished. */
  lemma {:induction false} QueueIsSerial(es: seq<Event>)
    ensures var s := Run(INIT, es);
      && |s.running| <= 1
      && s.started <= s.arrived
      && s.pending <= MAX_PENDING
      && s.pending == |s.waiting.Keys| + |s.running|
  {
    var done := RunIsChained(es);
    var s := Run(INIT, es);
    WaitingCount(s.waiting, s.arrived, |s.started|);
  }

  lemma {:induction false} WaitingKeys(waiting: map<RequestId, Promise>, arrived: seq<RequestId>, from: nat, r: RequestId)
    requires WaitingFrom(waiting, arrived, from) && from <= |arrived|
    ensures r in waiting <==> r in arrived[from..]
  {
    if r in waiting {
      var k :| 0 <= k < |arrived| && arrived[k] == r;
      assert arrived[from..][k - from] == r;
    }
    if r in arrived[from..] {
      var k :| 0 <= k < |arrived[from..]| && arrived[from..][k] == r;
      assert arrived[k + from] == r;
    }
  }

  lemma {:induction false} WaitingCount(waiting: map<RequestId, Promise>, arrived: seq<RequestId>, from: nat)
    requires WaitingFrom(waiting, arrived, from) && from <= |arrived| && Distinct(arrived[from..])
    ensures |waiting.Keys| == |arrived| - from
  {
    var rest := arrived[from..];
    forall r ensures r in waiting.Keys <==> r in rest { WaitingKeys(waiting, arrived, from, r); }
    assert waiting.Keys == Members(rest);
    DistinctCount(rest);
  }

  function Members(rs: seq<RequestId>): set<RequestId> { set r | r in rs }

  lemma {:induction false} DistinctCount(rs: seq<RequestId>)
    requires Distinct(rs)
    ensures |Members(rs)| == |rs|
  {
    if rs != [] {
      var rest := rs[1..];
      DistinctCount(rest);
      SplitMembers(rs);
      assert rs[0] !in rest;
    }
  }

  lemma {:induction false} SplitMembers(rs: seq<RequestId>)
    requires rs != []
    ensures Members(rs) == Members(rs[1..]) + {rs[0]}
  {
    assert rs == [rs[0]] + rs[1..];
  }

  /** The chain never wedges: while requests are admitted, either one runs or the next in line can start. */
  lemma {:induction false} QueueProgresses(es: seq<Event>)
    requires Run(INIT, es).pending > 0 && Run(INIT, es).running == {}
    ensures var s := Run(INIT, es);
      |s.started| < |s.arrived| && Enabled(s, Start(s.arrived[|s.started|]))
  {
    var done := RunIsChained(es);
    var s := Run(INIT, es);
    assert |s.started| == done < |s.arrived|;
    var next := s.arrived[done];
    assert Before(s.arrived, done) in s.resolved;
    assert next in s.waiting && s.waiting[next] == Before(s.arrived, done);
    assert Enabled(s, Start(next));
  }
}
