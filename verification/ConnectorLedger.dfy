/**
  The connector's invocation ledger: at-most-once execution of a confirmed invocation, and a
  receipt store with a byte budget. Texts are measured in bytes, one char per byte. The argument
  digest is represented by the request it digests. One `Event` is one stretch between two awaits.
*/
module ConnectorLedger {
  import opened Prelude

  const MAX_ROWS: nat := 10_000
  const MAX_RECEIPTS: nat := 32 * 1024 * 1024
  const MAX_RECEIPT: nat := 512 * 1024
  const MAX_AGE_MS: int := 300_000
  const MAX_LEAD_MS: int := 30_000

  type Bytes = string
  type InvocationId = string
  type RequestId = nat

  datatype Request = Request(identity: string, connection: string, operation: string, arguments: string, issuedAt: int)

  datatype Status = Running | Completed | Unknown
  datatype Row = Row(id: InvocationId, request: Request, createdAt: nat, status: Status, result: Option<Bytes>) {
    function Size(): nat { if result.Some? then |result.value| else 0 }
    predicate Evictable() { status.Completed? && result.Some? }
  }

  /** The table in insertion order; rows are never deleted. */
  type Rows = seq<Row>

  function Total(rows: Rows): nat {
    if rows == [] then 0 else Total(rows[..|rows| - 1]) + rows[|rows| - 1].Size()
  }

  predicate HasId(rows: Rows, id: InvocationId) {
    exists i :: 0 <= i < |rows| && rows[i].id == id
  }

  // ---------------------------------------------------------------- cleanup warnings

  datatype Warning = Warning(fileId: string, mayRemainPublic: bool)

  predicate FileChar(c: char) { 'A' <= c <= 'Z' || 'a' <= c <= 'z' || '0' <= c <= '9' || c == '_' || c == '-' }

  /** What cleanupWarnings lets through. */
  predicate ValidWarning(w: Warning) { 1 <= |w.fileId| <= 200 && forall c :: c in w.fileId ==> FileChar(c) }
  predicate ValidWarnings(ws: seq<Warning>) { 1 <= |ws| <= 8 && forall w :: w in ws ==> ValidWarning(w) }

  function WarningText(w: Warning): Bytes {
    "{\"file_id\":\"" + w.fileId + "\",\"public_read_permission_may_remain\":" + (if w.mayRemainPublic then "true" else "false") + "}"
  }

  function WarningsText(ws: seq<Warning>): Bytes {
    if ws == [] then "" else if |ws| == 1 then WarningText(ws[0]) else WarningText(ws[0]) + "," + WarningsText(ws[1..])
  }

  /** The serialized cleanup receipt. File ids need no escaping. */
  function CleanupReceipt(ws: seq<Warning>): Bytes {
    "{\"result\":{\"cleanup_required\":[" + WarningsText(ws) + "]}}"
  }

  const MAX_CLEANUP: nat := 2089

  lemma {:induction false} WarningsTextSize(ws: seq<Warning>)
    requires forall w :: w in ws ==> ValidWarning(w)
    ensures |WarningsText(ws)| <= 257 * |ws|
    ensures ws != [] ==> |WarningsText(ws)| <= 257 * |ws| - 1
  {
    if ws != [] {
      assert ValidWarning(ws[0]);
      assert |WarningText(ws[0])| <= 256;
      WarningsTextSize(ws[1..]);
    }
  }

  lemma {:induction false} CleanupReceiptSize(ws: seq<Warning>)
    requires ValidWarnings(ws)
    ensures |CleanupReceipt(ws)| <= MAX_CLEANUP
  {
    WarningsTextSize(ws);
  }

  // ---------------------------------------------------------------- eviction

  /** Only results of completed rows may have gone. */
  predicate Thinned(rows: Rows, after: Rows) {
    && |after| == |rows|
    && forall i :: 0 <= i < |rows| ==> after[i] == rows[i] || (rows[i].Evictable() && after[i] == rows[i].(result := None))
  }

  predicate Evicted(rows: Rows, after: Rows, i: int) {
    0 <= i < |rows| && 0 <= i < |after| && rows[i].Evictable() && after[i].result.None?
  }

  /** No result went while an older one stayed. */
  predicate OldestFirst(rows: Rows, after: Rows) {
    forall i, j :: 0 <= i < |rows| && 0 <= j < |after| && Evicted(rows, after, i) && after[j].Evictable() ==>
      rows[i].createdAt <= after[j].createdAt
  }

  /** What the eviction loop leaves: oldest results gone first, none needlessly, and either the new
      receipt fits or there was nothing left to evict. */
  predicate MakesRoom(rows: Rows, after: Rows, size: nat) {
    && Thinned(rows, after)
    && OldestFirst(rows, after)
    && (after != rows ==> exists i :: 0 <= i < |rows| && Evicted(rows, after, i) && Total(after) + rows[i].Size() + size > MAX_RECEIPTS)
    && (Total(after) + size <= MAX_RECEIPTS || forall j :: 0 <= j < |after| ==> !after[j].Evictable())
  }

  // ---------------------------------------------------------------- the state machine

  datatype Phase = Reserved | Calling
  datatype Execution = Execution(row: nat, phase: Phase)

  datatype Outcome =
    | PreparationFailed
    | Ambiguous
    | Failed(warnings: Option<seq<Warning>>, thinned: Rows)
    | InvalidResult
    | Succeeded(output: Bytes)

  datatype Reply = Inserted | Replayed(receipt: Bytes) | Conflict | Expired | Full

  datatype State = State(
    now: nat,
    rows: Rows,
    executing: map<RequestId, Execution>,
    begun: seq<InvocationId>)              // history: external executions, in order

  const INIT := State(0, [], map[], [])

  datatype Event =
    | Tick(ms: nat)
    | Reserve(r: RequestId, id: InvocationId, request: Request)
    | Begin(r: RequestId)
    | Finish(r: RequestId, outcome: Outcome)
    | Restart

  /** The answer of reserve, from the row with that id if there is one. */
  function ReserveReply(rows: Rows, id: InvocationId, request: Request, now: nat): Reply {
    if HasId(rows, id) then
      var i := IndexOf(rows, id);
      if rows[i].request != request then Conflict
      else if rows[i].Evictable() then Replayed(rows[i].result.value)
      else Conflict
    else if now - request.issuedAt > MAX_AGE_MS || now - request.issuedAt < -MAX_LEAD_MS then Expired
    else if |rows| >= MAX_ROWS then Full
    else Inserted
  }

  function IndexOf(rows: Rows, id: InvocationId): (i: nat)
    requires HasId(rows, id)
    ensures i < |rows| && rows[i].id == id
  {
    if rows[0].id == id then 0 else 1 + IndexOf(rows[1..], id)
  }

  /** The size rule for an ordinary result. */
  function Kept(rows: Rows, output: Bytes): Option<Bytes> {
    if |output| <= MAX_RECEIPT && Total(rows) + |output| <= MAX_RECEIPTS then Some(output) else None
  }

  function MarkUnknown(rows: Rows, i: nat): Rows
    requires i < |rows|
  {
    rows[i := rows[i].(status := Unknown)]
  }

  function MarkIfRunning(rows: Rows, i: nat): Rows
    requires i < |rows|
  {
    if rows[i].status.Running? then MarkUnknown(rows, i) else rows
  }

  /** The last statement of storeCleanup, after the eviction loop. */
  function StoreReceipt(rows: Rows, i: nat, receipt: Bytes): Rows
    requires i < |rows|
  {
    if Total(rows) + |receipt| <= MAX_RECEIPTS && rows[i].status.Unknown?
    then rows[i := rows[i].(result := Some(receipt))] else rows
  }

  function Settled(rows: Rows, i: nat, outcome: Outcome): Rows
    requires i < |rows|
    requires outcome.Failed? && outcome.warnings.Some? ==> |outcome.thinned| == |rows|
  {
    match outcome
    case PreparationFailed => MarkIfRunning(rows, i)
    case Ambiguous => MarkUnknown(rows, i)
    case InvalidResult => MarkIfRunning(rows, i)
    case Succeeded(output) => rows[i := rows[i].(status := Completed, result := Kept(rows, output))]
    case Failed(None, _) => MarkUnknown(rows, i)
    case Failed(Some(ws), thinned) => StoreReceipt(thinned, i, CleanupReceipt(ws))
  }

  predicate OutcomeAllowed(s: State, e: Execution, outcome: Outcome) {
    && e.row < |s.rows|
    && (outcome.PreparationFailed? <==> e.phase.Reserved?)
    && (outcome.Failed? && outcome.warnings.Some? ==>
          && ValidWarnings(outcome.warnings.value)
          && MakesRoom(MarkUnknown(s.rows, e.row), outcome.thinned, |CleanupReceipt(outcome.warnings.value)|))
  }

  predicate Enabled(s: State, e: Event) {
    match e
    case Reserve(r, _, _) => r !in s.executing
    case Begin(r) => r in s.executing && s.executing[r].phase.Reserved? && s.executing[r].row < |s.rows|
    case Finish(r, outcome) => r in s.executing && OutcomeAllowed(s, s.executing[r], outcome)
    case _ => true
  }

  function Restarted(rows: Rows): (r: Rows)
    ensures |r| == |rows|
  {
    seq(|rows|, i requires 0 <= i < |rows| => if rows[i].status.Running? then rows[i].(status := Unknown) else rows[i])
  }

  function Step(s: State, e: Event): State
    requires Enabled(s, e)
  {
    match e
    case Tick(ms) => s.(now := s.now + ms)
    case Reserve(r, id, request) =>
      if ReserveReply(s.rows, id, request, s.now).Inserted?
      then s.(rows := s.rows + [Row(id, request, s.now, Running, None)], executing := s.executing[r := Execution(|s.rows|, Reserved)])
      else s
    case Begin(r) =>
      s.(executing := s.executing[r := s.executing[r].(phase := Calling)], begun := s.begun + [s.rows[s.executing[r].row].id])
    case Finish(r, outcome) => s.(rows := Settled(s.rows, s.executing[r].row, outcome), executing := s.executing - {r})
    case Restart => s.(rows := Restarted(s.rows), executing := map[])
  }

  function Run(s: State, es: seq<Event>): State {
    if es == [] then s
    else var s1 := Run(s, es[..|es| - 1]);
         var e := es[|es| - 1];
         if Enabled(s1, e) then Step(s1, e) else s1
  }

  // ---------------------------------------------------------------- sums

  lemma {:induction false} TotalUpdate(rows: Rows, i: nat, row: Row)
    requires i < |rows|
    ensures Total(rows[i := row]) == Total(rows) - rows[i].Size() + row.Size()
  {
    var after := rows[i := row];
    if i == |rows| - 1 {
      assert after[..i] == rows[..i];
    } else {
      TotalUpdate(rows[..|rows| - 1], i, row);
      assert after[..|rows| - 1] == rows[..|rows| - 1][i := row];
    }
  }

  lemma {:induction false} TotalSame(rows: Rows, after: Rows)
    requires |rows| == |after| && forall i :: 0 <= i < |rows| ==> after[i].Size() == rows[i].Size()
    ensures Total(after) == Total(rows)
  {
    if rows != [] { TotalSame(rows[..|rows| - 1], after[..|rows| - 1]); }
  }

  lemma {:induction false} TotalBounded(rows: Rows, each: nat)
    requires forall i :: 0 <= i < |rows| ==> rows[i].Size() <= each
    ensures Total(rows) <= |rows| * each
  {
    if rows != [] { TotalBounded(rows[..|rows| - 1], each); }
  }

  lemma {:induction false} TotalThinned(rows: Rows, after: Rows)
    requires Thinned(rows, after)
    ensures Total(after) <= Total(rows)
  {
    if rows != [] { TotalThinned(rows[..|rows| - 1], after[..|rows| - 1]); }
  }

  // ---------------------------------------------------------------- what every step keeps

  predicate RowFits(row: Row) {
    && (row.status.Running? ==> row.result.None?)
    && (row.status.Unknown? && row.result.Some? ==> |row.result.value| <= MAX_CLEANUP)
    && (row.status.Completed? && row.result.Some? ==> |row.result.value| <= MAX_RECEIPT)
  }

  ghost predicate RowsFit(rows: Rows) {
    && |rows| <= MAX_ROWS
    && Total(rows) <= MAX_RECEIPTS
    && (forall i :: 0 <= i < |rows| ==> RowFits(rows[i]))
    && (forall i, j :: 0 <= i < j < |rows| ==> rows[i].id != rows[j].id)
  }

  predicate Owns(s: State, r: RequestId, i: int) { r in s.executing && s.executing[r].row == i }

  /** Each executing request owns a running row of its own, begun exactly when its call has started. */
  ghost predicate ExecutingOwns(s: State) {
    && (forall r, i :: Owns(s, r, i) ==> 0 <= i < |s.rows| && s.rows[i].status.Running?)
    && (forall q, r, i :: Owns(s, q, i) && Owns(s, r, i) ==> q == r)
    && (forall r, i :: Owns(s, r, i) && s.executing[r].phase.Reserved? ==> s.rows[i].id !in s.begun)
  }

  ghost predicate BegunOnce(s: State) {
    && (forall k :: 0 <= k < |s.begun| ==> HasId(s.rows, s.begun[k]))
    && Distinct(s.begun)
  }

  ghost predicate Inv(s: State) { RowsFit(s.rows) && ExecutingOwns(s) && BegunOnce(s) }

  /** How one step may change the table: ids, requests and ages stay, a decided row never changes its
      status, a cleanup receipt never changes at all. */
  predicate RowMoves(a: Row, b: Row) {
    && b.id == a.id && b.request == a.request && b.createdAt == a.createdAt
    && (!a.status.Running? ==> b.status == a.status)
    && (a.status.Unknown? && a.result.Some? ==> b == a)
    && (a.status.Completed? ==> b.result == a.result || b.result == None)
  }

  predicate RowsMove(a: Rows, b: Rows) {
    |a| <= |b| && forall i :: 0 <= i < |a| ==> RowMoves(a[i], b[i])
  }

  /** The eviction loop can always make room for a cleanup receipt. */
  lemma {:induction false} RoomIsFound(rows: Rows, after: Rows, i: nat, receipt: nat)
    requires RowsFit(rows) && MakesRoom(rows, after, receipt) && receipt <= MAX_CLEANUP
    requires i < |rows| && rows[i].Size() == 0
    ensures Total(after) + receipt <= MAX_RECEIPTS
  {
    if forall j :: 0 <= j < |after| ==> !after[j].Evictable() {
      forall j | 0 <= j < |after| ensures after[j].Size() <= MAX_CLEANUP {
        assert RowFits(rows[j]);
      }
      var filled := after[i := after[i].(result := Some(seq(receipt, _ => ' ')))];
      TotalUpdate(after, i, filled[i]);
      TotalBounded(filled, MAX_CLEANUP);
      assert MAX_ROWS * MAX_CLEANUP <= MAX_RECEIPTS;
    }
  }

  lemma {:induction false} UnknownKeeps(rows: Rows, i: nat)
    requires RowsFit(rows) && i < |rows| && rows[i].status.Running?
    ensures RowsFit(MarkUnknown(rows, i)) && RowsMove(rows, MarkUnknown(rows, i))
  {
    assert RowFits(rows[i]);
    TotalUpdate(rows, i, rows[i].(status := Unknown));
  }

  lemma {:induction false} CompletedKeeps(rows: Rows, i: nat, output: Bytes)
    requires RowsFit(rows) && i < |rows| && rows[i].status.Running?
    ensures var after := Settled(rows, i, Succeeded(output)); RowsFit(after) && RowsMove(rows, after)
  {
    assert RowFits(rows[i]);
    TotalUpdate(rows, i, rows[i].(status := Completed, result := Kept(rows, output)));
  }

  lemma {:induction false} ThinnedKeeps(rows: Rows, after: Rows)
    requires RowsFit(rows) && Thinned(rows, after)
    ensures RowsFit(after) && RowsMove(rows, after)
  {
    TotalThinned(rows, after);
    forall i | 0 <= i < |after| ensures RowFits(after[i]) { assert RowFits(rows[i]); }
  }

  lemma {:induction false} ReceiptKeeps(rows: Rows, i: nat, receipt: Bytes)
    requires RowsFit(rows) && i < |rows| && rows[i].status.Unknown? && rows[i].result.None? && |receipt| <= MAX_CLEANUP
    ensures RowsFit(StoreReceipt(rows, i, receipt)) && RowsMove(rows, StoreReceipt(rows, i, receipt))
  {
    TotalUpdate(rows, i, rows[i].(result := Some(receipt)));
  }

  lemma {:induction false} MovesCompose(a: Rows, b: Rows, c: Rows)
    requires RowsMove(a, b) && RowsMove(b, c)
    ensures RowsMove(a, c)
  {
    forall i | 0 <= i < |a| ensures RowMoves(a[i], c[i]) { assert RowMoves(a[i], b[i]) && RowMoves(b[i], c[i]); }
  }

  /** A failed call with warnings: the receipt is stored whatever the store held before. */
  lemma {:induction false} CleanupStored(rows: Rows, i: nat, ws: seq<Warning>, thinned: Rows)
    requires RowsFit(rows) && i < |rows| && rows[i].status.Running? && ValidWarnings(ws)
    requires MakesRoom(MarkUnknown(rows, i), thinned, |CleanupReceipt(ws)|)
    ensures var after := Settled(rows, i, Failed(Some(ws), thinned));
      && RowsFit(after) && RowsMove(rows, after)
      && after[i].status.Unknown? && after[i].result == Some(CleanupReceipt(ws))
  {
    var marked := MarkUnknown(rows, i);
    UnknownKeeps(rows, i);
    assert RowFits(rows[i]);
    CleanupReceiptSize(ws);
    RoomIsFound(marked, thinned, i, |CleanupReceipt(ws)|);
    ThinnedKeeps(marked, thinned);
    ReceiptKeeps(thinned, i, CleanupReceipt(ws));
    MovesCompose(rows, marked, thinned);
    MovesCompose(rows, thinned, Settled(rows, i, Failed(Some(ws), thinned)));
  }

  lemma {:induction false} SettledKeeps(rows: Rows, i: nat, outcome: Outcome)
    requires RowsFit(rows) && i < |rows| && rows[i].status.Running?
    requires outcome.Failed? && outcome.warnings.Some? ==>
      ValidWarnings(outcome.warnings.value) && MakesRoom(MarkUnknown(rows, i), outcome.thinned, |CleanupReceipt(outcome.warnings.value)|)
    ensures var after := Settled(rows, i, outcome);
      RowsFit(after) && RowsMove(rows, after) && |after| == |rows|
  {
    match outcome
    case Succeeded(output) => CompletedKeeps(rows, i, output);
    case Failed(Some(ws), thinned) => CleanupStored(rows, i, ws, thinned);
    case _ => UnknownKeeps(rows, i);
  }

  lemma {:induction false} SettledElsewhere(rows: Rows, i: nat, outcome: Outcome, j: nat)
    requires i < |rows| && j < |rows| && j != i && rows[j].status.Running?
    requires outcome.Failed? && outcome.warnings.Some? ==> Thinned(MarkUnknown(rows, i), outcome.thinned)
    ensures j < |Settled(rows, i, outcome)| && Settled(rows, i, outcome)[j] == rows[j]
  {
  }

  lemma {:induction false} ReserveKeepsInv(s: State, r: RequestId, id: InvocationId, request: Request)
    requires Inv(s) && Enabled(s, Reserve(r, id, request))
    ensures Inv(Step(s, Reserve(r, id, request))) && RowsMove(s.rows, Step(s, Reserve(r, id, request)).rows)
  {
    if ReserveReply(s.rows, id, request, s.now).Inserted? {
      var t := Step(s, Reserve(r, id, request));
      var n := |s.rows|;
      assert t.rows[..n] == s.rows;
      forall i | 0 <= i < n ensures t.rows[i] == s.rows[i] && t.rows[i].id != id {}
      assert RowsFit(t.rows);
      forall k | 0 <= k < |t.begun| ensures HasId(t.rows, t.begun[k]) && t.begun[k] != id {
        var i :| 0 <= i < n && s.rows[i].id == s.begun[k];
        assert t.rows[i].id == t.begun[k];
      }
      forall q, i | Owns(t, q, i) ensures (q == r && i == n) || (q != r && Owns(s, q, i)) {}
      assert ExecutingOwns(t);
    }
  }

  lemma {:induction false} BeginKeepsInv(s: State, r: RequestId)
    requires Inv(s) && Enabled(s, Begin(r))
    ensures Inv(Step(s, Begin(r)))
  {
    var t := Step(s, Begin(r));
    var i := s.executing[r].row;
    assert Owns(s, r, i);
    assert HasId(s.rows, s.rows[i].id);
    forall q, j | Owns(t, q, j) ensures Owns(s, q, j) {}
    assert BegunOnce(t);
    forall q, j | Owns(t, q, j) && t.executing[q].phase.Reserved? ensures t.rows[j].id !in t.begun {
      assert q != r && j != i;
    }
  }

  lemma {:induction false} FinishKeepsInv(s: State, r: RequestId, outcome: Outcome)
    requires Inv(s) && Enabled(s, Finish(r, outcome))
    ensures Inv(Step(s, Finish(r, outcome))) && RowsMove(s.rows, Step(s, Finish(r, outcome)).rows)
  {
    var i := s.executing[r].row;
    assert Owns(s, r, i);
    SettledKeeps(s.rows, i, outcome);
    var t := Step(s, Finish(r, outcome));
    forall q, j | Owns(t, q, j) ensures Owns(s, q, j) && j != i && t.rows[j] == s.rows[j] {
      assert Owns(s, q, j);
      SettledElsewhere(s.rows, i, outcome, j);
    }
    IdsStay(s.rows, t.rows, s.begun);
  }

  lemma {:induction false} IdsStay(a: Rows, b: Rows, ids: seq<InvocationId>)
    requires RowsMove(a, b) && forall k :: 0 <= k < |ids| ==> HasId(a, ids[k])
    ensures forall k :: 0 <= k < |ids| ==> HasId(b, ids[k])
  {
    forall k | 0 <= k < |ids| ensures HasId(b, ids[k]) {
      var i :| 0 <= i < |a| && a[i].id == ids[k];
      assert RowMoves(a[i], b[i]);
    }
  }

  lemma {:induction false} RestartKeepsInv(s: State)
    requires Inv(s)
    ensures Inv(Step(s, Restart)) && RowsMove(s.rows, Step(s, Restart).rows)
  {
    var t := Step(s, Restart);
    forall i | 0 <= i < |s.rows| ensures RowFits(t.rows[i]) && t.rows[i].id == s.rows[i].id && RowMoves(s.rows[i], t.rows[i]) {
      assert RowFits(s.rows[i]);
    }
    TotalSame(s.rows, t.rows);
    IdsStay(s.rows, t.rows, s.begun);
  }

  lemma {:induction false} RowsStay(rows: Rows)
    ensures RowsMove(rows, rows)
  {
    forall i | 0 <= i < |rows| ensures RowMoves(rows[i], rows[i]) {}
  }

  lemma {:induction false} TickKeepsInv(s: State, ms: nat)
    requires Inv(s)
    ensures Inv(s.(now := s.now + ms))
  {
    var t := s.(now := s.now + ms);
    forall r, i | Owns(t, r, i) ensures Owns(s, r, i) {}
  }

  lemma {:induction false} StepKeepsInv(s: State, e: Event)
    requires Inv(s) && Enabled(s, e)
    ensures Inv(Step(s, e)) && RowsMove(s.rows, Step(s, e).rows)
  {
    match e
    case Tick(ms) => TickKeepsInv(s, ms); RowsStay(s.rows);
    case Reserve(r, id, request) => ReserveKeepsInv(s, r, id, request);
    case Begin(r) => BeginKeepsInv(s, r); RowsStay(s.rows);
    case Finish(r, outcome) => FinishKeepsInv(s, r, outcome);
    case Restart => RestartKeepsInv(s);
  }

  lemma {:induction false} RunKeepsInv(es: seq<Event>)
    ensures Inv(Run(INIT, es))
  {
    if es != [] {
      RunKeepsInv(es[..|es| - 1]);
      var s := Run(INIT, es[..|es| - 1]);
      if Enabled(s, es[|es| - 1]) { StepKeepsInv(s, es[|es| - 1]); }
    }
  }

  // ---------------------------------------------------------------- main theorems

  /** Over all runs and restarts an invocation id starts external execution at most once. */
  lemma {:induction false} ExecutesAtMostOnce(es: seq<Event>)
    ensures Distinct(Run(INIT, es).begun)
  {
    RunKeepsInv(es);
  }

  /** Whatever happens later, a row keeps its id and arguments, a decided status is final, a cleanup
      receipt stays as it is, and a completed result can only be dropped. */
  lemma {:induction false} LedgerIsMonotone(es: seq<Event>, more: seq<Event>)
    ensures RowsMove(Run(INIT, es).rows, Run(INIT, es + more).rows)
  {
    if more == [] {
      assert es + more == es;
      RowsStay(Run(INIT, es).rows);
    } else {
      var init := more[..|more| - 1];
      LedgerIsMonotone(es, init);
      assert (es + more)[..|es + more| - 1] == es + init;
      RunKeepsInv(es + init);
      var s := Run(INIT, es + init);
      var e := more[|more| - 1];
      assert (es + more)[|es + more| - 1] == e;
      if Enabled(s, e) {
        StepKeepsInv(s, e);
        MovesCompose(Run(INIT, es).rows, s.rows, Step(s, e).rows);
      }
    }
  }

  /** The receipts never exceed their budget, nor the table its row limit. */
  lemma {:induction false} ReceiptsStayInBudget(es: seq<Event>)
    ensures Total(Run(INIT, es).rows) <= MAX_RECEIPTS && |Run(INIT, es).rows| <= MAX_ROWS
  {
    RunKeepsInv(es);
  }

  /** "Cleanup receipt storage unavailable" is never reached: every cleanup that is to be stored ends up in its row. */
  lemma {:induction false} CleanupIsAlwaysStored(es: seq<Event>, r: RequestId, ws: seq<Warning>, thinned: Rows)
    requires Enabled(Run(INIT, es), Finish(r, Failed(Some(ws), thinned)))
    ensures var s := Run(INIT, es);
      var i := s.executing[r].row;
      var t := Step(s, Finish(r, Failed(Some(ws), thinned)));
      t.rows[i].status.Unknown? && t.rows[i].result == Some(CleanupReceipt(ws))
  {
    RunKeepsInv(es);
    var s := Run(INIT, es);
    assert Owns(s, r, s.executing[r].row);
    CleanupStored(s.rows, s.executing[r].row, ws, thinned);
  }

  /** Presenting a known id again never inserts: it replays the stored result for the same arguments,
      and conflicts otherwise. */
  lemma {:induction false} KnownIdNeverRunsAgain(es: seq<Event>, id: InvocationId, request: Request, now: nat)
    requires id in Run(INIT, es).begun
    ensures var s := Run(INIT, es);
      var reply := ReserveReply(s.rows, id, request, now);
      && (reply.Replayed? || reply.Conflict?)
      && (forall i :: 0 <= i < |s.rows| && s.rows[i].id == id ==>
            if s.rows[i].request == request && s.rows[i].Evictable() then reply == Replayed(s.rows[i].result.value)
            else reply == Conflict)
  {
    RunKeepsInv(es);
    var s := Run(INIT, es);
    var k :| 0 <= k < |s.begun| && s.begun[k] == id;
    var i := IndexOf(s.rows, id);
    forall j | 0 <= j < |s.rows| && s.rows[j].id == id ensures j == i {}
  }
}
