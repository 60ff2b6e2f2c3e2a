/** What the ledger remembers about each invocation, against the history of how its call ended. */
module ConnectorReceipts {
  import opened Prelude
  import opened ConnectorLedger

  // ---------------------------------------------------------------- the history of one row

  /** How the invocation of a row ended: with an outcome, or because the process died. */
  datatype Ending = Ended(outcome: Outcome) | LostInRestart

  predicate Finishes(s: State, e: Event, i: nat) { e.Finish? && Enabled(s, e) && Owns(s, e.r, i) }

  /** The first ending of row `i`; history alone. */
  ghost function EndingOf(es: seq<Event>, i: nat): Option<Ending> {
    if es == [] then None
    else
      var before, s, e := EndingOf(es[..|es| - 1], i), Run(INIT, es[..|es| - 1]), es[|es| - 1];
      if before.Some? then before
      else if Finishes(s, e, i) then Some(Ended(e.outcome))
      else if e.Restart? && i < |s.rows| then Some(LostInRestart)
      else None
  }

  /** An eviction loop that had to drop the result of row `i`. */
  predicate Evicts(e: Event, i: nat) {
    e.Finish? && e.outcome.Failed? && e.outcome.warnings.Some? && i < |e.outcome.thinned| && e.outcome.thinned[i].result.None?
  }

  /** The result of a successful invocation that should still be there: stored if it is at most 512 KiB and fits into
      the 32 MiB of all receipts, until an eviction. */
  ghost function ReceiptOf(es: seq<Event>, i: nat): Option<Bytes> {
    if es == [] then None
    else
      var before, s, e := ReceiptOf(es[..|es| - 1], i), Run(INIT, es[..|es| - 1]), es[|es| - 1];
      if Finishes(s, e, i) && e.outcome.Succeeded? then
        if |e.outcome.output| <= 512 * 1024 && Total(s.rows) + |e.outcome.output| <= 32 * 1024 * 1024 then Some(e.outcome.output) else None
      else if Enabled(s, e) && Evicts(e, i) then None
      else before
  }

  /** The row that belongs to an ending and a remaining receipt. */
  predicate RowEnds(row: Row, ending: Option<Ending>, receipt: Option<Bytes>) {
    match ending
    case None => row.status.Running? && row.result.None? && receipt.None?
    case Some(LostInRestart) => row.status.Unknown? && row.result.None? && receipt.None?
    case Some(Ended(outcome)) =>
      if outcome.Succeeded? then row.status.Completed? && row.result == receipt
      else
        && row.status.Unknown? && receipt.None?
        && row.result == if outcome.Failed? && outcome.warnings.Some? then Some(CleanupReceipt(outcome.warnings.value)) else None
  }

  // ---------------------------------------------------------------- one step

  /** The ending of the row's own call. */
  lemma {:induction false} OwnFinish(s: State, e: Event, i: nat)
    requires Inv(s) && Finishes(s, e, i)
    ensures i < |Step(s, e).rows|
    ensures RowEnds(Step(s, e).rows[i], Some(Ended(e.outcome)),
                    if e.outcome.Succeeded? && |e.outcome.output| <= 512 * 1024 && Total(s.rows) + |e.outcome.output| <= 32 * 1024 * 1024
                    then Some(e.outcome.output) else None)
  {
    assert Owns(s, e.r, i) && RowFits(s.rows[i]);
    SettledKeeps(s.rows, i, e.outcome);
    if e.outcome.Failed? && e.outcome.warnings.Some? { CleanupStored(s.rows, i, e.outcome.warnings.value, e.outcome.thinned); }
  }

  /** The ending of another row's call leaves this row alone, but for an eviction of its result. */
  lemma {:induction false} OtherFinish(s: State, e: Event, i: nat)
    requires Inv(s) && e.Finish? && Enabled(s, e) && !Owns(s, e.r, i) && i < |s.rows|
    ensures i < |Step(s, e).rows|
    ensures Step(s, e).rows[i]
      == if Evicts(e, i) && s.rows[i].Evictable() then s.rows[i].(result := None) else s.rows[i]
  {
    var k := s.executing[e.r].row;
    assert Owns(s, e.r, k);
    SettledKeeps(s.rows, k, e.outcome);
    if e.outcome.Failed? && e.outcome.warnings.Some? {
      assert MarkUnknown(s.rows, k)[i] == s.rows[i];
    }
  }

  lemma {:induction false} StepEnds(s: State, e: Event, i: nat, ending: Option<Ending>, receipt: Option<Bytes>)
    requires Inv(s) && Enabled(s, e) && i < |s.rows| && RowEnds(s.rows[i], ending, receipt)
    ensures i < |Step(s, e).rows|
    ensures ending.None? && Finishes(s, e, i) ==>
      RowEnds(Step(s, e).rows[i], Some(Ended(e.outcome)),
              if e.outcome.Succeeded? && |e.outcome.output| <= 512 * 1024 && Total(s.rows) + |e.outcome.output| <= 32 * 1024 * 1024
              then Some(e.outcome.output) else None)
    ensures Finishes(s, e, i) ==> ending.None?
    ensures !Finishes(s, e, i) ==>
      RowEnds(Step(s, e).rows[i], if ending.None? && e.Restart? then Some(LostInRestart) else ending, if Evicts(e, i) then None else receipt)
  {
    if Finishes(s, e, i) {
      assert Owns(s, e.r, i);
      OwnFinish(s, e, i);
    } else if e.Finish? {
      OtherFinish(s, e, i);
    }
  }

  /** Nothing has happened yet to a row that is not there. */
  lemma {:induction false} NoRowNoEnding(es: seq<Event>, i: nat)
    requires i >= |Run(INIT, es).rows|
    ensures EndingOf(es, i).None? && ReceiptOf(es, i).None?
  {
    if es != [] {
      var init, e := es[..|es| - 1], es[|es| - 1];
      RunKeepsInv(init);
      var s := Run(INIT, init);
      if Enabled(s, e) { StepKeepsInv(s, e); }
      NoRowNoEnding(init, i);
      assert forall r :: !Owns(s, r, i);
    }
  }

  // ---------------------------------------------------------------- main theorems

  /** In every run each row says how its call ended: running until then, completed with the result that should still
      be there, or unknown with exactly the cleanup that was reported. */
  lemma {:induction false} RowsFollowEndings(es: seq<Event>, i: nat)
    requires i < |Run(INIT, es).rows|
    ensures RowEnds(Run(INIT, es).rows[i], EndingOf(es, i), ReceiptOf(es, i))
  {
    if es != [] {
      var init, e := es[..|es| - 1], es[|es| - 1];
      RunKeepsInv(init);
      var s := Run(INIT, init);
      if i < |s.rows| {
        RowsFollowEndings(init, i);
        if Enabled(s, e) { StepEnds(s, e, i, EndingOf(init, i), ReceiptOf(init, i)); }
      } else {
        NoRowNoEnding(init, i);
        assert forall r :: !Owns(s, r, i);
      }
    }
  }

  predicate NoEviction(more: seq<Event>, i: nat) { forall k :: 0 <= k < |more| ==> !Evicts(more[k], i) }

  lemma {:induction false} ReceiptStays(es: seq<Event>, more: seq<Event>, i: nat)
    requires i < |Run(INIT, es).rows| && EndingOf(es, i).Some? && NoEviction(more, i)
    ensures i < |Run(INIT, es + more).rows| && EndingOf(es + more, i) == EndingOf(es, i) && ReceiptOf(es + more, i) == ReceiptOf(es, i)
    decreases |more|
  {
    if more == [] {
      assert es + more == es;
    } else {
      var init, e := more[..|more| - 1], more[|more| - 1];
      ReceiptStays(es, init, i);
      ButLast(es, more);
      RunKeepsInv(es + init);
      RowsFollowEndings(es + init, i);
      var s := Run(INIT, es + init);
      if Enabled(s, e) { StepKeepsInv(s, e); }
      assert forall r :: !Owns(s, r, i);
    }
  }

  /** The row found for an id is the one with that id. */
  lemma {:induction false} ReplyOfRow(s: State, i: nat, now: nat)
    requires Inv(s) && i < |s.rows| && s.rows[i].Evictable()
    ensures ReserveReply(s.rows, s.rows[i].id, s.rows[i].request, now) == Replayed(s.rows[i].result.value)
  {
    var k := IndexOf(s.rows, s.rows[i].id);
    assert k == i;
  }

  /** A success of at most 512 KiB that fits into the budget is replayed to every later presentation of the same id
      with the same request, in every continuation, until its result is evicted. */
  lemma {:induction false} SuccessIsReplayed(es: seq<Event>, r: RequestId, output: Bytes, more: seq<Event>, now: nat)
    requires var s := Run(INIT, es);
      && Enabled(s, Finish(r, Succeeded(output))) && |output| <= 512 * 1024 && Total(s.rows) + |output| <= 32 * 1024 * 1024
      && NoEviction(more, s.executing[r].row)
    ensures var s := Run(INIT, es);
      var row := s.rows[s.executing[r].row];
      ReserveReply(Run(INIT, es + [Finish(r, Succeeded(output))] + more).rows, row.id, row.request, now) == Replayed(output)
  {
    var s, e := Run(INIT, es), Finish(r, Succeeded(output));
    var i := s.executing[r].row;
    var done := es + [e];
    assert done[..|done| - 1] == es;
    RunKeepsInv(es);
    assert Owns(s, r, i);
    StepKeepsInv(s, e);
    assert RowMoves(s.rows[i], Step(s, e).rows[i]);
    RowsFollowEndings(es, i);
    StepEnds(s, e, i, EndingOf(es, i), ReceiptOf(es, i));
    ReceiptStays(done, more, i);
    RowsFollowEndings(done + more, i);
    LedgerIsMonotone(done, more);
    var t := Run(INIT, done + more);
    assert RowMoves(Run(INIT, done).rows[i], t.rows[i]);
    RunKeepsInv(done + more);
    ReplyOfRow(t, i, now);
  }

  /** A request begins its external call if and only if its id was never presented before, it was issued at most five
      minutes ago and at most thirty seconds ahead, and the table has room. */
  lemma {:induction false} FirstCallBeginsIff(es: seq<Event>, r: RequestId, id: InvocationId, request: Request)
    requires r !in Run(INIT, es).executing
    ensures var s, t := Run(INIT, es), Run(INIT, es + [Reserve(r, id, request)] + [Begin(r)]);
      t.begun == if !HasId(s.rows, id) && -30_000 <= s.now - request.issuedAt <= 300_000 && |s.rows| < 10_000 then s.begun + [id] else s.begun
    ensures var s := Run(INIT, es);
      var reply, timely := ReserveReply(s.rows, id, request, s.now), -30_000 <= s.now - request.issuedAt <= 300_000;
      !HasId(s.rows, id) ==> (reply.Expired? <==> !timely) && (reply.Full? <==> timely && |s.rows| >= 10_000)
                             && (reply.Inserted? <==> timely && |s.rows| < 10_000)
  {
    var s := Run(INIT, es);
    var reserved := es + [Reserve(r, id, request)];
    assert reserved[..|reserved| - 1] == es && (reserved + [Begin(r)])[..|reserved|] == reserved;
    var t := Run(INIT, reserved);
    if ReserveReply(s.rows, id, request, s.now).Inserted? { assert t.rows[t.executing[r].row].id == id; }
  }

  // ---------------------------------------------------------------- what the eviction loop may do

  /** Making room drops nothing that fits, only results of completed rows, the oldest first, and no more than needed. */
  lemma {:induction false} EvictsOnlyTheOldest(rows: Rows, after: Rows, size: nat)
    requires MakesRoom(rows, after, size)
    ensures Total(rows) + size <= 32 * 1024 * 1024 ==> after == rows
    ensures |after| == |rows|
    ensures forall i :: 0 <= i < |rows| && after[i] != rows[i] ==> rows[i].status.Completed? && after[i] == rows[i].(result := None)
    ensures forall i, j :: 0 <= i < |rows| && 0 <= j < |rows| && after[i] != rows[i] && after[j].status.Completed? && after[j].result.Some? ==>
      rows[i].createdAt <= after[j].createdAt
    ensures after != rows ==>
      exists i :: 0 <= i < |rows| && after[i] != rows[i] && Total(after) + rows[i].Size() + size > 32 * 1024 * 1024
    ensures Total(after) + size > 32 * 1024 * 1024 ==> forall i :: 0 <= i < |rows| && after[i].status.Completed? ==> after[i].result.None?
  {
    forall i | 0 <= i < |rows| && after[i] != rows[i] ensures Evicted(rows, after, i) {}
    if after != rows {
      var i :| 0 <= i < |rows| && Evicted(rows, after, i) && Total(after) + rows[i].Size() + size > MAX_RECEIPTS;
      ThinnedBy(rows, after, i);
    }
  }

  /** An evicted result no longer counts. */
  lemma {:induction false} ThinnedBy(rows: Rows, after: Rows, i: nat)
    requires Thinned(rows, after) && i < |rows| && Evicted(rows, after, i)
    ensures Total(after) + rows[i].Size() <= Total(rows)
  {
    var n := |rows| - 1;
    if i < n { ThinnedBy(rows[..n], after[..n], i); } else { TotalThinned(rows[..n], after[..n]); }
  }

  // ---------------------------------------------------------------- what a cleanup receipt says

  const OPENING: string := "{\"file_id\":\""
  const MIDDLE: string := "\",\"public_read_permission_may_remain\":"

  function Flag(w: Warning): string { if w.mayRemainPublic then "true}" else "false}" }

  lemma {:induction false} WarningTextIs(w: Warning)
    ensures WarningText(w) == OPENING + (w.fileId + (MIDDLE + Flag(w)))
  {
    assert WarningText(w) == "{\"file_id\":\"" + w.fileId + "\",\"public_read_permission_may_remain\":"
      + (if w.mayRemainPublic then "true" else "false") + "}";
    assert (if w.mayRemainPublic then "true" else "false") + "}" == Flag(w);
  }

  lemma {:induction false} SamePrefix(p: string, a: string, b: string)
    requires p + a == p + b
    ensures a == b
  {
    assert a == (p + a)[|p|..] && b == (p + b)[|p|..];
  }

  /** A file id ends at the quote that follows it. */
  lemma {:induction false} QuoteAt(a: string, s: string)
    requires s != []
    ensures |a| < |a + s| && (a + s)[|a|] == s[0]
  {
  }

  lemma {:induction false} CharAt(b: string, t: string, k: nat)
    requires (forall c :: c in b ==> FileChar(c)) && k < |b|
    ensures FileChar((b + t)[k])
  {
    assert (b + t)[k] in b;
  }

  lemma {:induction false} NotShorter(a: string, b: string, s: string, t: string)
    requires (forall c :: c in b ==> FileChar(c)) && a + s == b + t && s != [] && s[0] == '"'
    ensures |a| >= |b|
  {
    QuoteAt(a, s);
    if |a| < |b| { CharAt(b, t, |a|); }
  }

  lemma {:induction false} SameFileId(a: string, b: string, s: string, t: string)
    requires (forall c :: c in a ==> FileChar(c)) && (forall c :: c in b ==> FileChar(c))
    requires a + s == b + t && s != [] && t != [] && s[0] == '"' && t[0] == '"'
    ensures a == b && s == t
  {
    NotShorter(a, b, s, t);
    NotShorter(b, a, t, s);
    assert a == (a + s)[..|a|] && b == (b + t)[..|b|];
    SamePrefix(a, s, t);
  }

  lemma {:induction false} SameFlag(v: Warning, w: Warning, s: string, t: string)
    requires Flag(v) + s == Flag(w) + t
    ensures v.mayRemainPublic == w.mayRemainPublic && s == t
  {
    assert (Flag(v) + s)[0] == Flag(v)[0] && (Flag(w) + t)[0] == Flag(w)[0];
    SamePrefix(Flag(v), s, t);
  }

  lemma {:induction false} SameWarning(v: Warning, w: Warning, s: string, t: string)
    requires ValidWarning(v) && ValidWarning(w) && WarningText(v) + s == WarningText(w) + t
    ensures v == w && s == t
  {
    WarningTextIs(v);
    WarningTextIs(w);
    assert WarningText(v) + s == OPENING + (v.fileId + (MIDDLE + (Flag(v) + s)));
    assert WarningText(w) + t == OPENING + (w.fileId + (MIDDLE + (Flag(w) + t)));
    SamePrefix(OPENING, v.fileId + (MIDDLE + (Flag(v) + s)), w.fileId + (MIDDLE + (Flag(w) + t)));
    SameFileId(v.fileId, w.fileId, MIDDLE + (Flag(v) + s), MIDDLE + (Flag(w) + t));
    SamePrefix(MIDDLE, Flag(v) + s, Flag(w) + t);
    SameFlag(v, w, s, t);
  }

  function Rest(vs: seq<Warning>): string
    requires vs != []
  {
    if |vs| == 1 then "]}}" else "," + (WarningsText(vs[1..]) + "]}}")
  }

  lemma {:induction false} Regroup(a: string, sep: string, b: string, tail: string)
    ensures a + sep + b + tail == a + (sep + (b + tail))
  {
  }

  lemma {:induction false} TextSplits(vs: seq<Warning>)
    requires vs != []
    ensures WarningsText(vs) + "]}}" == WarningText(vs[0]) + Rest(vs)
  {
    if |vs| > 1 { Regroup(WarningText(vs[0]), ",", WarningsText(vs[1..]), "]}}"); }
  }

  lemma {:induction false} RestHead(vs: seq<Warning>)
    requires vs != []
    ensures Rest(vs) != [] && Rest(vs)[0] == if |vs| == 1 then ']' else ','
  {
  }

  lemma {:induction false} SameFirst(vs: seq<Warning>, ws: seq<Warning>)
    requires vs != [] && ws != [] && ValidWarning(vs[0]) && ValidWarning(ws[0])
    requires WarningsText(vs) + "]}}" == WarningsText(ws) + "]}}"
    ensures vs[0] == ws[0] && Rest(vs) == Rest(ws)
  {
    TextSplits(vs);
    TextSplits(ws);
    SameWarning(vs[0], ws[0], Rest(vs), Rest(ws));
  }

  lemma {:induction false} SameRest(vs: seq<Warning>, ws: seq<Warning>)
    requires vs != [] && ws != [] && Rest(vs) == Rest(ws)
    ensures |vs| == 1 <==> |ws| == 1
    ensures |vs| > 1 ==> WarningsText(vs[1..]) + "]}}" == WarningsText(ws[1..]) + "]}}"
  {
    RestHead(vs);
    RestHead(ws);
    if |vs| > 1 { SamePrefix(",", WarningsText(vs[1..]) + "]}}", WarningsText(ws[1..]) + "]}}"); }
  }

  lemma {:induction false} SameWarnings(vs: seq<Warning>, ws: seq<Warning>)
    requires vs != [] && ws != [] && (forall v :: v in vs ==> ValidWarning(v)) && (forall w :: w in ws ==> ValidWarning(w))
    requires WarningsText(vs) + "]}}" == WarningsText(ws) + "]}}"
    ensures vs == ws
  {
    SameFirst(vs, ws);
    SameRest(vs, ws);
    if |vs| > 1 { SameWarnings(vs[1..], ws[1..]); }
    assert vs == [vs[0]] + vs[1..] && ws == [ws[0]] + ws[1..];
  }

  /** A cleanup receipt loses nothing: two lists of warnings have the same text if and only if they are the same. */
  lemma {:induction false} ReceiptTellsAll(vs: seq<Warning>, ws: seq<Warning>)
    requires ValidWarnings(vs) && ValidWarnings(ws)
    ensures CleanupReceipt(vs) == CleanupReceipt(ws) <==> vs == ws
  {
    if CleanupReceipt(vs) == CleanupReceipt(ws) {
      var head := "{\"result\":{\"cleanup_required\":[";
      assert CleanupReceipt(vs) == head + (WarningsText(vs) + "]}}") && CleanupReceipt(ws) == head + (WarningsText(ws) + "]}}");
      SamePrefix(head, WarningsText(vs) + "]}}", WarningsText(ws) + "]}}");
      SameWarnings(vs, ws);
    }
  }
}
