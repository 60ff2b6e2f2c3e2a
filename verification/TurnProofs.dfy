/**
  The invariant of a running turn, kept by every callback. The rows written so far show the text of
  the messages stored so far; a journalled call owns one call row and one result row, and its parts
  are left out when its message is stored; a stored block is a call message followed by exactly the
  results it asks for. The lemmas go from the text of single messages over whole blocks to the slices
  that a step, completion, a failure or a stop stores.
*/
module TurnProofs {
  import opened Prelude
  import opened History
  import opened TurnTranscript

  // ---------------------------------------------------------------- visible text

  lemma {:induction false} VisibleConcat(a: seq<Row>, b: seq<Row>)
    ensures Visible(a + b) == Visible(a) + Visible(b)
  {
    if b == [] {
      assert a + b == a;
    } else {
      VisibleConcat(a, b[..|b| - 1]);
      assert (a + b)[..|a + b| - 1] == a + b[..|b| - 1];
    }
  }

  lemma {:induction false} VisibleOne(row: Row)
    ensures Visible([row]) == if row.role.Assistant? then row.content else ""
  {
    assert [row][..0] == [];
  }

  lemma {:induction false} ToolsAreInvisible(rows: seq<Row>)
    requires forall i :: 0 <= i < |rows| ==> rows[i].role.Tool?
    ensures Visible(rows) == ""
  {
    if rows != [] { ToolsAreInvisible(rows[..|rows| - 1]); }
  }

  lemma {:induction false} VisibleFor(m: ProviderMessage)
    ensures Visible(RowsFor(m)) == TextOf(m)
  {
    match m
    case Text(t) => VisibleOne(AssistantRow(t, NoCalls));
    case Mixed(ts, calls) => VisibleOne(AssistantRow(Join(ts), Parts(PartsOf(calls))));
    case Results(outputs) => ToolsAreInvisible(ToolRows(outputs));
  }

  lemma {:induction false} VisibleOf(ms: seq<ProviderMessage>)
    ensures Visible(RowsOf(ms)) == AllText(ms)
  {
    if ms != [] {
      VisibleOf(ms[..|ms| - 1]);
      VisibleFor(ms[|ms| - 1]);
      VisibleConcat(RowsOf(ms[..|ms| - 1]), RowsFor(ms[|ms| - 1]));
    }
  }

  lemma {:induction false} AllTextConcat(a: seq<ProviderMessage>, b: seq<ProviderMessage>)
    ensures AllText(a + b) == AllText(a) + AllText(b)
  {
    if b == [] {
      assert a + b == a;
    } else {
      var init, last := b[..|b| - 1], TextOf(b[|b| - 1]);
      AllTextConcat(a, init);
      ButLast(a, b);
      Associate(AllText(a), AllText(init), last);
    }
  }

  lemma {:induction false} HasTextLast(ms: seq<ProviderMessage>)
    requires ms != []
    ensures HasAssistantText(ms) <==> HasAssistantText(ms[..|ms| - 1]) || TextOf(ms[|ms| - 1]) != ""
  {
    var init := ms[..|ms| - 1];
    if HasAssistantText(init) {
      var i :| 0 <= i < |init| && TextOf(init[i]) != "";
      assert TextOf(ms[i]) != "";
    }
    if HasAssistantText(ms) {
      var i :| 0 <= i < |ms| && TextOf(ms[i]) != "";
      assert i < |init| ==> TextOf(init[i]) != "";
    }
  }

  lemma {:induction false} NoTextMeansEmpty(ms: seq<ProviderMessage>)
    ensures HasAssistantText(ms) <==> AllText(ms) != ""
  {
    if ms != [] {
      NoTextMeansEmpty(ms[..|ms| - 1]);
      HasTextLast(ms);
    }
  }

  /** Leaving journalled parts out loses no text. */
  lemma {:induction false} RemainingText(ms: seq<ProviderMessage>, journal: Journal)
    ensures AllText(Remaining(ms, journal)) == AllText(ms)
  {
    if ms != [] {
      var m := ms[|ms| - 1];
      RemainingText(ms[..|ms| - 1], journal);
      AllTextConcat(Remaining(ms[..|ms| - 1], journal), RemainingOf(m, journal));
      RemainingTextOf(m, journal);
    }
  }

  lemma {:induction false} RemainingTextOf(m: ProviderMessage, journal: Journal)
    ensures AllText(RemainingOf(m, journal)) == TextOf(m)
  {
    var r := RemainingOf(m, journal);
    if r != [] { assert r[..0] == [] && TextOf(r[0]) == TextOf(m); }
  }

  lemma {:induction false} VisibleTurnRows(ms: seq<ProviderMessage>, fullText: string)
    ensures Visible(TurnRows(ms, fullText)) == if AllText(ms) == "" then fullText else AllText(ms)
  {
    VisibleOf(ms);
    NoTextMeansEmpty(ms);
    if fullText != "" && !HasAssistantText(ms) {
      VisibleConcat(RowsOf(ms), [AssistantRow(fullText, NoCalls)]);
      VisibleOne(AssistantRow(fullText, NoCalls));
    } else {
      assert RowsOf(ms) + [] == RowsOf(ms);
    }
  }

  // ---------------------------------------------------------------- updates in place

  predicate OneCall(calls: Calls, id: string) { calls.Parts? && |calls.parts| == 1 && calls.parts[0].isCall && calls.parts[0].id == id }

  /** An update leaves a row's place in the transcript alone. */
  ghost predicate RowLike(a: Row, b: Row) {
    && b.role == a.role && b.callId == a.callId
    && (a.role.Assistant? ==> b.content == a.content)
    && (b.calls == a.calls || exists id :: id != "" && OneCall(a.calls, id) && OneCall(b.calls, id))
  }

  ghost predicate RowsLike(a: seq<Row>, b: seq<Row>) {
    |a| == |b| && forall i :: 0 <= i < |a| ==> RowLike(a[i], b[i])
  }

  predicate EntryFits(rows: seq<Row>, id: string, e: Entry) {
    && e.call < |rows| && e.result < |rows| && id != ""
    && rows[e.call].role.Assistant? && OneCall(rows[e.call].calls, id)
    && rows[e.result].role.Tool? && rows[e.result].callId == id
  }

  ghost predicate JournalFits(rows: seq<Row>, journal: Journal) {
    forall id :: id in journal ==> EntryFits(rows, id, journal[id])
  }

  lemma {:induction false} LikeKeepsJournal(a: seq<Row>, b: seq<Row>, journal: Journal)
    requires RowsLike(a, b) && JournalFits(a, journal)
    ensures JournalFits(b, journal)
  {
    forall id | id in journal ensures EntryFits(b, id, journal[id]) {
      assert EntryFits(a, id, journal[id]);
      assert RowLike(a[journal[id].call], b[journal[id].call]) && RowLike(a[journal[id].result], b[journal[id].result]);
    }
  }

  lemma {:induction false} LikeTransitive(a: seq<Row>, b: seq<Row>, c: seq<Row>)
    requires RowsLike(a, b) && RowsLike(b, c)
    ensures RowsLike(a, c)
  {
    forall i | 0 <= i < |a| ensures RowLike(a[i], c[i]) { assert RowLike(a[i], b[i]) && RowLike(b[i], c[i]); }
  }

  lemma {:induction false} UpdateCallsLike(rows: seq<Row>, calls: seq<Call>, journal: Journal)
    requires JournalFits(rows, journal)
    ensures RowsLike(rows, UpdateCalls(rows, calls, journal))
  {
    if calls != [] {
      var before := UpdateCalls(rows, calls[..|calls| - 1], journal);
      UpdateCallsLike(rows, calls[..|calls| - 1], journal);
      LikeKeepsJournal(rows, before, journal);
      var c := calls[|calls| - 1];
      if c.id in journal {
        assert EntryFits(before, c.id, journal[c.id]);
        var after := before[journal[c.id].call := before[journal[c.id].call].(calls := Parts([PartOf(c)]))];
        assert OneCall(Parts([PartOf(c)]), c.id);
        assert RowsLike(before, after);
        LikeTransitive(rows, before, after);
      }
    }
  }

  lemma {:induction false} UpdateOutputsLike(rows: seq<Row>, outputs: seq<Output>, journal: Journal)
    requires JournalFits(rows, journal)
    ensures RowsLike(rows, UpdateOutputs(rows, outputs, journal))
  {
    if outputs != [] {
      var before := UpdateOutputs(rows, outputs[..|outputs| - 1], journal);
      UpdateOutputsLike(rows, outputs[..|outputs| - 1], journal);
      LikeKeepsJournal(rows, before, journal);
      var o := outputs[|outputs| - 1];
      if o.id in journal {
        assert EntryFits(before, o.id, journal[o.id]);
        var after := before[journal[o.id].result := before[journal[o.id].result].(content := o.output)];
        assert RowsLike(before, after);
        LikeTransitive(rows, before, after);
      }
    }
  }

  lemma {:induction false} UpdatedLike(rows: seq<Row>, ms: seq<ProviderMessage>, journal: Journal)
    requires JournalFits(rows, journal)
    ensures RowsLike(rows, Updated(rows, ms, journal)) && JournalFits(Updated(rows, ms, journal), journal)
  {
    if ms != [] {
      var before := Updated(rows, ms[..|ms| - 1], journal);
      UpdatedLike(rows, ms[..|ms| - 1], journal);
      match ms[|ms| - 1] {
        case Text(_) =>
        case Mixed(_, calls) => UpdateCallsLike(before, calls, journal);
        case Results(outputs) => UpdateOutputsLike(before, outputs, journal);
      }
      LikeTransitive(rows, before, Updated(rows, ms, journal));
      LikeKeepsJournal(rows, Updated(rows, ms, journal), journal);
    }
  }

  lemma {:induction false} LikeVisible(a: seq<Row>, b: seq<Row>)
    requires RowsLike(a, b)
    ensures Visible(b) == Visible(a)
  {
    if a != [] {
      assert RowLike(a[|a| - 1], b[|b| - 1]);
      LikeVisible(a[..|a| - 1], b[..|b| - 1]);
    }
  }

  lemma {:induction false} LikeAsksFor(a: Row, b: Row, id: string)
    requires RowLike(a, b)
    ensures AsksFor(a, id) <==> AsksFor(b, id)
    ensures Asks(a) <==> Asks(b)
    ensures a.role.Assistant? ==> (AsksNothing(a) <==> AsksNothing(b))
  {
    if b.calls != a.calls {
      var x :| x != "" && OneCall(a.calls, x) && OneCall(b.calls, x);
      assert a.calls.parts == [a.calls.parts[0]] && b.calls.parts == [b.calls.parts[0]];
      assert a.calls.parts[0] in a.calls.parts && b.calls.parts[0] in b.calls.parts;
    }
  }

  lemma {:induction false} LikeBlocks(a: seq<Row>, b: seq<Row>)
    requires RowsLike(a, b)
    ensures forall i, j :: InBlock(a, i, j) <==> InBlock(b, i, j)
  {
    forall i, j ensures InBlock(a, i, j) <==> InBlock(b, i, j) {
      assert forall k :: 0 <= k < |a| ==> RowLike(a[k], b[k]);
    }
  }

  lemma {:induction false} LikeWellFormed(a: seq<Row>, b: seq<Row>)
    requires RowsLike(a, b) && WellFormed(a)
    ensures WellFormed(b)
  {
    LikeBlocks(a, b);
    forall i | 0 <= i < |b| && b[i].role.Assistant? ensures AsksNothing(b[i]) || Asks(b[i]) {
      assert RowLike(a[i], b[i]);
      LikeAsksFor(a[i], b[i], "");
    }
    forall i, id | 0 <= i < |b| && AsksFor(b[i], id) ensures AnsweredInBlock(b, i, id) {
      assert RowLike(a[i], b[i]);
      LikeAsksFor(a[i], b[i], id);
      assert AnsweredInBlock(a, i, id);
      var j :| 0 <= j < |a| && InBlock(a, i, j) && a[j].callId == id;
      assert RowLike(a[j], b[j]);
      assert InBlock(b, i, j) && b[j].callId == id;
    }
    forall j | 0 <= j < |b| && b[j].role.Tool? ensures AskedInBlock(b, j) {
      assert RowLike(a[j], b[j]);
      assert AskedInBlock(a, j);
      var i :| 0 <= i < j && InBlock(a, i, j) && AsksFor(a[i], a[j].callId);
      assert RowLike(a[i], b[i]);
      LikeAsksFor(a[i], b[i], a[j].callId);
      assert InBlock(b, i, j) && AsksFor(b[i], b[j].callId);
    }
  }

  // ---------------------------------------------------------------- well-formed pieces

  lemma {:induction false} FirstAnswers(a: seq<Row>, b: seq<Row>, i: nat, id: string)
    requires i < |a| && AnsweredInBlock(a, i, id)
    ensures AnsweredInBlock(a + b, i, id)
  {
    var j :| 0 <= j < |a| && InBlock(a, i, j) && a[j].callId == id;
    assert InBlock(a + b, i, j) && (a + b)[j].callId == id;
  }

  lemma {:induction false} SecondAnswers(a: seq<Row>, b: seq<Row>, i: nat, id: string)
    requires i < |b| && AnsweredInBlock(b, i, id)
    ensures AnsweredInBlock(a + b, |a| + i, id)
  {
    var j :| 0 <= j < |b| && InBlock(b, i, j) && b[j].callId == id;
    assert InBlock(a + b, |a| + i, |a| + j) && (a + b)[|a| + j].callId == id;
  }

  lemma {:induction false} FirstAsked(a: seq<Row>, b: seq<Row>, j: nat)
    requires j < |a| && AskedInBlock(a, j)
    ensures AskedInBlock(a + b, j)
  {
    var i :| 0 <= i < j && InBlock(a, i, j) && AsksFor(a[i], a[j].callId);
    assert InBlock(a + b, i, j) && AsksFor((a + b)[i], (a + b)[j].callId);
  }

  lemma {:induction false} SecondAsked(a: seq<Row>, b: seq<Row>, j: nat)
    requires j < |b| && AskedInBlock(b, j)
    ensures AskedInBlock(a + b, |a| + j)
  {
    var i :| 0 <= i < j && InBlock(b, i, j) && AsksFor(b[i], b[j].callId);
    assert InBlock(a + b, |a| + i, |a| + j) && AsksFor((a + b)[|a| + i], (a + b)[|a| + j].callId);
  }

  lemma {:induction false} WellFormedConcat(a: seq<Row>, b: seq<Row>)
    requires WellFormed(a) && WellFormed(b)
    ensures WellFormed(a + b)
  {
    var s := a + b;
    forall i, id | 0 <= i < |s| && AsksFor(s[i], id) ensures AnsweredInBlock(s, i, id) {
      if i < |a| { FirstAnswers(a, b, i, id); } else { SecondAnswers(a, b, i - |a|, id); }
    }
    forall j | 0 <= j < |s| && s[j].role.Tool? ensures AskedInBlock(s, j) {
      if j < |a| { FirstAsked(a, b, j); } else { SecondAsked(a, b, j - |a|); }
    }
  }

  lemma {:induction false} PlainRowWellFormed(row: Row)
    requires row.role.Assistant? && AsksNothing(row)
    ensures WellFormed([row])
  {
  }

  lemma {:induction false} InOneBlock(row: Row, tools: seq<Row>, j: nat)
    requires 0 < j <= |tools| && forall k :: 0 <= k < |tools| ==> tools[k].role.Tool?
    ensures InBlock([row] + tools, 0, j) && ([row] + tools)[j] == tools[j - 1]
  {
    assert forall k :: 0 < k <= |tools| ==> ([row] + tools)[k] == tools[k - 1];
  }

  /** A row that asks, followed by exactly the results it asks for. */
  lemma {:induction false} BlockWellFormed(row: Row, tools: seq<Row>)
    requires Asks(row) && forall k :: 0 <= k < |tools| ==> tools[k].role.Tool? && AsksFor(row, tools[k].callId)
    requires forall id :: AsksFor(row, id) ==> exists k :: 0 <= k < |tools| && tools[k].callId == id
    ensures WellFormed([row] + tools)
  {
    var s := [row] + tools;
    forall j | 0 < j < |s| ensures s[j].role.Tool? && AskedInBlock(s, j) {
      InOneBlock(row, tools, j);
      assert AsksFor(s[0], s[j].callId);
    }
    forall i, id | 0 <= i < |s| && AsksFor(s[i], id) ensures AnsweredInBlock(s, i, id) {
      assert i == 0;
      var k :| 0 <= k < |tools| && tools[k].callId == id;
      InOneBlock(row, tools, k + 1);
    }
  }

  // ---------------------------------------------------------------- what is left out of a block

  lemma {:induction false} KeptCalls(calls: seq<Call>, journal: Journal, c: Call)
    ensures c in KeepCalls(calls, journal) <==> c in calls && c.id !in journal
  {
    if calls != [] {
      KeptCalls(calls[1..], journal, c);
      assert calls == [calls[0]] + calls[1..];
    }
  }

  lemma {:induction false} KeptOutputs(outputs: seq<Output>, journal: Journal, o: Output)
    ensures o in KeepOutputs(outputs, journal) <==> o in outputs && o.id !in journal
  {
    if outputs != [] {
      KeptOutputs(outputs[1..], journal, o);
      assert outputs == [outputs[0]] + outputs[1..];
    }
  }

  predicate DistinctOutputs(outputs: seq<Output>) {
    forall i, j :: 0 <= i < j < |outputs| ==> outputs[i].id != outputs[j].id
  }

  lemma {:induction false} KeptOutputsDistinct(outputs: seq<Output>, journal: Journal)
    requires DistinctOutputs(outputs)
    ensures DistinctOutputs(KeepOutputs(outputs, journal))
  {
    if outputs != [] {
      KeptOutputsDistinct(outputs[1..], journal);
      var rest := KeepOutputs(outputs[1..], journal);
      forall o | o in rest ensures o.id != outputs[0].id {
        KeptOutputs(outputs[1..], journal, o);
        var i :| 0 <= i < |outputs[1..]| && outputs[1..][i] == o;
        assert outputs[i + 1] == o;
      }
    }
  }

  lemma {:induction false} KeptIds(calls: seq<Call>, outputs: seq<Output>, journal: Journal)
    requires SameIds(calls, outputs)
    ensures SameIds(KeepCalls(calls, journal), KeepOutputs(outputs, journal))
    ensures KeepCalls(calls, journal) == [] <==> KeepOutputs(outputs, journal) == []
    ensures forall id :: HasCall(KeepCalls(calls, journal), id) <==> HasCall(calls, id) && id !in journal
  {
    var cs, os := KeepCalls(calls, journal), KeepOutputs(outputs, journal);
    forall c | c in cs ensures c.id != "" && HasOutput(os, c.id) {
      KeptCalls(calls, journal, c);
      var o :| o in outputs && o.id == c.id;
      KeptOutputs(outputs, journal, o);
    }
    forall o | o in os ensures HasCall(cs, o.id) {
      KeptOutputs(outputs, journal, o);
      var c :| c in calls && c.id == o.id;
      KeptCalls(calls, journal, c);
    }
    KeptOutputsDistinct(outputs, journal);
    forall id ensures HasCall(cs, id) <==> HasCall(calls, id) && id !in journal {
      if HasCall(cs, id) {
        var c :| c in cs && c.id == id;
        KeptCalls(calls, journal, c);
      }
      if HasCall(calls, id) && id !in journal {
        var c :| c in calls && c.id == id;
        KeptCalls(calls, journal, c);
      }
    }
    if cs != [] { assert cs[0] in cs; }
    if os != [] { assert os[0] in os; }
  }

  // ---------------------------------------------------------------- counting rows

  function CallRows(rows: seq<Row>, id: string): nat {
    if rows == [] then 0 else CallRows(rows[..|rows| - 1], id) + if AsksFor(rows[|rows| - 1], id) then 1 else 0
  }

  function ResultRows(rows: seq<Row>, id: string): nat {
    if rows == [] then 0
    else ResultRows(rows[..|rows| - 1], id) + if rows[|rows| - 1].role.Tool? && rows[|rows| - 1].callId == id then 1 else 0
  }

  lemma {:induction false} CountsConcat(a: seq<Row>, b: seq<Row>, id: string)
    ensures CallRows(a + b, id) == CallRows(a, id) + CallRows(b, id)
    ensures ResultRows(a + b, id) == ResultRows(a, id) + ResultRows(b, id)
  {
    if b == [] {
      assert a + b == a;
    } else {
      CountsConcat(a, b[..|b| - 1], id);
      assert (a + b)[..|a + b| - 1] == a + b[..|b| - 1];
    }
  }

  lemma {:induction false} CountsOne(row: Row, id: string)
    ensures CallRows([row], id) == if AsksFor(row, id) then 1 else 0
    ensures ResultRows([row], id) == if row.role.Tool? && row.callId == id then 1 else 0
  {
    assert [row][..0] == [];
  }

  lemma {:induction false} LikeCounts(a: seq<Row>, b: seq<Row>, id: string)
    requires RowsLike(a, b)
    ensures CallRows(b, id) == CallRows(a, id) && ResultRows(b, id) == ResultRows(a, id)
  {
    if a != [] {
      assert RowLike(a[|a| - 1], b[|b| - 1]);
      LikeAsksFor(a[|a| - 1], b[|b| - 1], id);
      LikeCounts(a[..|a| - 1], b[..|b| - 1], id);
    }
  }

  lemma {:induction false} ToolRowCounts(outputs: seq<Output>, id: string)
    requires DistinctOutputs(outputs)
    ensures CallRows(ToolRows(outputs), id) == 0
    ensures ResultRows(ToolRows(outputs), id) == if HasOutput(outputs, id) then 1 else 0
  {
    if outputs != [] {
      var init, last := outputs[..|outputs| - 1], outputs[|outputs| - 1];
      ToolRowCounts(init, id);
      assert ToolRows(outputs)[..|outputs| - 1] == ToolRows(init);
      assert outputs == init + [last];
      if HasOutput(init, id) {
        var o :| o in init && o.id == id;
        var i :| 0 <= i < |init| && init[i] == o;
        assert outputs[i].id != last.id;
      }
    }
  }

  lemma {:induction false} PartsAsk(calls: seq<Call>, content: string, id: string)
    ensures AsksFor(AssistantRow(content, Parts(PartsOf(calls))), id) <==> HasCall(calls, id)
  {
    var parts := PartsOf(calls);
    if HasCall(calls, id) {
      var c :| c in calls && c.id == id;
      var i :| 0 <= i < |calls| && calls[i] == c;
      assert parts[i] in parts;
    }
    if p :| p in parts && p.id == id {
      var i :| 0 <= i < |parts| && parts[i] == p;
      assert calls[i] in calls;
    }
  }

  function One(b: bool): nat { if b then 1 else 0 }

  /** What a block of a call message and its results contributes, journalled parts left out. */
  function BlockRows(ts: seq<string>, calls: seq<Call>, outputs: seq<Output>, journal: Journal): seq<Row> {
    RowsOf(RemainingOf(Mixed(ts, calls), journal) + RemainingOf(Results(outputs), journal))
  }

  lemma {:induction false} RowsOfOne(m: ProviderMessage)
    ensures RowsOf([m]) == RowsFor(m)
  {
    assert [m][..0] == [];
    assert [] + RowsFor(m) == RowsFor(m);
  }

  lemma {:induction false} RowsOfTwo(m: ProviderMessage, n: ProviderMessage)
    ensures RowsOf([m, n]) == RowsFor(m) + RowsFor(n)
  {
    assert [m, n][..1] == [m];
    RowsOfOne(m);
  }

  /** The messages left of a block. */
  lemma {:induction false} RemainingBlock(ts: seq<string>, calls: seq<Call>, outputs: seq<Output>, journal: Journal)
    requires KeepCalls(calls, journal) == [] <==> KeepOutputs(outputs, journal) == []
    ensures var cs, os := KeepCalls(calls, journal), KeepOutputs(outputs, journal);
      RemainingOf(Mixed(ts, calls), journal) + RemainingOf(Results(outputs), journal) ==
      if cs != [] then [Mixed(ts, cs), Results(os)] else if ts != [] then [Mixed(ts, cs)] else []
  {
  }

  /** The rows of a block, whatever part of it was journalled. */
  lemma {:induction false} BlockRowsAre(ts: seq<string>, calls: seq<Call>, outputs: seq<Output>, journal: Journal)
    requires SameIds(calls, outputs)
    ensures var cs, os := KeepCalls(calls, journal), KeepOutputs(outputs, journal);
      BlockRows(ts, calls, outputs, journal) ==
      if ts == [] && cs == [] then [] else [AssistantRow(Join(ts), Parts(PartsOf(cs)))] + ToolRows(os)
  {
    KeptIds(calls, outputs, journal);
    RemainingBlock(ts, calls, outputs, journal);
    var cs, os := KeepCalls(calls, journal), KeepOutputs(outputs, journal);
    if cs != [] {
      RowsOfTwo(Mixed(ts, cs), Results(os));
    } else if ts != [] {
      RowsOfOne(Mixed(ts, cs));
      assert ToolRows(os) == [];
    }
  }

  lemma {:induction false} BlockCounts(ts: seq<string>, calls: seq<Call>, outputs: seq<Output>, journal: Journal, id: string)
    requires SameIds(calls, outputs)
    ensures CallRows(BlockRows(ts, calls, outputs, journal), id) == One(id !in journal && HasCall(calls, id))
    ensures ResultRows(BlockRows(ts, calls, outputs, journal), id) == One(id !in journal && HasCall(calls, id))
  {
    BlockRowsAre(ts, calls, outputs, journal);
    KeptIds(calls, outputs, journal);
    var cs, os := KeepCalls(calls, journal), KeepOutputs(outputs, journal);
    var row := AssistantRow(Join(ts), Parts(PartsOf(cs)));
    CountsConcat([row], ToolRows(os), id);
    CountsOne(row, id);
    PartsAsk(cs, Join(ts), id);
    ToolRowCounts(os, id);
    assert HasOutput(os, id) <==> HasCall(cs, id);
  }

  lemma {:induction false} AskingRow(content: string, calls: seq<Call>)
    requires calls != [] && forall c :: c in calls ==> c.id != ""
    ensures Asks(AssistantRow(content, Parts(PartsOf(calls))))
  {
    var parts := PartsOf(calls);
    forall p | p in parts ensures p.isCall && p.id != "" {
      var i :| 0 <= i < |parts| && parts[i] == p;
      assert calls[i] in calls;
    }
  }

  lemma {:induction false} AskingBlock(content: string, cs: seq<Call>, os: seq<Output>)
    requires cs != [] && SameIds(cs, os)
    ensures WellFormed([AssistantRow(content, Parts(PartsOf(cs)))] + ToolRows(os))
  {
    var row := AssistantRow(content, Parts(PartsOf(cs)));
    AskingRow(content, cs);
    forall k | 0 <= k < |ToolRows(os)| ensures ToolRows(os)[k].role.Tool? && AsksFor(row, ToolRows(os)[k].callId) {
      assert os[k] in os;
      PartsAsk(cs, content, os[k].id);
    }
    forall id | AsksFor(row, id) ensures exists k :: 0 <= k < |ToolRows(os)| && ToolRows(os)[k].callId == id {
      PartsAsk(cs, content, id);
      ResultFor(cs, os, id);
    }
    BlockWellFormed(row, ToolRows(os));
  }

  lemma {:induction false} ResultFor(cs: seq<Call>, os: seq<Output>, id: string)
    requires SameIds(cs, os) && HasCall(cs, id)
    ensures exists k :: 0 <= k < |ToolRows(os)| && ToolRows(os)[k].callId == id
  {
    var c :| c in cs && c.id == id;
    var o :| o in os && o.id == c.id;
    var k :| 0 <= k < |os| && os[k] == o;
    assert ToolRows(os)[k].callId == id;
  }

  lemma {:induction false} BlockRowsWellFormed(ts: seq<string>, calls: seq<Call>, outputs: seq<Output>, journal: Journal)
    requires SameIds(calls, outputs)
    ensures WellFormed(BlockRows(ts, calls, outputs, journal))
  {
    BlockRowsAre(ts, calls, outputs, journal);
    KeptIds(calls, outputs, journal);
    var cs, os := KeepCalls(calls, journal), KeepOutputs(outputs, journal);
    var row := AssistantRow(Join(ts), Parts(PartsOf(cs)));
    if cs != [] {
      AskingBlock(Join(ts), cs, os);
    } else if ts != [] {
      PlainRowWellFormed(row);
      assert [row] + ToolRows(os) == [row];
    }
  }

  // ---------------------------------------------------------------- whole slices

  lemma {:induction false} RowsOfConcat(a: seq<ProviderMessage>, b: seq<ProviderMessage>)
    ensures RowsOf(a + b) == RowsOf(a) + RowsOf(b)
  {
    if b == [] {
      assert a + b == a;
    } else {
      var init := b[..|b| - 1];
      RowsOfConcat(a, init);
      ButLast(a, b);
      Associate(RowsOf(a), RowsOf(init), RowsFor(b[|b| - 1]));
    }
  }

  lemma {:induction false} AskedInLast(ms: seq<ProviderMessage>, id: string)
    requires ms != []
    ensures AskedIn(ms, id) <==> AskedIn(ms[..|ms| - 1], id) || Asked(ms[|ms| - 1], id)
  {
    var init := ms[..|ms| - 1];
    if AskedIn(init, id) {
      var i :| 0 <= i < |init| && Asked(init[i], id);
      assert Asked(ms[i], id);
    }
    if AskedIn(ms, id) {
      var i :| 0 <= i < |ms| && Asked(ms[i], id);
      if i < |init| { assert Asked(init[i], id); }
    }
  }

  lemma {:induction false} PlainMessageRow(m: ProviderMessage)
    requires !m.Results? && !TurnTranscript.Calling(m)
    ensures |RowsFor(m)| == 1 && RowsFor(m)[0].role.Assistant? && AsksNothing(RowsFor(m)[0])
  {
    if m.Mixed? { assert PartsOf(m.calls) == []; }
  }

  lemma {:induction false} PlainRemaining(m: ProviderMessage, journal: Journal)
    requires !m.Results? && !TurnTranscript.Calling(m)
    ensures RemainingOf(m, journal) == [] || RemainingOf(m, journal) == [m]
  {
  }

  lemma {:induction false} PlainMessageRows(m: ProviderMessage, journal: Journal, id: string)
    requires !m.Results? && !TurnTranscript.Calling(m)
    ensures var rows := RowsOf(RemainingOf(m, journal));
      WellFormed(rows) && CallRows(rows, id) == 0 && ResultRows(rows, id) == 0
    ensures !Asked(m, id)
  {
    PlainRemaining(m, journal);
    PlainMessageRow(m);
    var row := RowsFor(m)[0];
    assert RowsFor(m) == [row];
    RowsOfOne(m);
    PlainRowWellFormed(row);
    CountsOne(row, id);
  }

  /** `rows` is well-formed with one call row and one result row for `id` if `asked`. */
  ghost predicate Tidy(rows: seq<Row>, id: string, asked: bool) {
    WellFormed(rows) && CallRows(rows, id) == One(asked) && ResultRows(rows, id) == One(asked)
  }

  lemma {:induction false} JoinTidy(a: seq<Row>, b: seq<Row>, id: string, before: bool, here: bool, both: bool)
    requires Tidy(a, id, before) && Tidy(b, id, here) && One(both) == One(before) + One(here)
    ensures Tidy(a + b, id, both)
  {
    WellFormedConcat(a, b);
    CountsConcat(a, b, id);
  }

  /** Storing whole blocks: a well-formed piece with one row per call and per result that was not journalled. */
  lemma {:induction false} SliceRows(ms: seq<ProviderMessage>, journal: Journal, id: string)
    requires Blocks(ms) && IdsOnce(ms)
    ensures Tidy(RowsOf(Remaining(ms, journal)), id, id !in journal && AskedIn(ms, id))
    decreases |ms|
  {
    if ms != [] {
      if ms[|ms| - 1].Results? {
        LastBlockRows(ms, journal, id);
      } else {
        LastPlainRows(ms, journal, id);
      }
    }
  }

  lemma {:induction false} LastPlainRows(ms: seq<ProviderMessage>, journal: Journal, id: string)
    requires Blocks(ms) && IdsOnce(ms) && ms != [] && !ms[|ms| - 1].Results?
    ensures Tidy(RowsOf(Remaining(ms, journal)), id, id !in journal && AskedIn(ms, id))
    decreases |ms|, 0
  {
    var init, last := ms[..|ms| - 1], ms[|ms| - 1];
    IdsOncePrefix(ms, |ms| - 1);
    SliceRows(init, journal, id);
    AskedInLast(ms, id);
    PlainMessageRows(last, journal, id);
    RowsOfConcat(Remaining(init, journal), RemainingOf(last, journal));
    JoinTidy(RowsOf(Remaining(init, journal)), RowsOf(RemainingOf(last, journal)), id,
             id !in journal && AskedIn(init, id), false, id !in journal && AskedIn(ms, id));
  }

  lemma {:induction false} RemainingLastTwo(ms: seq<ProviderMessage>, journal: Journal)
    requires |ms| >= 2
    ensures Remaining(ms, journal) == Remaining(ms[..|ms| - 2], journal) + (RemainingOf(ms[|ms| - 2], journal) + RemainingOf(ms[|ms| - 1], journal))
  {
    assert ms[..|ms| - 1][..|ms| - 2] == ms[..|ms| - 2];
  }

  lemma {:induction false} NotAskedBefore(ms: seq<ProviderMessage>, n: nat, id: string)
    requires IdsOnce(ms) && n < |ms| && Asked(ms[n], id)
    ensures !AskedIn(ms[..n], id)
  {
    forall i | 0 <= i < n ensures !Asked(ms[..n][i], id) { assert ms[..n][i] == ms[i]; }
  }

  lemma {:induction false} BlockAppends(ms: seq<ProviderMessage>, journal: Journal)
    requires |ms| >= 2 && ms[|ms| - 2].Mixed? && ms[|ms| - 1].Results?
    ensures var n := |ms| - 2;
      RowsOf(Remaining(ms, journal)) == RowsOf(Remaining(ms[..n], journal)) + BlockRows(ms[n].texts, ms[n].calls, ms[n + 1].outputs, journal)
  {
    var n := |ms| - 2;
    RemainingLastTwo(ms, journal);
    RowsOfConcat(Remaining(ms[..n], journal), RemainingOf(ms[n], journal) + RemainingOf(ms[n + 1], journal));
    assert ms[n + 1] == Results(ms[n + 1].outputs) && ms[n] == Mixed(ms[n].texts, ms[n].calls);
  }

  lemma {:induction false} AskedInBlockOrBefore(ms: seq<ProviderMessage>, id: string)
    requires IdsOnce(ms) && |ms| >= 2 && ms[|ms| - 2].Mixed? && ms[|ms| - 1].Results?
    ensures One(AskedIn(ms, id)) == One(AskedIn(ms[..|ms| - 2], id)) + One(HasCall(ms[|ms| - 2].calls, id))
  {
    var n := |ms| - 2;
    assert ms[..n + 1][..n] == ms[..n];
    AskedInLast(ms, id);
    AskedInLast(ms[..n + 1], id);
    if Asked(ms[n], id) { NotAskedBefore(ms, n, id); }
  }

  lemma {:induction false} IdsOncePrefix(ms: seq<ProviderMessage>, n: nat)
    requires IdsOnce(ms) && n <= |ms|
    ensures IdsOnce(ms[..n])
  {
    forall i, j, id | 0 <= i < j < n && Asked(ms[..n][i], id) ensures !Asked(ms[..n][j], id) {
      assert Asked(ms[i], id);
    }
  }

  lemma {:induction false} BlockIsTidy(ms: seq<ProviderMessage>, journal: Journal, id: string)
    requires Blocks(ms) && IdsOnce(ms) && ms != [] && ms[|ms| - 1].Results?
    ensures |ms| >= 2 && ms[|ms| - 2].Mixed?
    ensures Tidy(BlockRows(ms[|ms| - 2].texts, ms[|ms| - 2].calls, ms[|ms| - 1].outputs, journal), id,
                 id !in journal && HasCall(ms[|ms| - 2].calls, id))
  {
    var n := |ms| - 2;
    BlockRowsWellFormed(ms[n].texts, ms[n].calls, ms[n + 1].outputs, journal);
    BlockCounts(ms[n].texts, ms[n].calls, ms[n + 1].outputs, journal, id);
  }

  lemma {:induction false} LastBlockRows(ms: seq<ProviderMessage>, journal: Journal, id: string)
    requires Blocks(ms) && IdsOnce(ms) && ms != [] && ms[|ms| - 1].Results?
    ensures Tidy(RowsOf(Remaining(ms, journal)), id, id !in journal && AskedIn(ms, id))
    decreases |ms|, 0
  {
    var n := |ms| - 2;
    BlockIsTidy(ms, journal, id);
    IdsOncePrefix(ms, n);
    SliceRows(ms[..n], journal, id);
    BlockAppends(ms, journal);
    AskedInBlockOrBefore(ms, id);
    JoinTidy(RowsOf(Remaining(ms[..n], journal)), BlockRows(ms[n].texts, ms[n].calls, ms[n + 1].outputs, journal), id,
             id !in journal && AskedIn(ms[..n], id), id !in journal && HasCall(ms[n].calls, id), id !in journal && AskedIn(ms, id));
  }

  // ---------------------------------------------------------------- what every step keeps

  predicate Stored(p: Script, t: Turn, id: string)
    requires t.persisted <= |p.messages|
  {
    id in t.journal || AskedIn(p.messages[..t.persisted], id)
  }

  /** One call row and one result row for every tool that was journalled or stored. */
  ghost predicate CountsFit(p: Script, t: Turn)
    requires t.persisted <= |p.messages|
  {
    forall id :: CallRows(t.rows, id) == One(Stored(p, t, id)) && ResultRows(t.rows, id) == One(Stored(p, t, id))
  }

  ghost predicate TextFits(p: Script, t: Turn)
    requires t.persisted <= |p.messages|
  {
    t.persistedText == AllText(p.messages[..t.persisted]) && (!t.stopped && !t.ended ==> Visible(t.rows) == t.persistedText)
  }

  ghost predicate JournalKnown(p: Script, journal: Journal) {
    forall id :: id in journal ==> AskedIn(p.messages, id)
  }

  ghost predicate Inv(p: Script, t: Turn) {
    && t.persisted <= |p.messages|
    && JournalFits(t.rows, t.journal)
    && WellFormed(t.rows)
    && JournalKnown(p, t.journal)
    && CountsFit(p, t)
    && TextFits(p, t)
  }

  lemma {:induction false} AskedInConcat(ms: seq<ProviderMessage>, n: nat, m: nat, id: string)
    requires n <= m <= |ms|
    ensures AskedIn(ms[..m], id) <==> AskedIn(ms[..n], id) || AskedIn(ms[n..m], id)
  {
    if AskedIn(ms[..n], id) {
      var i :| 0 <= i < n && Asked(ms[..n][i], id);
      assert Asked(ms[..m][i], id);
    }
    if AskedIn(ms[n..m], id) {
      var i :| 0 <= i < m - n && Asked(ms[n..m][i], id);
      assert Asked(ms[..m][n + i], id);
    }
    if AskedIn(ms[..m], id) {
      var i :| 0 <= i < m && Asked(ms[..m][i], id);
      if i < n { assert Asked(ms[..n][i], id); } else { assert Asked(ms[n..m][i - n], id); }
    }
  }

  lemma {:induction false} AskedOnceConcat(ms: seq<ProviderMessage>, n: nat, m: nat, id: string)
    requires n <= m <= |ms| && IdsOnce(ms)
    ensures !(AskedIn(ms[..n], id) && AskedIn(ms[n..m], id))
  {
    if AskedIn(ms[n..m], id) {
      var j :| 0 <= j < m - n && Asked(ms[n..m][j], id);
      assert Asked(ms[n + j], id);
      forall i | 0 <= i < n ensures !Asked(ms[..n][i], id) { assert ms[..n][i] == ms[i]; }
    }
  }

  lemma {:induction false} SliceIdsOnce(ms: seq<ProviderMessage>, n: nat, m: nat)
    requires n <= m <= |ms| && IdsOnce(ms)
    ensures IdsOnce(ms[n..m])
  {
    var s := ms[n..m];
    forall i, j, id | 0 <= i < j < |s| && Asked(s[i], id) ensures !Asked(s[j], id) { assert Asked(ms[n + i], id); }
  }

  /** What storing a slice adds to the rows. */
  lemma {:induction false} PersistCounts(p: Script, t: Turn, n: nat, id: string)
    requires IdsOnce(p.messages) && Inv(p, t) && t.persisted <= n <= |p.messages| && Blocks(p.messages[t.persisted..n])
    ensures var rows := SliceStored(t, p.messages, n);
      && CallRows(rows, id) == One(id in t.journal || AskedIn(p.messages[..n], id))
      && ResultRows(rows, id) == One(id in t.journal || AskedIn(p.messages[..n], id))
  {
    var slice := p.messages[t.persisted..n];
    UpdatedLike(t.rows, slice, t.journal);
    LikeCounts(t.rows, Updated(t.rows, slice, t.journal), id);
    SliceIdsOnce(p.messages, t.persisted, n);
    SliceRows(slice, t.journal, id);
    CountsConcat(Updated(t.rows, slice, t.journal), RowsOf(Remaining(slice, t.journal)), id);
    AskedInConcat(p.messages, t.persisted, n, id);
    AskedOnceConcat(p.messages, t.persisted, n, id);
  }

  lemma {:induction false} PersistShape(p: Script, t: Turn, n: nat)
    requires IdsOnce(p.messages) && Inv(p, t) && t.persisted <= n <= |p.messages| && Blocks(p.messages[t.persisted..n])
    ensures WellFormed(SliceStored(t, p.messages, n)) && JournalFits(SliceStored(t, p.messages, n), t.journal)
  {
    var slice := p.messages[t.persisted..n];
    var before, more := Updated(t.rows, slice, t.journal), RowsOf(Remaining(slice, t.journal));
    UpdatedLike(t.rows, slice, t.journal);
    LikeWellFormed(t.rows, before);
    SliceIdsOnce(p.messages, t.persisted, n);
    SliceRows(slice, t.journal, "");
    WellFormedConcat(before, more);
    MoreKeepsJournal(before, more, t.journal);
  }

  lemma {:induction false} MoreKeepsJournal(a: seq<Row>, b: seq<Row>, journal: Journal)
    requires JournalFits(a, journal)
    ensures JournalFits(a + b, journal)
  {
    forall id | id in journal ensures EntryFits(a + b, id, journal[id]) { assert EntryFits(a, id, journal[id]); }
  }

  lemma {:induction false} SliceText(ms: seq<ProviderMessage>, k: nat, n: nat)
    requires k <= n <= |ms|
    ensures AllText(ms[..n]) == AllText(ms[..k]) + AllText(ms[k..n])
  {
    AllTextConcat(ms[..k], ms[k..n]);
    assert ms[..k] + ms[k..n] == ms[..n];
  }

  lemma {:induction false} PersistedText(p: Script, t: Turn, n: nat, fullText: string)
    requires Inv(p, t) && t.persisted <= n <= |p.messages|
    ensures Persist(t, p.messages, n, fullText).persistedText == AllText(p.messages[..n])
  {
    RemainingText(p.messages[t.persisted..n], t.journal);
    SliceText(p.messages, t.persisted, n);
  }

  lemma {:induction false} PersistText(p: Script, t: Turn, n: nat, fullText: string)
    requires Inv(p, t) && !t.stopped && !t.ended && t.persisted <= n <= |p.messages|
    ensures Visible(Persist(t, p.messages, n, fullText).rows)
      == t.persistedText + if AllText(p.messages[t.persisted..n]) == "" then fullText else AllText(p.messages[t.persisted..n])
  {
    var slice := p.messages[t.persisted..n];
    RemainingText(slice, t.journal);
    UpdatedVisible(t.rows, slice, t.journal, TurnRows(Remaining(slice, t.journal), fullText));
    VisibleTurnRows(Remaining(slice, t.journal), fullText);
  }

  lemma {:induction false} UpdatedVisible(rows: seq<Row>, slice: seq<ProviderMessage>, journal: Journal, more: seq<Row>)
    requires JournalFits(rows, journal)
    ensures Visible(Updated(rows, slice, journal) + more) == Visible(rows) + Visible(more)
  {
    UpdatedLike(rows, slice, journal);
    LikeVisible(rows, Updated(rows, slice, journal));
    VisibleConcat(Updated(rows, slice, journal), more);
  }

  /** The rows after storing a slice without a closing text. */
  function SliceStored(t: Turn, ms: seq<ProviderMessage>, n: nat): seq<Row>
    requires t.persisted <= n <= |ms|
  {
    Updated(t.rows, ms[t.persisted..n], t.journal) + RowsOf(Remaining(ms[t.persisted..n], t.journal))
  }

  lemma {:induction false} PersistIs(t: Turn, ms: seq<ProviderMessage>, n: nat)
    requires t.persisted <= n <= |ms|
    ensures var u := Persist(t, ms, n, "");
      u == t.(rows := SliceStored(t, ms, n), persisted := n, persistedText := u.persistedText)
  {
    var completed := Remaining(ms[t.persisted..n], t.journal);
    assert TurnRows(completed, "") == RowsOf(completed);
  }

  /** The text shown once the messages up to `n` are stored. */
  lemma {:induction false} StoredShows(p: Script, t: Turn, n: nat)
    requires Inv(p, t) && !t.stopped && !t.ended && t.persisted <= n <= |p.messages|
    ensures Visible(Persist(t, p.messages, n, "").rows) == AllText(p.messages[..n])
  {
    PersistText(p, t, n, "");
    SliceText(p.messages, t.persisted, n);
  }

  lemma {:induction false} StepCounts(p: Script, t: Turn, u: Turn, n: nat)
    requires IdsOnce(p.messages) && Inv(p, t) && t.persisted <= n <= |p.messages| && Blocks(p.messages[t.persisted..n])
    requires u.rows == SliceStored(t, p.messages, n) && u.journal == t.journal && u.persisted == n
    ensures CountsFit(p, u)
  {
    forall id ensures CallRows(u.rows, id) == One(Stored(p, u, id)) && ResultRows(u.rows, id) == One(Stored(p, u, id)) {
      PersistCounts(p, t, n, id);
    }
  }

  lemma {:induction false} StepCompleteKeepsInv(p: Script, t: Turn, n: nat)
    requires IdsOnce(p.messages) && Inv(p, t) && !t.stopped && !t.ended
    requires t.persisted <= n <= |p.messages| && Blocks(p.messages[t.persisted..n])
    ensures Inv(p, Persist(t, p.messages, n, ""))
  {
    var u := Persist(t, p.messages, n, "");
    PersistIs(t, p.messages, n);
    PersistShape(p, t, n);
    PersistedText(p, t, n, "");
    StoredShows(p, t, n);
    StepCounts(p, t, u, n);
  }

  /** Appending rows that show text and nothing else. */
  lemma {:induction false} PlainRowKeeps(p: Script, t: Turn, row: Row)
    requires Inv(p, t) && row.role.Assistant? && row.calls.NoCalls?
    ensures var rows := t.rows + [row];
      WellFormed(rows) && JournalFits(rows, t.journal) && CountsFit(p, t.(rows := rows)) && Visible(rows) == Visible(t.rows) + row.content
  {
    PlainRowWellFormed(row);
    WellFormedConcat(t.rows, [row]);
    MoreKeepsJournal(t.rows, [row], t.journal);
    VisibleConcat(t.rows, [row]);
    VisibleOne(row);
    forall id ensures CallRows(t.rows + [row], id) == CallRows(t.rows, id) && ResultRows(t.rows + [row], id) == ResultRows(t.rows, id) {
      CountsConcat(t.rows, [row], id);
      CountsOne(row, id);
    }
  }

  function CallRow(c: Call): Row { AssistantRow("", Parts([PartOf(c)])) }
  function Placeholder(c: Call): Row { ToolRow(Output(c.id, c.name, UNCONFIRMED)) }

  lemma {:induction false} StartShape(rows: seq<Row>, c: Call)
    requires WellFormed(rows) && c.id != ""
    ensures WellFormed(rows + [CallRow(c), Placeholder(c)])
    ensures Visible(rows + [CallRow(c), Placeholder(c)]) == Visible(rows)
  {
    var outputs := [Output(c.id, c.name, UNCONFIRMED)];
    assert PartsOf([c]) == [PartOf(c)] && ToolRows(outputs) == [Placeholder(c)];
    assert c in [c] && outputs[0] in outputs;
    AskingBlock("", [c], outputs);
    assert [CallRow(c)] + [Placeholder(c)] == [CallRow(c), Placeholder(c)];
    WellFormedConcat(rows, [CallRow(c), Placeholder(c)]);
    VisibleConcat(rows, [CallRow(c), Placeholder(c)]);
    VisibleConcat([CallRow(c)], [Placeholder(c)]);
    VisibleOne(CallRow(c));
    VisibleOne(Placeholder(c));
  }

  lemma {:induction false} StartKeepsInv(p: Script, t: Turn, c: Call)
    requires IdsOnce(p.messages) && Inv(p, t) && Enabled(p, t, ToolStart(c)) && c.id !in t.journal
    ensures Inv(p, Started(t, c))
  {
    var u := Started(t, c);
    assert u.rows == t.rows + [CallRow(c), Placeholder(c)];
    StartShape(t.rows, c);
    StartJournal(t, c);
    StartAsked(p, t, c);
    forall id ensures CallRows(u.rows, id) == One(Stored(p, u, id)) && ResultRows(u.rows, id) == One(Stored(p, u, id)) {
      StartCounts(t.rows, c, id);
    }
  }

  lemma {:induction false} StartCounts(rows: seq<Row>, c: Call, id: string)
    ensures CallRows(rows + [CallRow(c), Placeholder(c)], id) == CallRows(rows, id) + One(id == c.id)
    ensures ResultRows(rows + [CallRow(c), Placeholder(c)], id) == ResultRows(rows, id) + One(id == c.id)
  {
    assert [CallRow(c)] + [Placeholder(c)] == [CallRow(c), Placeholder(c)];
    CountsConcat(rows, [CallRow(c), Placeholder(c)], id);
    CountsConcat([CallRow(c)], [Placeholder(c)], id);
    CountsOne(CallRow(c), id);
    CountsOne(Placeholder(c), id);
    assert PartOf(c) in [PartOf(c)];
  }

  lemma {:induction false} StartJournal(t: Turn, c: Call)
    requires JournalFits(t.rows, t.journal) && c.id != "" && c.id !in t.journal
    ensures JournalFits(Started(t, c).rows, Started(t, c).journal)
  {
    var u := Started(t, c);
    forall id | id in u.journal ensures EntryFits(u.rows, id, u.journal[id]) {
      if id != c.id { assert EntryFits(t.rows, id, t.journal[id]); }
    }
  }

  /** A tool that starts belongs to a message that is not stored yet. */
  lemma {:induction false} StartAsked(p: Script, t: Turn, c: Call)
    requires IdsOnce(p.messages) && t.persisted <= |p.messages| && AskedIn(p.messages[t.persisted..], c.id)
    ensures !AskedIn(p.messages[..t.persisted], c.id) && AskedIn(p.messages, c.id)
  {
    assert p.messages[t.persisted..] == p.messages[t.persisted..|p.messages|] && p.messages[..|p.messages|] == p.messages;
    AskedOnceConcat(p.messages, t.persisted, |p.messages|, c.id);
    AskedInConcat(p.messages, t.persisted, |p.messages|, c.id);
  }

  lemma {:induction false} LikeKeepsInv(p: Script, t: Turn, rows: seq<Row>)
    requires Inv(p, t) && RowsLike(t.rows, rows)
    ensures Inv(p, t.(rows := rows))
  {
    LikeKeepsJournal(t.rows, rows, t.journal);
    LikeWellFormed(t.rows, rows);
    LikeVisible(t.rows, rows);
    var u := t.(rows := rows);
    forall id ensures CallRows(rows, id) == One(Stored(p, u, id)) && ResultRows(rows, id) == One(Stored(p, u, id)) {
      LikeCounts(t.rows, rows, id);
      assert Stored(p, u, id) == Stored(p, t, id);
    }
  }

  lemma {:induction false} ResultKeepsInv(p: Script, t: Turn, id: string, output: string)
    requires Inv(p, t)
    ensures Inv(p, Step(p, t, ToolComplete(id, output)))
  {
    if id in t.journal {
      assert EntryFits(t.rows, id, t.journal[id]);
      var rows := t.rows[t.journal[id].result := t.rows[t.journal[id].result].(content := output)];
      assert RowsLike(t.rows, rows);
      LikeKeepsInv(p, t, rows);
    }
  }

  /** The end of a turn: one more row of text, and nothing is stored afterwards. */
  lemma {:induction false} EndKeepsInv(p: Script, t: Turn, row: Row, stopped: bool, ended: bool)
    requires Inv(p, t) && row.role.Assistant? && row.calls.NoCalls? && (stopped || ended)
    ensures Inv(p, t.(rows := t.rows + [row], stopped := stopped, ended := ended))
  {
    PlainRowKeeps(p, t, row);
    var u := t.(rows := t.rows + [row], stopped := stopped, ended := ended);
    forall id ensures CallRows(u.rows, id) == One(Stored(p, u, id)) && ResultRows(u.rows, id) == One(Stored(p, u, id)) {
      assert Stored(p, u, id) == Stored(p, t, id);
    }
  }

  /** Completion is a last step, plus at most one row of text. */
  lemma {:induction false} CompleteIs(p: Script, t: Turn)
    requires Enabled(p, t, Complete)
    ensures var rest := Drop(FullText(p), |t.persistedText|);
      var u := Persist(t, p.messages, |p.messages|, "");
      Step(p, t, Complete) == u.(ended := true) || Step(p, t, Complete) == u.(rows := u.rows + [AssistantRow(rest, NoCalls)], ended := true)
  {
    var rest, completed := Drop(FullText(p), |t.persistedText|), Remaining(p.messages[t.persisted..], t.journal);
    assert p.messages[t.persisted..|p.messages|] == p.messages[t.persisted..];
    var before := Updated(t.rows, p.messages[t.persisted..], t.journal);
    Associate(before, RowsOf(completed), [AssistantRow(rest, NoCalls)]);
    assert RowsOf(completed) + [] == RowsOf(completed);
  }

  lemma {:induction false} CompleteKeepsInv(p: Script, t: Turn)
    requires IdsOnce(p.messages) && Inv(p, t) && Enabled(p, t, Complete)
    ensures Inv(p, Step(p, t, Complete))
  {
    assert p.messages[t.persisted..|p.messages|] == p.messages[t.persisted..];
    StepCompleteKeepsInv(p, t, |p.messages|);
    CompleteIs(p, t);
    var u := Persist(t, p.messages, |p.messages|, "");
    EndKeepsInv(p, u, AssistantRow(Drop(FullText(p), |t.persistedText|), NoCalls), u.stopped, true);
    EndedKeepsInv(p, u);
  }

  lemma {:induction false} EndedKeepsInv(p: Script, t: Turn)
    requires Inv(p, t)
    ensures Inv(p, t.(ended := true))
  {
    var u := t.(ended := true);
    forall id ensures CallRows(u.rows, id) == One(Stored(p, u, id)) && ResultRows(u.rows, id) == One(Stored(p, u, id)) {
      assert Stored(p, u, id) == Stored(p, t, id);
    }
  }

  lemma {:induction false} DeltaKeepsInv(p: Script, t: Turn, text: string)
    requires Inv(p, t)
    ensures Inv(p, t.(text := text))
  {
    var u := t.(text := text);
    forall id ensures CallRows(u.rows, id) == One(Stored(p, u, id)) && ResultRows(u.rows, id) == One(Stored(p, u, id)) {
      assert Stored(p, u, id) == Stored(p, t, id);
    }
  }

  lemma {:induction false} StepKeepsInv(p: Script, t: Turn, e: Event)
    requires IdsOnce(p.messages) && Inv(p, t) && Enabled(p, t, e)
    ensures Inv(p, Step(p, t, e))
  {
    match e
    case Delta(chunk) => DeltaKeepsInv(p, t, t.text + chunk);
    case ToolStart(c) => if c.id !in t.journal { StartKeepsInv(p, t, c); }
    case ToolComplete(id, output) => ResultKeepsInv(p, t, id, output);
    case StepComplete(n) => if !t.stopped && !t.ended { StepCompleteKeepsInv(p, t, n); }
    case Complete => CompleteKeepsInv(p, t);
    case Fail(n, partial, acted) =>
      StepCompleteKeepsInv(p, t, n);
      var u := Persist(t, p.messages, n, "");
      EndKeepsInv(p, u, FailureRow(AllText(p.messages[..n]), partial, acted), u.stopped, true);
    case Abandon => EndedKeepsInv(p, t);
    case Stop => EndKeepsInv(p, t, AssistantRow(Drop(t.text, |t.persistedText|) + STOPPED, NoCalls), true, t.ended);
  }

  lemma {:induction false} StartInv(p: Script)
    ensures Inv(p, START)
  {
    forall id ensures CallRows([], id) == One(Stored(p, START, id)) && ResultRows([], id) == One(Stored(p, START, id)) {
      assert p.messages[..0] == [];
    }
  }

  lemma {:induction false} RunKeepsInv(p: Script, es: seq<Event>)
    requires IdsOnce(p.messages)
    ensures Inv(p, Run(p, es))
  {
    if es == [] {
      StartInv(p);
    } else {
      RunKeepsInv(p, es[..|es| - 1]);
      var t := Run(p, es[..|es| - 1]);
      if Enabled(p, t, es[|es| - 1]) { StepKeepsInv(p, t, es[|es| - 1]); }
    }
  }
}
