/** The callbacks of a running turn as methods on its fields. */
module TurnWriter {
  import opened History
  import opened TurnTranscript

  class Writer {
    var rows: seq<Row>
    var journal: Journal
    var persisted: nat
    var persistedText: string
    var text: string
    var stopped: bool
    var ended: bool

    function View(): Turn
      reads this
    {
      Turn(rows, journal, persisted, persistedText, text, stopped, ended)
    }

    constructor ()
      ensures View() == START
    {
      rows, journal, persisted, persistedText, text, stopped, ended := [], map[], 0, "", "", false, false;
    }

    method OnDelta(chunk: string)
      modifies this`text
      ensures text == old(text) + chunk
    {
      text := text + chunk;
    }

    /** The placeholder is there before the tool can have any effect. */
    method OnToolStart(call: Call)
      modifies this
      ensures View() == Started(old(View()), call)
    {
      if call.id in journal { return; }
      var callRow := |rows|;
      rows := rows + [AssistantRow("", Parts([PartOf(call)]))];
      var resultRow := |rows|;
      rows := rows + [ToolRow(Output(call.id, call.name, UNCONFIRMED))];
      journal := journal[call.id := Entry(callRow, resultRow)];
    }

    method OnToolComplete(id: string, output: string)
      modifies this`rows
      ensures rows == if id in journal && journal[id].result < |old(rows)|
                      then old(rows)[journal[id].result := old(rows)[journal[id].result].(content := output)] else old(rows)
    {
      if id in journal && journal[id].result < |rows| {
        rows := rows[journal[id].result := rows[journal[id].result].(content := output)];
      }
    }

    /** The part filter of an assistant message: journalled calls refresh their row and go. */
    method FilterCalls(calls: seq<Call>) returns (kept: seq<Call>)
      modifies this`rows
      ensures rows == UpdateCalls(old(rows), calls, journal)
      ensures kept == KeepCalls(calls, journal)
    {
      kept := [];
      ghost var was := rows;
      for i := 0 to |calls|
        invariant rows == UpdateCalls(was, calls[..i], journal)
        invariant kept + KeepCalls(calls[i..], journal) == KeepCalls(calls, journal)
      {
        assert calls[..i + 1][..i] == calls[..i];
        KeepCallsStep(kept, calls, i, journal);
        if calls[i].id in journal {
          var at := journal[calls[i].id].call;
          if at < |rows| { rows := rows[at := rows[at].(calls := Parts([PartOf(calls[i])]))]; }
        } else {
          kept := kept + [calls[i]];
        }
      }
      assert calls[..|calls|] == calls;
    }

    method FilterOutputs(outputs: seq<Output>) returns (kept: seq<Output>)
      modifies this`rows
      ensures rows == UpdateOutputs(old(rows), outputs, journal)
      ensures kept == KeepOutputs(outputs, journal)
    {
      kept := [];
      ghost var was := rows;
      for i := 0 to |outputs|
        invariant rows == UpdateOutputs(was, outputs[..i], journal)
        invariant kept + KeepOutputs(outputs[i..], journal) == KeepOutputs(outputs, journal)
      {
        assert outputs[..i + 1][..i] == outputs[..i];
        KeepOutputsStep(kept, outputs, i, journal);
        if outputs[i].id in journal {
          var at := journal[outputs[i].id].result;
          if at < |rows| { rows := rows[at := rows[at].(content := outputs[i].output)]; }
        } else {
          kept := kept + [outputs[i]];
        }
      }
      assert outputs[..|outputs|] == outputs;
    }

    /** remainingProviderMessages. */
    method RemainingMessages(messages: seq<ProviderMessage>) returns (left: seq<ProviderMessage>)
      modifies this`rows
      ensures rows == Updated(old(rows), messages, journal)
      ensures left == Remaining(messages, journal)
    {
      left := [];
      ghost var was := rows;
      for i := 0 to |messages|
        invariant rows == Updated(was, messages[..i], journal)
        invariant left == Remaining(messages[..i], journal)
      {
        assert messages[..i + 1][..i] == messages[..i];
        match messages[i] {
          case Text(_) => left := left + [messages[i]];
          case Mixed(texts, calls) =>
            var kept := FilterCalls(calls);
            if texts != [] || kept != [] { left := left + [Mixed(texts, kept)]; }
          case Results(outputs) =>
            var kept := FilterOutputs(outputs);
            if kept != [] { left := left + [Results(kept)]; }
        }
      }
      assert messages[..|messages|] == messages;
    }

    method AppendTurnMessages(messages: seq<ProviderMessage>, fullText: string)
      modifies this`rows
      ensures rows == old(rows) + TurnRows(messages, fullText)
    {
      var hasText := false;
      ghost var was := rows;
      assert was + RowsOf([]) == was;
      for i := 0 to |messages|
        invariant rows == was + RowsOf(messages[..i])
        invariant hasText <==> HasAssistantText(messages[..i])
      {
        TextSoFar(messages, i);
        RowsSoFar(messages, i, was);
        AppendOne(messages[i]);
        hasText := hasText || TextOf(messages[i]) != "";
      }
      assert messages[..|messages|] == messages;
      if fullText != "" && !hasText { rows := rows + [AssistantRow(fullText, NoCalls)]; }
    }

    method AppendOne(m: ProviderMessage)
      modifies this`rows
      ensures rows == old(rows) + RowsFor(m)
    {
      match m
      case Text(t) => rows := rows + [AssistantRow(t, NoCalls)];
      case Mixed(texts, calls) => rows := rows + [AssistantRow(Join(texts), Parts(PartsOf(calls)))];
      case Results(outputs) => AppendOutputs(outputs);
    }

    method AppendOutputs(outputs: seq<Output>)
      modifies this`rows
      ensures rows == old(rows) + ToolRows(outputs)
    {
      ghost var was := rows;
      for i := 0 to |outputs|
        invariant rows == was + ToolRows(outputs[..i])
      {
        rows := rows + [ToolRow(outputs[i])];
        assert ToolRows(outputs[..i + 1]) == ToolRows(outputs[..i]) + [ToolRow(outputs[i])];
      }
      assert outputs[..|outputs|] == outputs;
    }

    method Store(messages: seq<ProviderMessage>, n: nat, fullText: string)
      requires persisted <= n <= |messages|
      modifies this`rows, this`persisted, this`persistedText
      ensures View() == Persist(old(View()), messages, n, fullText)
    {
      var completed := RemainingMessages(messages[persisted..n]);
      AppendTurnMessages(completed, fullText);
      persisted := n;
      persistedText := persistedText + AllText(completed);
    }

    method OnStepComplete(messages: seq<ProviderMessage>, n: nat)
      requires persisted <= n <= |messages|
      modifies this
      ensures View() == if old(stopped) || old(ended) then old(View()) else Persist(old(View()), messages, n, "")
    {
      if stopped || ended { return; }
      Store(messages, n, "");
    }

    method OnComplete(p: Script)
      requires Enabled(p, View(), Complete)
      modifies this
      ensures View() == Step(p, old(View()), Complete)
    {
      Store(p.messages, |p.messages|, Drop(FullText(p), |persistedText|));
      ended := true;
    }

    method OnStop(p: Script)
      requires Enabled(p, View(), Stop)
      modifies this
      ensures View() == Step(p, old(View()), Stop)
    {
      rows := rows + [AssistantRow(Drop(text, |persistedText|) + STOPPED, NoCalls)];
      stopped := true;
    }
  }

  lemma {:induction false} RowsSoFar(messages: seq<ProviderMessage>, i: nat, was: seq<Row>)
    requires i < |messages|
    ensures (was + RowsOf(messages[..i])) + RowsFor(messages[i]) == was + RowsOf(messages[..i + 1])
  {
    assert messages[..i + 1][..i] == messages[..i];
  }

  lemma {:induction false} TextSoFar(messages: seq<ProviderMessage>, i: nat)
    requires i < |messages|
    ensures HasAssistantText(messages[..i + 1]) <==> HasAssistantText(messages[..i]) || TextOf(messages[i]) != ""
  {
    var a, b := messages[..i], messages[..i + 1];
    if HasAssistantText(a) {
      var k :| 0 <= k < |a| && TextOf(a[k]) != "";
      assert TextOf(b[k]) != "";
    }
    if TextOf(messages[i]) != "" { assert TextOf(b[i]) != ""; }
    if HasAssistantText(b) {
      var k :| 0 <= k < |b| && TextOf(b[k]) != "";
      if k < i { assert TextOf(a[k]) != ""; }
    }
  }

  lemma {:induction false} KeepCallsStep(kept: seq<Call>, calls: seq<Call>, i: nat, journal: Journal)
    requires i < |calls|
    ensures kept + KeepCalls(calls[i..], journal)
      == (if calls[i].id in journal then kept else kept + [calls[i]]) + KeepCalls(calls[i + 1..], journal)
  {
    assert calls[i..][1..] == calls[i + 1..];
  }

  lemma {:induction false} KeepOutputsStep(kept: seq<Output>, outputs: seq<Output>, i: nat, journal: Journal)
    requires i < |outputs|
    ensures kept + KeepOutputs(outputs[i..], journal)
      == (if outputs[i].id in journal then kept else kept + [outputs[i]]) + KeepOutputs(outputs[i + 1..], journal)
  {
    assert outputs[i..][1..] == outputs[i + 1..];
  }
}
