/** What every turn shows, however it ends. */
module TurnTheorems {
  import opened Prelude
  import opened History
  import opened TurnTranscript
  import opened TurnProofs

  // ---------------------------------------------------------------- main theorems

  /** However steps were split and whichever tools were journalled early, a turn that completes shows exactly its full text. */
  lemma {:induction false} CompletedTurnShowsFullText(p: Script, es: seq<Event>)
    requires IdsOnce(p.messages) && Enabled(p, Run(p, es), Complete)
    ensures Visible(Step(p, Run(p, es), Complete).rows) == FullText(p)
  {
    RunKeepsInv(p, es);
    CompleteShows(p, Run(p, es));
  }

  lemma {:induction false} CompleteShows(p: Script, t: Turn)
    requires Inv(p, t) && Enabled(p, t, Complete)
    ensures Visible(Step(p, t, Complete).rows) == FullText(p)
  {
    var rest := p.messages[t.persisted..];
    assert p.messages[t.persisted..|p.messages|] == rest;
    PersistText(p, t, |p.messages|, Drop(FullText(p), |t.persistedText|));
    SplitText(p.messages, t.persisted);
    if AllText(rest) == "" {
      assert t.persistedText + "" == t.persistedText;
      assert AllText(p.messages) == t.persistedText;
    }
  }

  /** A stopped turn shows what was stored, then what was streamed beyond it, then the marker: exactly the
      streamed text and the marker if and only if no more was stored than had been streamed. */
  lemma {:induction false} StoppedTurnShowsStream(p: Script, es: seq<Event>)
    requires IdsOnce(p.messages) && Enabled(p, Run(p, es), Stop)
    ensures var t := Run(p, es);
      var shown := Visible(Step(p, t, Stop).rows);
      && shown == (if |t.persistedText| <= |t.text| then t.text else t.persistedText) + STOPPED
      && (shown == t.text + STOPPED <==> |t.persistedText| <= |t.text|)
  {
    RunKeepsInv(p, es);
    StreamIsPrefix(p, es);
    StopShows(p, Run(p, es));
  }

  lemma {:induction false} StopShows(p: Script, t: Turn)
    requires Inv(p, t) && Enabled(p, t, Stop) && t.text <= FullText(p)
    ensures var shown := Visible(Step(p, t, Stop).rows);
      && shown == (if |t.persistedText| <= |t.text| then t.text else t.persistedText) + STOPPED
      && (shown == t.text + STOPPED <==> |t.persistedText| <= |t.text|)
  {
    PlainRowKeeps(p, t, AssistantRow(Drop(t.text, |t.persistedText|) + STOPPED, NoCalls));
    StoredIsPrefix(p, t);
    PrefixesAgree(t.persistedText, t.text, FullText(p));
    StopText(t.persistedText, t.text);
  }

  lemma {:induction false} StopText(stored: string, text: string)
    requires if |stored| <= |text| then stored == text[..|stored|] else text == stored[..|text|]
    ensures var shown := stored + (Drop(text, |stored|) + STOPPED);
      && shown == (if |stored| <= |text| then text else stored) + STOPPED
      && (shown == text + STOPPED <==> |stored| <= |text|)
  {
    if |stored| <= |text| {
      assert stored + (text[|stored|..] + STOPPED) == text + STOPPED;
    } else {
      assert |stored + STOPPED| != |text + STOPPED|;
    }
  }

  lemma {:induction false} StreamIsPrefix(p: Script, es: seq<Event>)
    ensures Run(p, es).text <= FullText(p)
  {
    if es != [] { StreamIsPrefix(p, es[..|es| - 1]); }
  }

  lemma {:induction false} StoredIsPrefix(p: Script, t: Turn)
    requires Inv(p, t)
    ensures t.persistedText <= FullText(p)
  {
    SplitText(p.messages, t.persisted);
    PrefixOf(t.persistedText, AllText(p.messages[t.persisted..]));
  }

  lemma {:induction false} SplitText(ms: seq<ProviderMessage>, n: nat)
    requires n <= |ms|
    ensures AllText(ms) == AllText(ms[..n]) + AllText(ms[n..])
  {
    SliceText(ms, n, |ms|);
    assert ms[n..|ms|] == ms[n..] && ms[..|ms|] == ms;
  }

  lemma {:induction false} PrefixOf(a: string, b: string)
    ensures a <= a + b
  {
  }

  lemma {:induction false} PrefixesAgree(a: string, b: string, c: string)
    requires a <= c && b <= c
    ensures if |a| <= |b| then a == b[..|a|] else b == a[..|b|]
  {
  }

  /** Nothing the agent does after a stop changes what the stopped turn shows. */
  lemma {:induction false} StoppedTurnIsFinal(p: Script, es: seq<Event>, more: seq<Event>)
    requires IdsOnce(p.messages) && Run(p, es).stopped
    ensures Run(p, es + more).stopped && Visible(Run(p, es + more).rows) == Visible(Run(p, es).rows)
  {
    if more == [] {
      assert es + more == es;
    } else {
      var init, e := more[..|more| - 1], more[|more| - 1];
      StoppedTurnIsFinal(p, es, init);
      assert (es + more)[..|es + more| - 1] == es + init && (es + more)[|es + more| - 1] == e;
      RunKeepsInv(p, es + init);
      if Enabled(p, Run(p, es + init), e) { StepAfterStop(p, Run(p, es + init), e); }
    }
  }

  lemma {:induction false} StepAfterStop(p: Script, t: Turn, e: Event)
    requires JournalFits(t.rows, t.journal) && t.stopped && Enabled(p, t, e)
    ensures Step(p, t, e).stopped && Visible(Step(p, t, e).rows) == Visible(t.rows)
  {
    if e.ToolComplete? && e.id in t.journal {
      assert EntryFits(t.rows, e.id, t.journal[e.id]);
      var rows := t.rows[t.journal[e.id].result := t.rows[t.journal[e.id].result].(content := e.output)];
      assert RowsLike(t.rows, rows);
      LikeVisible(t.rows, rows);
    }
  }

  /** A turn that completes has exactly one call row and one result row per tool call. */
  lemma {:induction false} OneRowPerCall(p: Script, es: seq<Event>, id: string)
    requires IdsOnce(p.messages) && Enabled(p, Run(p, es), Complete)
    ensures var rows := Step(p, Run(p, es), Complete).rows;
      CallRows(rows, id) == One(AskedIn(p.messages, id)) && ResultRows(rows, id) == One(AskedIn(p.messages, id))
  {
    RunKeepsInv(p, es);
    var u := Step(p, Run(p, es), Complete);
    StepKeepsInv(p, Run(p, es), Complete);
    assert p.messages[..|p.messages|] == p.messages;
    assert Stored(p, u, id) <==> AskedIn(p.messages, id);
  }

  /** At every moment of every turn, stopped or not, its rows are a transcript a prompt can be cut from. */
  lemma {:induction false} TurnRowsAreWellFormed(p: Script, es: seq<Event>)
    requires IdsOnce(p.messages)
    ensures WellFormed(Run(p, es).rows)
  {
    RunKeepsInv(p, es);
  }

  /** Stored text and what is added make up the partial text if and only if that starts with the stored text. */
  lemma {:induction false} AddedOnceIff(stored: string, partial: string)
    ensures stored + Missing(stored, partial) == partial <==> stored <= partial
    ensures !(stored <= partial) ==> stored + Missing(stored, partial) == stored + partial
  {
    if !(stored <= partial) { assert |stored + partial| > |partial|; }
  }

  /** A failed turn shows the stored text, then what is missing of the partial text, then the notice: exactly
      the partial text and the notice if and only if the partial text starts with the stored text. Otherwise
      the partial text follows the stored text as a whole, and what they have in common is shown twice. */
  lemma {:induction false} FailedTurnShowsPartialText(p: Script, es: seq<Event>, n: nat, partial: string, acted: bool)
    requires IdsOnce(p.messages) && Enabled(p, Run(p, es), Fail(n, partial, acted))
    ensures var stored := AllText(p.messages[..n]);
      var missing := Missing(stored, partial);
      && Visible(Step(p, Run(p, es), Fail(n, partial, acted)).rows) == stored + missing + Notice(missing, acted)
      && (stored + missing == partial <==> stored <= partial)
      && (!(stored <= partial) ==> stored + missing == stored + partial)
  {
    RunKeepsInv(p, es);
    var t := Run(p, es);
    StoredShows(p, t, n);
    var stored := AllText(p.messages[..n]);
    var row := FailureRow(stored, partial, acted);
    VisibleConcat(Persist(t, p.messages, n, "").rows, [row]);
    VisibleOne(row);
    AddedOnceIff(stored, partial);
    Associate(stored, Missing(stored, partial), Notice(Missing(stored, partial), acted));
  }

  /** A stop can come after a step was stored and before its text was relayed: more is shown than was streamed. */
  lemma {:induction false} StopMayShowMoreThanStreamed()
    ensures var p := Script([Text("hi")], "");
      && Run(p, [StepComplete(1)]).text == ""
      && Visible(Run(p, [StepComplete(1), Stop]).rows) == "hi" + STOPPED
  {
    var p := Script([Text("hi")], "");
    SingleText("hi");
    StartInv(p);
    RunOne(p, StepComplete(1));
    RunTwo(p, StepComplete(1), Stop);
    var t := Step(p, START, StepComplete(1));
    StepKeepsInv(p, START, StepComplete(1));
    StoredShows(p, START, 1);
    StopShows(p, t);
  }

  lemma {:induction false} RunOne(p: Script, e: Event)
    requires Enabled(p, START, e)
    ensures Run(p, [e]) == Step(p, START, e)
  {
    assert [e][..0] == [];
  }

  lemma {:induction false} RunTwo(p: Script, e: Event, f: Event)
    requires Enabled(p, START, e) && Enabled(p, Step(p, START, e), f)
    ensures Run(p, [e, f]) == Step(p, Step(p, START, e), f)
  {
    assert [e, f][..1] == [e];
    RunOne(p, e);
  }

  lemma {:induction false} SingleText(text: string)
    ensures var ms := [Text(text)];
      Blocks(ms) && IdsOnce(ms) && AllText(ms) == text && ms[..0] == [] && ms[..1] == ms && ms[0..1] == ms
  {
    assert [Text(text)][..0] == [];
  }
}
