/** What a prompt and a replay carry of the stored rows. */
module HistoryContents {
  import opened Prelude
  import opened History
  import HistoryReplay

  // ---------------------------------------------------------------- the rows of a conversation

  function CountOf(table: seq<Row>, conversation: string): nat {
    if table == [] then 0
    else CountOf(table[..|table| - 1], conversation) + if table[|table| - 1].conversation == conversation then 1 else 0
  }

  lemma {:induction false} CountGrows(table: seq<Row>, conversation: string, i: nat)
    requires i < |table| && table[i].conversation == conversation
    ensures CountOf(table[..i], conversation) < CountOf(table, conversation)
  {
    var n := |table| - 1;
    if i < n {
      CountGrows(table[..n], conversation, i);
      assert table[..n][..i] == table[..i];
    }
  }

  /** Exactly the rows of the conversation, in the order of the table: each sits after those before it. */
  lemma {:induction false} ConversationInOrder(table: seq<Row>, conversation: string)
    ensures var rows := OfConversation(table, conversation);
      && |rows| == CountOf(table, conversation)
      && (forall k :: 0 <= k < |rows| ==> rows[k].conversation == conversation && rows[k] in table)
      && (forall i :: 0 <= i < |table| && table[i].conversation == conversation ==>
            CountOf(table[..i], conversation) < |rows| && rows[CountOf(table[..i], conversation)] == table[i])
  {
    if table != [] {
      var n := |table| - 1;
      ConversationInOrder(table[..n], conversation);
      var rows := OfConversation(table, conversation);
      forall i | 0 <= i < |table| && table[i].conversation == conversation
        ensures CountOf(table[..i], conversation) < |rows| && rows[CountOf(table[..i], conversation)] == table[i]
      {
        CountGrows(table, conversation, i);
        if i < n { assert table[..n][..i] == table[..i] && table[..n][i] == table[i]; }
      }
    }
  }

  // ---------------------------------------------------------------- the repair

  /** The row asks for an id that no later tool row answers. */
  predicate Unanswered(rows: seq<Row>, start: nat, id: string)
    requires start < |rows|
  {
    && rows[start].role.Assistant? && rows[start].calls.Parts? && id != ""
    && (exists p :: p in rows[start].calls.parts && p.id == id)
    && forall j :: start < j < |rows| ==> !(rows[j].role.Tool? && rows[j].callId == id)
  }

  lemma {:induction false} SplitIff(rows: seq<Row>, start: nat)
    requires start < |rows|
    ensures HeadIsSplit(rows, start) <==> exists id :: Unanswered(rows, start, id)
  {
    if id :| id in HeadIds(rows[start]) && !AnsweredAfter(rows, start, id) { assert Unanswered(rows, start, id); }
    if id :| Unanswered(rows, start, id) { assert id in HeadIds(rows[start]) && !AnsweredAfter(rows, start, id); }
  }

  /** The prompt opens at the first row that is not a tool result; if that row asks for something that is never answered,
      it goes too, and with it the tool rows that follow it. */
  lemma {:induction false} OpeningIs(rows: seq<Row>, first: nat)
    requires first <= |rows| && (forall i :: 0 <= i < first ==> rows[i].role.Tool?) && (first < |rows| ==> !rows[first].role.Tool?)
    ensures var o := Opening(rows);
      if first < |rows| && exists id :: Unanswered(rows, first, id)
      then first < o && (forall i :: first < i < o ==> rows[i].role.Tool?) && (o < |rows| ==> !rows[o].role.Tool?)
      else o == first
  {
    SkipsTo(rows, 0, first);
    if first < |rows| { SplitIff(rows, first); }
  }

  lemma {:induction false} SkipsTo(rows: seq<Row>, start: nat, first: nat)
    requires start <= first <= |rows|
    requires (forall i :: start <= i < first ==> rows[i].role.Tool?) && (first < |rows| ==> !rows[first].role.Tool?)
    ensures SkipTools(rows, start) == first
    decreases first - start
  {
    if start < first { SkipsTo(rows, start + 1, first); }
  }

  // ---------------------------------------------------------------- messages

  function CallsAmong(parts: seq<Part>): nat {
    if parts == [] then 0 else CallsAmong(parts[..|parts| - 1]) + if parts[|parts| - 1].isCall then 1 else 0
  }

  /** Call `calls[n]` is the part that has `n` calls before it. */
  predicate Lists(calls: seq<Call>, parts: seq<Part>) {
    && |calls| == CallsAmong(parts)
    && forall k :: 0 <= k < |parts| && parts[k].isCall ==>
         var n := CallsAmong(parts[..k]);
         n < |calls| && calls[n].id == parts[k].id && calls[n].name == parts[k].name && calls[n].input == parts[k].input
  }

  lemma {:induction false} CallsInLast(parts: seq<Part>)
    requires parts != []
    ensures var p := parts[|parts| - 1];
      CallsIn(parts) == CallsIn(parts[..|parts| - 1]) + if p.isCall then [Call(p.id, p.name, p.input)] else []
  {
    if |parts| > 1 {
      CallsInLast(parts[1..]);
      assert parts[..|parts| - 1][1..] == parts[1..][..|parts| - 2];
    }
  }

  lemma {:induction false} CallsCount(parts: seq<Part>, k: nat)
    requires k < |parts| && parts[k].isCall
    ensures CallsAmong(parts[..k]) < CallsAmong(parts)
  {
    var n := |parts| - 1;
    if k < n {
      CallsCount(parts[..n], k);
      assert parts[..n][..k] == parts[..k];
    }
  }

  lemma {:induction false} CallsAreListed(parts: seq<Part>)
    ensures Lists(CallsIn(parts), parts)
  {
    if parts != [] {
      var n := |parts| - 1;
      CallsAreListed(parts[..n]);
      CallsInLast(parts);
      forall k | 0 <= k < |parts| && parts[k].isCall
        ensures var c := CallsAmong(parts[..k]);
          c < |CallsIn(parts)| && CallsIn(parts)[c] == Call(parts[k].id, parts[k].name, parts[k].input)
      {
        CallsCount(parts, k);
        if k < n { assert parts[..n][..k] == parts[..k] && parts[..n][k] == parts[k]; }
      }
    }
  }

  /** The message says what the row holds: role, text, results under their call id, and every call in order. */
  predicate Says(m: Message, row: Row) {
    match row.role
    case User => m.Plain? && m.role.User? && m.content == row.content
    case Tool => m.Result? && m.callId == row.callId && m.toolName == row.toolName && m.output == row.content
    case Assistant =>
      if m.Calling? then m.text == row.content && if row.calls.Parts? then Lists(m.calls, row.calls.parts) else row.calls.NotAnArray? && m.calls == []
      else
        && m.Plain? && m.role.Assistant? && m.content == row.content
        && (!row.calls.NoCalls? ==> row.content == "")
        && (row.calls.Parts? ==> CallsAmong(row.calls.parts) == 0)
  }

  lemma {:induction false} MessageSays(row: Row)
    ensures Says(ToMessage(row), row)
  {
    if row.role.Assistant? && row.calls.Parts? { CallsAreListed(row.calls.parts); }
  }

  predicate AllSay(ms: seq<Message>, rows: seq<Row>) {
    |ms| == |rows| && forall i :: 0 <= i < |ms| ==> Says(ms[i], rows[i])
  }

  lemma {:induction false} MessagesSay(rows: seq<Row>)
    ensures AllSay(ToMessages(rows), rows)
  {
    forall i | 0 <= i < |rows| ensures Says(ToMessage(rows[i]), rows[i]) { MessageSays(rows[i]); }
  }

  /** The prompt is the repaired window of the newest rows of the conversation, message by message. */
  lemma {:induction false} PromptSaysTheRows(table: seq<Row>, conversation: string, limit: nat)
    ensures var all := OfConversation(table, conversation);
      AllSay(Prompt(table, conversation, limit), Repaired(if |all| <= limit then all else all[|all| - limit..]))
  {
    MessagesSay(Repaired(LastRows(OfConversation(table, conversation), limit)));
  }

  // ---------------------------------------------------------------- appending

  function Append(table: seq<Row>, row: Row): seq<Row> { if AppendReply(table, row).Inserted? then table + [row] else table }

  /** A row is inserted exactly when no row has its id. From then on its id is taken: every further append under it changes
      nothing and is told whether the stored row belongs to the same conversation. */
  lemma {:induction false} AppendsOnce(table: seq<Row>, row: Row, again: Row)
    requires again.id == row.id
    ensures AppendReply(table, row).Inserted? <==> forall i :: 0 <= i < |table| ==> table[i].id != row.id
    ensures var t := Append(table, row);
      && table <= t && Append(t, again) == t
      && (AppendReply(t, again).Existing? <==> exists i :: 0 <= i < |t| && t[i].id == row.id && t[i].conversation == again.conversation)
      && (AppendReply(t, again).WrongConversation? <==> !AppendReply(t, again).Existing?)
  {
    var t := Append(table, row);
    if AppendReply(table, row).Inserted? { assert t[|table|].id == row.id; }
    assert HasId(t, row.id);
  }

  // ---------------------------------------------------------------- replay

  /** The client shows the content of the row; with ids a terminal stop marker becomes a flag. */
  predicate ShowsContent(m: HistoryReplay.Shown, row: Row, withIds: bool) {
    && m.role == row.role
    && m.content + (if m.stopped then "\n\n_(Stopped)_" else "") == row.content
    && (m.stopped <==> row.role.Assistant? && withIds && |row.content| >= 13 && row.content[|row.content| - 13..] == "\n\n_(Stopped)_")
  }

  lemma {:induction false} ShownHolds(row: Row, withIds: bool)
    requires HistoryReplay.Visible(row)
    ensures ShowsContent(HistoryReplay.ShownAs(row, withIds), row, withIds)
  {
    if row.role.Assistant? && withIds && HistoryReplay.EndsStopped(row.content) {
      var n := |row.content| - 13;
      assert row.content == row.content[..n] + row.content[n..];
    }
  }

  /** Every user row and every assistant row with text is shown at its place with its content. */
  lemma {:induction false} ClientShowsTheRows(rows: seq<Row>, withIds: bool, raw: string -> string, i: nat)
    requires HistoryReplay.DistinctIds(rows) && i < |rows| && HistoryReplay.Visible(rows[i])
    ensures var c := HistoryReplay.Fold(HistoryReplay.EMPTY, HistoryReplay.Frames(rows, withIds, raw));
      && HistoryReplay.Position(rows, i) < |c.messages|
      && ShowsContent(c.messages[HistoryReplay.Position(rows, i)], rows[i], withIds)
  {
    HistoryReplay.ClientMirrorsServer(rows, withIds, raw);
    HistoryReplay.MessageAt(rows, withIds, i);
    ShownHolds(rows[i], withIds);
  }

  ghost function Replayed(rows: seq<Row>, raw: string -> string): HistoryReplay.Client {
    HistoryReplay.Fold(HistoryReplay.EMPTY, HistoryReplay.Frames(rows, true, raw))
  }

  lemma {:induction false} FreshId(rows: seq<Row>, raw: string -> string)
    requires HistoryReplay.DistinctIds(rows) && rows != []
    ensures rows[|rows| - 1].id !in Replayed(rows[..|rows| - 1], raw).indexes
  {
    var n := |rows| - 1;
    HistoryReplay.ClientMirrorsServer(rows[..n], true, raw);
    forall k | 0 <= k < n ensures rows[..n][k].id != rows[n].id { assert rows[..n][k] == rows[k]; }
  }

  lemma {:induction false} NextFrames(rows: seq<Row>, raw: string -> string)
    requires rows != []
    ensures var n := |rows| - 1;
      Replayed(rows, raw) == HistoryReplay.Fold(Replayed(rows[..n], raw), HistoryReplay.FrameStep(HistoryReplay.After(rows[..n]), rows[n], true, raw))
  {
    var n := |rows| - 1;
    HistoryReplay.FoldConcat(HistoryReplay.EMPTY, HistoryReplay.Frames(rows[..n], true, raw),
                             HistoryReplay.FrameStep(HistoryReplay.After(rows[..n]), rows[n], true, raw));
  }

  lemma {:induction false} NextPosition(rows: seq<Row>, raw: string -> string)
    requires HistoryReplay.DistinctIds(rows) && rows != []
    ensures |Replayed(rows[..|rows| - 1], raw).messages| == HistoryReplay.Position(rows, |rows| - 1)
  {
    var n := |rows| - 1;
    HistoryReplay.ClientMirrorsServer(rows[..n], true, raw);
    HistoryReplay.MessagesLength(rows[..n], true);
    HistoryReplay.PositionPrefix(rows, n, n);
  }

  lemma {:induction false} NextIndex(rows: seq<Row>, raw: string -> string)
    requires HistoryReplay.DistinctIds(rows) && rows != []
    ensures var n := |rows| - 1;
      Replayed(rows, raw).indexes
        == if HistoryReplay.Bubble(rows, n) && rows[n].id != ""
           then Replayed(rows[..n], raw).indexes[rows[n].id := HistoryReplay.Position(rows, n)] else Replayed(rows[..n], raw).indexes
  {
    var n := |rows| - 1;
    FreshId(rows, raw);
    NextFrames(rows, raw);
    NextPosition(rows, raw);
    HistoryReplay.FoldStep(Replayed(rows[..n], raw), HistoryReplay.After(rows[..n]), rows[n], true, raw);
  }

  /** With ids, the client knows where the message of each assistant row is. */
  lemma {:induction false} IndexesPoint(rows: seq<Row>, raw: string -> string, i: nat)
    requires HistoryReplay.DistinctIds(rows) && i < |rows| && HistoryReplay.Bubble(rows, i) && rows[i].id != ""
    ensures rows[i].id in Replayed(rows, raw).indexes && Replayed(rows, raw).indexes[rows[i].id] == HistoryReplay.Position(rows, i)
  {
    var n := |rows| - 1;
    NextIndex(rows, raw);
    if i < n {
      IndexesPoint(rows[..n], raw, i);
      HistoryReplay.PositionPrefix(rows, n, i);
      assert rows[..n][i] == rows[i];
    }
  }

  /** A message sent again under the id of a replayed row replaces that row's message, and nothing else changes. */
  lemma {:induction false} RepeatedMessageReplaces(rows: seq<Row>, raw: string -> string, i: nat, content: string, stopped: bool)
    requires HistoryReplay.DistinctIds(rows) && i < |rows| && HistoryReplay.Bubble(rows, i) && rows[i].id != ""
    ensures var c := Replayed(rows, raw);
      var at := HistoryReplay.Position(rows, i);
      && at < |c.messages|
      && HistoryReplay.Reduce(c, HistoryReplay.AssistantMessage(content, rows[i].id, stopped))
         == c.(messages := c.messages[at := HistoryReplay.Shown(Assistant, content, stopped)])
  {
    IndexesPoint(rows, raw, i);
    ClientShowsTheRows(rows, true, raw, i);
  }
}
