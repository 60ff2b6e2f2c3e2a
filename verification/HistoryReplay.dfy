/**
  Replaying stored rows to a client. The server numbers the messages it makes the client show and
  anchors tool results by that number; the client folds the frames into its own list. Turning a
  tool's stored text into rawJson is left to a parameter.
*/
module HistoryReplay {
  import opened History
  import TurnTranscript
  import TurnProofs
  import TurnTheorems

  const STOPPED_SUFFIX := TurnTranscript.STOPPED

  datatype Frame =
    | UserMessage(content: string)
    | AssistantMessage(content: string, id: string, stopped: bool)     // no id is ""
    | ToolResult(turn: nat, toolName: string, rawJson: string)

  // ---------------------------------------------------------------- the server

  /** The loop's three variables. */
  datatype Server = Server(len: nat, last: int, bubble: bool)

  function EndsStopped(content: string): bool {
    |content| >= |STOPPED_SUFFIX| && content[|content| - |STOPPED_SUFFIX|..] == STOPPED_SUFFIX
  }

  function AssistantFrame(row: Row, withIds: bool): Frame {
    if withIds && EndsStopped(row.content) then AssistantMessage(row.content[..|row.content| - |STOPPED_SUFFIX|], row.id, true)
    else AssistantMessage(row.content, if withIds then row.id else "", false)
  }

  function ServerStep(s: Server, row: Row): Server {
    match row.role
    case User => Server(s.len + 1, s.last, false)
    case Assistant =>
      if row.content != "" then Server(s.len + 1, s.len, true)
      else if !s.bubble then Server(s.len, s.len, false)
      else s
    case Tool => s
  }

  function FrameStep(s: Server, row: Row, withIds: bool, raw: string -> string): seq<Frame> {
    match row.role
    case User => [UserMessage(row.content)]
    case Assistant => if row.content != "" then [AssistantFrame(row, withIds)] else []
    case Tool => if s.last < 0 then [] else [ToolResult(s.last, row.toolName, raw(row.content))]
  }

  function After(rows: seq<Row>): (s: Server)
    ensures s.last >= -1
  {
    if rows == [] then Server(0, -1, false) else ServerStep(After(rows[..|rows| - 1]), rows[|rows| - 1])
  }

  function Frames(rows: seq<Row>, withIds: bool, raw: string -> string): seq<Frame> {
    if rows == [] then []
    else var init := rows[..|rows| - 1]; Frames(init, withIds, raw) + FrameStep(After(init), rows[|rows| - 1], withIds, raw)
  }

  method ReplayHistory(rows: seq<Row>, withIds: bool, raw: string -> string) returns (frames: seq<Frame>)
    ensures frames == Frames(rows, withIds, raw)
  {
    var clientMessagesLen: nat, lastAssistantTurn: int, turnHasBubble := 0, -1, false;
    frames := [];
    for i := 0 to |rows|
      invariant Server(clientMessagesLen, lastAssistantTurn, turnHasBubble) == After(rows[..i])
      invariant frames == Frames(rows[..i], withIds, raw)
    {
      var row := rows[i];
      assert rows[..i + 1][..i] == rows[..i] && rows[..i + 1][i] == row;
      match row.role {
        case User =>
          frames := frames + [UserMessage(row.content)];
          clientMessagesLen, turnHasBubble := clientMessagesLen + 1, false;
        case Assistant =>
          if row.content != "" {
            frames := frames + [AssistantFrame(row, withIds)];
            lastAssistantTurn := clientMessagesLen;
            clientMessagesLen, turnHasBubble := clientMessagesLen + 1, true;
          } else if !turnHasBubble {
            lastAssistantTurn := clientMessagesLen;
          }
        case Tool =>
          if lastAssistantTurn >= 0 {
            frames := frames + [ToolResult(lastAssistantTurn, row.toolName, raw(row.content))];
          }
      }
    }
    assert rows[..|rows|] == rows;
  }

  // ---------------------------------------------------------------- the client

  datatype Shown = Shown(role: Role, content: string, stopped: bool)
  datatype Widget = Widget(turn: nat, toolName: string, rawJson: string)
  datatype Client = Client(messages: seq<Shown>, indexes: map<string, nat>, widgets: seq<Widget>)

  const EMPTY := Client([], map[], [])

  /** The frame reducer: a message id seen before replaces its message in place. */
  function Reduce(c: Client, f: Frame): Client {
    match f
    case UserMessage(content) => c.(messages := c.messages + [Shown(User, content, false)])
    case AssistantMessage(content, id, stopped) =>
      var message := Shown(Assistant, content, stopped);
      if id != "" && id in c.indexes then
        if c.indexes[id] < |c.messages| then c.(messages := c.messages[c.indexes[id] := message]) else c
      else c.(messages := c.messages + [message], indexes := if id != "" then c.indexes[id := |c.messages|] else c.indexes)
    case ToolResult(turn, toolName, rawJson) =>
      if rawJson == "" then c else c.(widgets := c.widgets + [Widget(turn, toolName, rawJson)])
  }

  function Fold(c: Client, fs: seq<Frame>): Client {
    if fs == [] then c else Reduce(Fold(c, fs[..|fs| - 1]), fs[|fs| - 1])
  }

  lemma {:induction false} FoldConcat(c: Client, a: seq<Frame>, b: seq<Frame>)
    ensures Fold(c, a + b) == Fold(Fold(c, a), b)
  {
    if b == [] {
      assert a + b == a;
    } else {
      FoldConcat(c, a, b[..|b| - 1]);
      assert (a + b)[..|a + b| - 1] == a + b[..|b| - 1];
    }
  }

  // ---------------------------------------------------------------- what the rows show

  predicate Visible(row: Row) { row.role.User? || (row.role.Assistant? && row.content != "") }

  function ShownAs(row: Row, withIds: bool): Shown {
    if row.role.User? then Shown(User, row.content, false)
    else var f := AssistantFrame(row, withIds); Shown(Assistant, f.content, f.stopped)
  }

  function Messages(rows: seq<Row>, withIds: bool): seq<Shown> {
    if rows == [] then []
    else Messages(rows[..|rows| - 1], withIds) + if Visible(rows[|rows| - 1]) then [ShownAs(rows[|rows| - 1], withIds)] else []
  }

  function Widgets(rows: seq<Row>, raw: string -> string): seq<Widget> {
    if rows == [] then []
    else
      var init, row := rows[..|rows| - 1], rows[|rows| - 1];
      Widgets(init, raw) +
      if row.role.Tool? && After(init).last >= 0 && raw(row.content) != ""
      then [Widget(After(init).last, row.toolName, raw(row.content))] else []
  }

  predicate DistinctIds(rows: seq<Row>) {
    forall i, j :: 0 <= i < j < |rows| ==> rows[i].id != rows[j].id
  }

  predicate IdOf(rows: seq<Row>, id: string) { exists i :: 0 <= i < |rows| && rows[i].id == id }

  lemma {:induction false} FoldStep(c: Client, s: Server, row: Row, withIds: bool, raw: string -> string)
    requires withIds ==> row.id !in c.indexes
    ensures var d := Fold(c, FrameStep(s, row, withIds, raw));
      && d.messages == c.messages + (if Visible(row) then [ShownAs(row, withIds)] else [])
      && d.indexes == (if withIds && row.role.Assistant? && row.content != "" && row.id != "" then c.indexes[row.id := |c.messages|] else c.indexes)
      && d.widgets == c.widgets + (if row.role.Tool? && s.last >= 0 && raw(row.content) != "" then [Widget(s.last, row.toolName, raw(row.content))] else [])
  {
    var fs := FrameStep(s, row, withIds, raw);
    if fs != [] { assert fs == [fs[0]] && fs[..0] == []; }
  }

  /** The client ends with the server's count, the visible rows in order, and a widget per tool row that was sent. */
  lemma {:induction false} ClientMirrorsServer(rows: seq<Row>, withIds: bool, raw: string -> string)
    requires DistinctIds(rows)
    ensures var c := Fold(EMPTY, Frames(rows, withIds, raw));
      && c.messages == Messages(rows, withIds)
      && |c.messages| == After(rows).len
      && c.widgets == Widgets(rows, raw)
      && forall id :: id in c.indexes ==> IdOf(rows, id)
  {
    if rows != [] {
      var init, row := rows[..|rows| - 1], rows[|rows| - 1];
      ClientMirrorsServer(init, withIds, raw);
      var c := Fold(EMPTY, Frames(init, withIds, raw));
      FoldConcat(EMPTY, Frames(init, withIds, raw), FrameStep(After(init), row, withIds, raw));
      forall i | 0 <= i < |init| ensures init[i].id != row.id { assert init[i] == rows[i]; }
      assert !IdOf(init, row.id);
      FoldStep(c, After(init), row, withIds, raw);
      var d := Fold(EMPTY, Frames(rows, withIds, raw));
      forall id | id in d.indexes ensures IdOf(rows, id) {
        if id in c.indexes {
          var i :| 0 <= i < |init| && init[i].id == id;
          assert rows[i].id == id;
        } else {
          assert rows[|rows| - 1].id == id;
        }
      }
    }
  }

  // ---------------------------------------------------------------- positions and turns

  /** How many messages the rows before `i` show: the position of row `i` if it is visible. */
  function Position(rows: seq<Row>, i: nat): nat
    requires i <= |rows|
  {
    if i == 0 then 0 else Position(rows, i - 1) + if Visible(rows[i - 1]) then 1 else 0
  }

  /** How many user rows come before `i`: the turn it belongs to. */
  function Turn(rows: seq<Row>, i: nat): nat
    requires i <= |rows|
  {
    if i == 0 then 0 else Turn(rows, i - 1) + if rows[i - 1].role.User? then 1 else 0
  }

  predicate AskedBefore(rows: seq<Row>, j: nat)
    requires j <= |rows|
  {
    exists i :: 0 <= i < j && rows[i].role.Assistant? && Turn(rows, i) == Turn(rows, j)
  }

  predicate Bubble(rows: seq<Row>, i: nat)
    requires i < |rows|
  {
    rows[i].role.Assistant? && rows[i].content != ""
  }

  predicate HasBubble(rows: seq<Row>, j: nat)
    requires j <= |rows|
  {
    exists i :: 0 <= i < |rows| && Bubble(rows, i) && Turn(rows, i) == Turn(rows, j)
  }

  /** The message at position `a` is a bubble of the turn of row `j`. */
  predicate AnchoredAt(rows: seq<Row>, j: nat, a: int)
    requires j <= |rows|
  {
    exists i :: 0 <= i < |rows| && Bubble(rows, i) && Turn(rows, i) == Turn(rows, j) && Position(rows, i) == a
  }

  lemma {:induction false} Monotone(rows: seq<Row>, i: nat, j: nat)
    requires i <= j <= |rows|
    ensures Turn(rows, i) <= Turn(rows, j) && Position(rows, i) <= Position(rows, j)
    ensures i < j && Visible(rows[i]) ==> Position(rows, i) < Position(rows, j)
    ensures i < j && rows[i].role.User? ==> Turn(rows, i) < Turn(rows, j)
  {
    if i < j { Monotone(rows, i, j - 1); }
  }

  lemma {:induction false} MessageAt(rows: seq<Row>, withIds: bool, i: nat)
    requires i < |rows| && Visible(rows[i])
    ensures Position(rows, i) < |Messages(rows, withIds)| && Messages(rows, withIds)[Position(rows, i)] == ShownAs(rows[i], withIds)
  {
    var n := |rows| - 1;
    MessagesLength(rows, withIds);
    PositionPrefix(rows, n, n);
    if i < n {
      MessageAt(rows[..n], withIds, i);
      PositionPrefix(rows, n, i);
    }
  }

  lemma {:induction false} PositionPrefix(rows: seq<Row>, n: nat, i: nat)
    requires i <= n <= |rows|
    ensures Position(rows[..n], i) == Position(rows, i) && Turn(rows[..n], i) == Turn(rows, i)
  {
    if i > 0 { PositionPrefix(rows, n, i - 1); }
  }

  lemma {:induction false} MessagesLength(rows: seq<Row>, withIds: bool)
    ensures |Messages(rows, withIds)| == Position(rows, |rows|)
  {
    if rows != [] {
      MessagesLength(rows[..|rows| - 1], withIds);
      PositionPrefix(rows, |rows| - 1, |rows| - 1);
    }
  }

  /** The row that set lastAssistantTurn: the latest bubble, or an earlier empty row of a turn without one. */
  predicate Setter(rows: seq<Row>, n: nat, w: nat)
    requires w < n <= |rows|
  {
    && rows[w].role.Assistant?
    && (Bubble(rows, w) || forall i :: 0 <= i < w && Bubble(rows, i) ==> Turn(rows, i) != Turn(rows, w))
    && (forall i :: w < i < n && Bubble(rows, i) ==> false)
    && (forall i :: w < i < n && rows[i].role.Assistant? ==> Bubble(rows, w) && Turn(rows, i) == Turn(rows, w))
  }

  /** The server's variables in terms of the rows seen so far. */
  ghost predicate ServerKnows(rows: seq<Row>, n: nat)
    requires n <= |rows|
  {
    var s := After(rows[..n]);
    && s.len == Position(rows, n)
    && (s.bubble <==> BubbleBefore(rows, n))
    && (s.last == -1 ==> forall i :: 0 <= i < n ==> !rows[i].role.Assistant?)
    && (s.last >= 0 ==> exists w :: 0 <= w < n && Setter(rows, n, w) && Position(rows, w) == s.last)
  }

  predicate BubbleBefore(rows: seq<Row>, n: nat)
    requires n <= |rows|
  {
    exists i :: 0 <= i < n && Bubble(rows, i) && Turn(rows, i) == Turn(rows, n)
  }

  lemma {:induction false} BubbleNext(rows: seq<Row>, n: nat)
    requires n < |rows|
    ensures BubbleBefore(rows, n + 1) <==>
      if rows[n].role.User? then false else Bubble(rows, n) || BubbleBefore(rows, n)
  {
    if rows[n].role.User? {
      forall i | 0 <= i < n ensures Turn(rows, i) != Turn(rows, n + 1) { Monotone(rows, i, n); }
    } else {
      assert Turn(rows, n + 1) == Turn(rows, n);
    }
  }

  lemma {:induction false} SetterStays(rows: seq<Row>, n: nat, w: nat)
    requires w < n < |rows| && Setter(rows, n, w)
    requires !rows[n].role.Assistant? || (rows[n].content == "" && BubbleBefore(rows, n))
    ensures Setter(rows, n + 1, w)
  {
    if rows[n].role.Assistant? {
      var i :| 0 <= i < n && Bubble(rows, i) && Turn(rows, i) == Turn(rows, n);
      assert i <= w;
      Monotone(rows, i, w);
      Monotone(rows, w, n);
    }
  }

  lemma {:induction false} NewSetter(rows: seq<Row>, n: nat)
    requires n < |rows| && rows[n].role.Assistant? && (rows[n].content != "" || !BubbleBefore(rows, n))
    ensures Setter(rows, n + 1, n)
  {
  }

  lemma {:induction false} ServerKnowledge(rows: seq<Row>, n: nat)
    requires n <= |rows|
    ensures ServerKnows(rows, n)
  {
    if n > 0 {
      var m := n - 1;
      ServerKnowledge(rows, m);
      assert rows[..n][..m] == rows[..m] && rows[..n][m] == rows[m];
      BubbleNext(rows, m);
      assert BubbleBefore(rows, m) <==> After(rows[..m]).bubble;
      assert After(rows[..m]).last == -1 ==> !BubbleBefore(rows, m);
      if rows[m].role.Assistant? && (rows[m].content != "" || !After(rows[..m]).bubble) {
        NewSetter(rows, m);
      } else if After(rows[..m]).last >= 0 {
        var w :| 0 <= w < m && Setter(rows, m, w) && Position(rows, w) == After(rows[..m]).last;
        SetterStays(rows, m, w);
      }
    }
  }

  // ---------------------------------------------------------------- anchors

  /** An asking row in the same turn makes the setter one of that turn, and the other way round. */
  lemma {:induction false} SetterTurn(rows: seq<Row>, j: nat, w: nat)
    requires w < j <= |rows| && Setter(rows, j, w)
    ensures AskedBefore(rows, j) <==> Turn(rows, w) == Turn(rows, j)
  {
    if AskedBefore(rows, j) {
      var i :| 0 <= i < j && rows[i].role.Assistant? && Turn(rows, i) == Turn(rows, j);
      if i < w {
        Monotone(rows, i, w);
        Monotone(rows, w, j);
      }
    }
  }

  /** The first bubble at or after `w` of the turn of `w`, if nothing visible lies between. */
  lemma {:induction false} FirstBubble(rows: seq<Row>, w: nat, i: nat) returns (f: nat)
    requires w <= i < |rows| && Bubble(rows, i) && Turn(rows, i) == Turn(rows, w)
    ensures w <= f <= i && Bubble(rows, f) && Turn(rows, f) == Turn(rows, w) && Position(rows, f) == Position(rows, w)
    decreases i - w
  {
    if Bubble(rows, w) {
      f := w;
    } else {
      if rows[w].role.User? { Monotone(rows, w, i); }
      f := FirstBubble(rows, w + 1, i);
    }
  }

  lemma {:induction false} SetterAnchors(rows: seq<Row>, j: nat, w: nat)
    requires w < j <= |rows| && Setter(rows, j, w) && Turn(rows, w) == Turn(rows, j) && HasBubble(rows, j)
    ensures AnchoredAt(rows, j, Position(rows, w))
  {
    if Bubble(rows, w) {
      assert Bubble(rows, w);
    } else {
      var i :| 0 <= i < |rows| && Bubble(rows, i) && Turn(rows, i) == Turn(rows, j);
      assert i > w;
      var f := FirstBubble(rows, w, i);
    }
  }

  /** A setter of an earlier turn points at nothing of this turn. */
  lemma {:induction false} SetterElsewhere(rows: seq<Row>, j: nat, w: nat)
    requires w < j <= |rows| && Turn(rows, w) != Turn(rows, j)
    ensures !AnchoredAt(rows, j, Position(rows, w))
  {
    if AnchoredAt(rows, j, Position(rows, w)) {
      var i :| 0 <= i < |rows| && Bubble(rows, i) && Turn(rows, i) == Turn(rows, j) && Position(rows, i) == Position(rows, w);
      Monotone(rows, w, j);
      if i < w {
        Monotone(rows, i, w);
      } else {
        UserBetween(rows, w, i);
      }
    }
  }

  /** Between two turns there is a user row, which is visible. */
  lemma {:induction false} UserBetween(rows: seq<Row>, w: nat, i: nat)
    requires w <= i <= |rows| && Turn(rows, w) < Turn(rows, i)
    ensures Position(rows, w) < Position(rows, i)
  {
    Monotone(rows, w, i - 1);
    if !rows[i - 1].role.User? { UserBetween(rows, w, i - 1); }
  }

  /** Main theorem: the number sent for a tool row is that of a bubble of its own turn exactly when an
      assistant row of that turn came before it and the turn has a non-empty assistant row. */
  lemma {:induction false} AnchoredIff(rows: seq<Row>, j: nat)
    requires j < |rows| && rows[j].role.Tool?
    ensures AnchoredAt(rows, j, After(rows[..j]).last) <==> AskedBefore(rows, j) && HasBubble(rows, j)
  {
    ServerKnowledge(rows, j);
    var last := After(rows[..j]).last;
    if last >= 0 {
      var w :| 0 <= w < j && Setter(rows, j, w) && Position(rows, w) == last;
      SetterTurn(rows, j, w);
      if Turn(rows, w) == Turn(rows, j) {
        if HasBubble(rows, j) { SetterAnchors(rows, j, w); }
      } else {
        SetterElsewhere(rows, j, w);
      }
    }
  }

  /** For such rows, every widget the client holds sits on an assistant message it shows. */
  lemma {:induction false} WidgetsSitOnBubbles(rows: seq<Row>, withIds: bool, raw: string -> string, k: nat)
    requires DistinctIds(rows) && ReplayReady(rows)
    requires k < |Fold(EMPTY, Frames(rows, withIds, raw)).widgets|
    ensures var c := Fold(EMPTY, Frames(rows, withIds, raw));
      exists j :: 0 <= j < |rows| && rows[j].role.Tool? && c.widgets[k].toolName == rows[j].toolName && c.widgets[k].rawJson == raw(rows[j].content)
        && AnchoredAt(rows, j, c.widgets[k].turn)
        && c.widgets[k].turn < |c.messages| && c.messages[c.widgets[k].turn].role.Assistant?
  {
    ClientMirrorsServer(rows, withIds, raw);
    var c := Fold(EMPTY, Frames(rows, withIds, raw));
    var j := WidgetRow(rows, raw, k);
    AnchoredIff(rows, j);
    assert AskedBefore(rows, j) && HasBubble(rows, j);
    var i :| 0 <= i < |rows| && Bubble(rows, i) && Turn(rows, i) == Turn(rows, j) && Position(rows, i) == c.widgets[k].turn;
    MessageAt(rows, withIds, i);
  }

  lemma {:induction false} WidgetRow(rows: seq<Row>, raw: string -> string, k: nat) returns (j: nat)
    requires k < |Widgets(rows, raw)|
    ensures j < |rows| && rows[j].role.Tool? && After(rows[..j]).last >= 0
    ensures Widgets(rows, raw)[k] == Widget(After(rows[..j]).last, rows[j].toolName, raw(rows[j].content))
  {
    var n := |rows| - 1;
    if k < |Widgets(rows[..n], raw)| {
      j := WidgetRow(rows[..n], raw, k);
      assert rows[..n][..j] == rows[..j];
    } else {
      j := n;
    }
  }

  /** Tools follow an assistant row of their own turn, and each such turn has a non-empty one. */
  ghost predicate ReplayReady(rows: seq<Row>) {
    forall j :: 0 <= j < |rows| && rows[j].role.Tool? ==> AskedBefore(rows, j) && HasBubble(rows, j)
  }

  // ---------------------------------------------------------------- what turns leave behind is ready

  lemma {:induction false} NoUsersOneTurn(rows: seq<Row>, i: nat)
    requires i <= |rows| && forall k :: 0 <= k < |rows| ==> !rows[k].role.User?
    ensures Turn(rows, i) == 0
  {
    if i > 0 { NoUsersOneTurn(rows, i - 1); }
  }

  lemma {:induction false} TextMeansBubble(rows: seq<Row>)
    requires TurnTranscript.Visible(rows) != ""
    ensures exists i :: 0 <= i < |rows| && Bubble(rows, i)
  {
    var n := |rows| - 1;
    if TurnTranscript.Visible(rows[..n]) != "" {
      TextMeansBubble(rows[..n]);
      var i :| 0 <= i < n && Bubble(rows[..n], i);
      assert Bubble(rows, i);
    } else {
      assert Bubble(rows, n);
    }
  }

  lemma {:induction false} BubbleMeansText(rows: seq<Row>, i: nat)
    requires i < |rows| && Bubble(rows, i)
    ensures TurnTranscript.Visible(rows) != ""
  {
    var n := |rows| - 1;
    if i < n {
      assert Bubble(rows[..n], i);
      BubbleMeansText(rows[..n], i);
    }
  }

  predicate NoTools(rows: seq<Row>) { forall k :: 0 <= k < |rows| ==> !rows[k].role.Tool? }


  lemma {:induction false} ToolIsReady(rows: seq<Row>, j: nat)
    requires WellFormed(rows) && NoUser(rows) && TurnTranscript.Visible(rows) != "" && j < |rows| && rows[j].role.Tool?
    ensures AskedBefore(rows, j) && HasBubble(rows, j)
  {
    TextMeansBubble(rows);
    NoUsersOneTurn(rows, j);
    assert AskedInBlock(rows, j);
    var i :| 0 <= i < j && InBlock(rows, i, j) && AsksFor(rows[i], rows[j].callId);
    NoUsersOneTurn(rows, i);
    var b :| 0 <= b < |rows| && Bubble(rows, b);
    NoUsersOneTurn(rows, b);
  }

  /** The rows of one turn, without its user row, are ready if and only if they show some text or hold no
      tool result. */
  lemma {:induction false} TurnReadyIff(rows: seq<Row>)
    requires WellFormed(rows) && NoUser(rows)
    ensures ReplayReady(rows) <==> TurnTranscript.Visible(rows) != "" || NoTools(rows)
  {
    if TurnTranscript.Visible(rows) != "" {
      forall j | 0 <= j < |rows| && rows[j].role.Tool? ensures AskedBefore(rows, j) && HasBubble(rows, j) { ToolIsReady(rows, j); }
    } else if j :| 0 <= j < |rows| && rows[j].role.Tool? {
      if HasBubble(rows, j) {
        var b :| 0 <= b < |rows| && Bubble(rows, b);
        BubbleMeansText(rows, b);
      }
    }
  }

  lemma {:induction false} TurnShift(a: seq<Row>, b: seq<Row>, i: nat)
    requires i <= |b|
    ensures Turn(a + b, |a| + i) == Turn(a, |a|) + Turn(b, i)
  {
    if i == 0 {
      assert (a + b)[..|a|] == a;
      PositionPrefix(a + b, |a|, |a|);
    } else {
      TurnShift(a, b, i - 1);
    }
  }

  lemma {:induction false} TurnBefore(a: seq<Row>, b: seq<Row>, i: nat)
    requires i <= |a|
    ensures Turn(a + b, i) == Turn(a, i)
  {
    assert (a + b)[..|a|] == a;
    PositionPrefix(a + b, |a|, i);
  }

  /** A ready history followed by a user row and a ready turn is ready. */
  lemma {:induction false} NextTurnIsReady(history: seq<Row>, user: Row, turn: seq<Row>)
    requires ReplayReady(history) && user.role.User? && ReplayReady(turn)
    ensures ReplayReady(history + ([user] + turn))
  {
    ReadyConcat([user], turn);
    ReadyConcat(history, [user] + turn);
  }

  lemma {:induction false} ReadyInFirst(a: seq<Row>, b: seq<Row>, j: nat)
    requires ReplayReady(a) && j < |a| && a[j].role.Tool?
    ensures AskedBefore(a + b, j) && HasBubble(a + b, j)
  {
    ReadyBefore(a, b, j);
  }

  lemma {:induction false} ReadyInSecond(a: seq<Row>, b: seq<Row>, j: nat)
    requires ReplayReady(b) && j < |b| && b[j].role.Tool?
    ensures AskedBefore(a + b, |a| + j) && HasBubble(a + b, |a| + j)
  {
    ReadyAfter(a, b, j);
  }

  lemma {:induction false} ReadyConcat(a: seq<Row>, b: seq<Row>)
    requires ReplayReady(a) && ReplayReady(b)
    ensures ReplayReady(a + b)
  {
    var all := a + b;
    forall j | 0 <= j < |all| && all[j].role.Tool? ensures AskedBefore(all, j) && HasBubble(all, j) {
      if j < |a| { ReadyInFirst(a, b, j); } else { ReadyInSecond(a, b, j - |a|); }
    }
  }

  lemma {:induction false} ReadyBefore(a: seq<Row>, b: seq<Row>, j: nat)
    requires j < |a| && AskedBefore(a, j) && HasBubble(a, j)
    ensures AskedBefore(a + b, j) && HasBubble(a + b, j)
  {
    TurnBefore(a, b, j);
    var i :| 0 <= i < j && a[i].role.Assistant? && Turn(a, i) == Turn(a, j);
    TurnBefore(a, b, i);
    assert (a + b)[i] == a[i];
    var k :| 0 <= k < |a| && Bubble(a, k) && Turn(a, k) == Turn(a, j);
    TurnBefore(a, b, k);
    assert Bubble(a + b, k);
  }

  lemma {:induction false} ReadyAfter(a: seq<Row>, b: seq<Row>, j: nat)
    requires j < |b| && AskedBefore(b, j) && HasBubble(b, j)
    ensures AskedBefore(a + b, |a| + j) && HasBubble(a + b, |a| + j)
  {
    TurnShift(a, b, j);
    var i :| 0 <= i < j && b[i].role.Assistant? && Turn(b, i) == Turn(b, j);
    TurnShift(a, b, i);
    assert (a + b)[|a| + i] == b[i];
    var k :| 0 <= k < |b| && Bubble(b, k) && Turn(b, k) == Turn(b, j);
    TurnShift(a, b, k);
    assert Bubble(a + b, |a| + k);
  }

  predicate NoUser(rows: seq<Row>) { forall k :: 0 <= k < |rows| ==> !rows[k].role.User? }

  lemma {:induction false} StoredRowsHaveNoUser(ms: seq<TurnTranscript.ProviderMessage>)
    ensures NoUser(TurnTranscript.RowsOf(ms))
  {
    if ms != [] { StoredRowsHaveNoUser(ms[..|ms| - 1]); }
  }

  lemma {:induction false} UpdatedHasNoUser(rows: seq<Row>, ms: seq<TurnTranscript.ProviderMessage>, journal: TurnTranscript.Journal)
    requires TurnProofs.JournalFits(rows, journal) && NoUser(rows)
    ensures NoUser(TurnTranscript.Updated(rows, ms, journal))
  {
    TurnProofs.UpdatedLike(rows, ms, journal);
    var after := TurnTranscript.Updated(rows, ms, journal);
    forall k | 0 <= k < |after| ensures !after[k].role.User? { assert TurnProofs.RowLike(rows[k], after[k]); }
  }

  lemma {:induction false} PersistHasNoUser(p: TurnTranscript.Script, t: TurnTranscript.Turn, n: nat, fullText: string)
    requires TurnProofs.JournalFits(t.rows, t.journal) && NoUser(t.rows) && t.persisted <= n <= |p.messages|
    ensures NoUser(TurnTranscript.Persist(t, p.messages, n, fullText).rows)
  {
    var slice := p.messages[t.persisted..n];
    UpdatedHasNoUser(t.rows, slice, t.journal);
    StoredRowsHaveNoUser(TurnTranscript.Remaining(slice, t.journal));
  }

  lemma {:induction false} TurnHasNoUser(p: TurnTranscript.Script, es: seq<TurnTranscript.Event>)
    requires TurnTranscript.IdsOnce(p.messages)
    ensures NoUser(TurnTranscript.Run(p, es).rows)
  {
    if es != [] {
      TurnHasNoUser(p, es[..|es| - 1]);
      var t, e := TurnTranscript.Run(p, es[..|es| - 1]), es[|es| - 1];
      TurnProofs.RunKeepsInv(p, es[..|es| - 1]);
      if TurnTranscript.Enabled(p, t, e) { StepHasNoUser(p, t, e); }
    }
  }

  lemma {:induction false} StepHasNoUser(p: TurnTranscript.Script, t: TurnTranscript.Turn, e: TurnTranscript.Event)
    requires TurnProofs.Inv(p, t) && NoUser(t.rows) && TurnTranscript.Enabled(p, t, e)
    ensures NoUser(TurnTranscript.Step(p, t, e).rows)
  {
    match e
    case StepComplete(n) => PersistHasNoUser(p, t, n, "");
    case Complete => PersistHasNoUser(p, t, |p.messages|, TurnTranscript.Drop(TurnTranscript.FullText(p), |t.persistedText|));
    case Fail(n, _, _) => PersistHasNoUser(p, t, n, "");
    case _ =>
  }

  lemma {:induction false} ResultRowsExist(rows: seq<Row>, id: string)
    ensures TurnProofs.ResultRows(rows, id) > 0 <==> exists j :: 0 <= j < |rows| && rows[j].role.Tool? && rows[j].callId == id
  {
    if rows != [] {
      var n := |rows| - 1;
      ResultRowsExist(rows[..n], id);
      if j :| 0 <= j < |rows| && rows[j].role.Tool? && rows[j].callId == id {
        assert j < n ==> rows[..n][j] == rows[j];
      }
      if j :| 0 <= j < n && rows[..n][j].role.Tool? && rows[..n][j].callId == id { assert rows[j] == rows[..n][j]; }
    }
  }

  /** No tool was started and none of the stored messages called one. */
  ghost predicate CalledNothing(p: TurnTranscript.Script, t: TurnTranscript.Turn)
    requires t.persisted <= |p.messages|
  {
    forall id :: !TurnProofs.Stored(p, t, id)
  }

  lemma {:induction false} NoToolsIff(p: TurnTranscript.Script, t: TurnTranscript.Turn)
    requires t.persisted <= |p.messages| && TurnProofs.CountsFit(p, t)
    ensures NoTools(t.rows) <==> CalledNothing(p, t)
  {
    if NoTools(t.rows) {
      forall id ensures !TurnProofs.Stored(p, t, id) { ResultRowsExist(t.rows, id); }
    } else {
      var j :| 0 <= j < |t.rows| && t.rows[j].role.Tool?;
      ResultRowsExist(t.rows, t.rows[j].callId);
      assert TurnProofs.Stored(p, t, t.rows[j].callId);
    }
  }

  lemma {:induction false} TurnStateReadyIff(p: TurnTranscript.Script, t: TurnTranscript.Turn)
    requires TurnProofs.Inv(p, t) && NoUser(t.rows)
    ensures ReplayReady(t.rows) <==> TurnTranscript.Visible(t.rows) != "" || CalledNothing(p, t)
  {
    TurnReadyIff(t.rows);
    NoToolsIff(p, t);
  }

  predicate Ends(e: TurnTranscript.Event) { e.Complete? || e.Fail? || e.Abandon? || e.Stop? }

  /** However a turn ends, it replays with every widget in a bubble of its own if and only if it showed some
      text or had called no tool. A turn that was stopped or that failed with a notice always does, one that
      completes does unless it called tools and its full text is empty. */
  lemma {:induction false} FinishedTurnsReadyIff(p: TurnTranscript.Script, es: seq<TurnTranscript.Event>, e: TurnTranscript.Event)
    requires TurnTranscript.IdsOnce(p.messages) && Ends(e) && TurnTranscript.Enabled(p, TurnTranscript.Run(p, es), e)
    ensures var u := TurnTranscript.Step(p, TurnTranscript.Run(p, es), e);
      && u.persisted <= |p.messages|
      && (ReplayReady(u.rows) <==> TurnTranscript.Visible(u.rows) != "" || CalledNothing(p, u))
      && (e.Stop? || e.Fail? ==> ReplayReady(u.rows))
      && (e.Complete? ==> (ReplayReady(u.rows) <==> TurnTranscript.FullText(p) != "" || NothingCalled(p.messages)))
  {
    var t := TurnTranscript.Run(p, es);
    TurnProofs.RunKeepsInv(p, es);
    TurnHasNoUser(p, es);
    TurnProofs.StepKeepsInv(p, t, e);
    StepHasNoUser(p, t, e);
    TurnStateReadyIff(p, TurnTranscript.Step(p, t, e));
    match e
    case Complete =>
      TurnTheorems.CompletedTurnShowsFullText(p, es);
      CompletedCalls(p, t);
    case Stop => TurnTheorems.StoppedTurnShowsStream(p, es);
    case Fail(n, partial, acted) => TurnTheorems.FailedTurnShowsPartialText(p, es, n, partial, acted);
    case _ =>
  }

  ghost predicate NothingCalled(ms: seq<TurnTranscript.ProviderMessage>) { forall id :: !TurnTranscript.AskedIn(ms, id) }

  lemma {:induction false} CompletedCalls(p: TurnTranscript.Script, t: TurnTranscript.Turn)
    requires TurnTranscript.IdsOnce(p.messages) && TurnProofs.Inv(p, t) && TurnTranscript.Enabled(p, t, TurnTranscript.Complete)
    ensures var u := TurnTranscript.Step(p, t, TurnTranscript.Complete);
      u.persisted == |p.messages| && (CalledNothing(p, u) <==> NothingCalled(p.messages))
  {
    var u := TurnTranscript.Step(p, t, TurnTranscript.Complete);
    assert p.messages[..|p.messages|] == p.messages;
    TurnProofs.StepKeepsInv(p, t, TurnTranscript.Complete);
    forall id ensures TurnProofs.Stored(p, u, id) <==> TurnTranscript.AskedIn(p.messages, id) { }
  }

  lemma {:induction false} SilentMessages(call: Call, output: TurnTranscript.Output, ms: seq<TurnTranscript.ProviderMessage>)
    requires call.id != "" && output.id == call.id && ms == [TurnTranscript.Mixed([], [call]), TurnTranscript.Results([output])]
    ensures TurnTranscript.IdsOnce(ms) && TurnTranscript.Blocks(ms) && TurnTranscript.AllText(ms) == "" && !NothingCalled(ms)
  {
    var first := TurnTranscript.Mixed([], [call]);
    assert ms[..1] == [first] && ms[..0] == [] && [first][..0] == [];
    assert TurnTranscript.AllText([]) == "";
    assert TurnTranscript.AllText([first]) == TurnTranscript.AllText([]) + TurnTranscript.TextOf(first);
    assert call in [call] && output in [output];
    assert TurnTranscript.SameIds([call], [output]);
    assert TurnTranscript.AskedIn(ms, call.id) by { assert TurnTranscript.Asked(ms[0], call.id); }
  }

  /** The turn that is not ready: one tool call, its result, and no text at all. */
  lemma {:induction false} SilentToolTurnIsNotReady(call: Call, output: string)
    requires call.id != ""
    ensures var p := TurnTranscript.Script([TurnTranscript.Mixed([], [call]), TurnTranscript.Results([TurnTranscript.Output(call.id, call.name, output)])], "");
      && TurnTranscript.IdsOnce(p.messages) && TurnTranscript.FullText(p) == ""
      && TurnTranscript.Enabled(p, TurnTranscript.Run(p, []), TurnTranscript.Complete)
      && !ReplayReady(TurnTranscript.Step(p, TurnTranscript.Run(p, []), TurnTranscript.Complete).rows)
  {
    var first := TurnTranscript.Mixed([], [call]);
    var second := TurnTranscript.Results([TurnTranscript.Output(call.id, call.name, output)]);
    var p := TurnTranscript.Script([first, second], "");
    SilentMessages(call, second.outputs[0], p.messages);
    assert p.messages[0..] == p.messages;
    FinishedTurnsReadyIff(p, [], TurnTranscript.Complete);
  }
}
