/**
  The message table and the window of it that becomes a prompt. The parsed form of the
  tool_calls column is part of a row; a tool's output is kept as its stored text.
*/
module History {
  import opened Prelude

  datatype Role = User | Assistant | Tool

  /** A decoded element of tool_calls. `isCall` says its type is tool-call or tool_use; a missing id is "". */
  datatype Part = Part(isCall: bool, id: string, name: string, input: string)

  /** The tool_calls column: absent, not a JSON array, or its elements. */
  datatype Calls = NoCalls | NotAnArray | Parts(parts: seq<Part>)

  datatype Row = Row(id: string, conversation: string, role: Role, content: string,
                     calls: Calls, callId: string, toolName: string)

  datatype Call = Call(id: string, name: string, input: string)
  datatype Message =
    | Plain(role: Role, content: string)
    | Calling(text: string, calls: seq<Call>)
    | Result(callId: string, toolName: string, output: string)

  // ---------------------------------------------------------------- rows to messages

  function CallsIn(parts: seq<Part>): seq<Call> {
    if parts == [] then []
    else (if parts[0].isCall then [Call(parts[0].id, parts[0].name, parts[0].input)] else []) + CallsIn(parts[1..])
  }

  function ToMessage(row: Row): Message {
    match row.role
    case Tool => Result(row.callId, row.toolName, row.content)
    case User => Plain(User, row.content)
    case Assistant =>
      var calls := if row.calls.Parts? then CallsIn(row.calls.parts) else [];
      if !row.calls.NoCalls? && (row.content != "" || calls != []) then Calling(row.content, calls)
      else Plain(Assistant, row.content)
  }

  function ToMessages(rows: seq<Row>): (ms: seq<Message>)
    ensures |ms| == |rows| && forall i :: 0 <= i < |rows| ==> ms[i] == ToMessage(rows[i])
  {
    seq(|rows|, i requires 0 <= i < |rows| => ToMessage(rows[i]))
  }

  // ---------------------------------------------------------------- the window and its repair

  function LastRows(rows: seq<Row>, limit: nat): seq<Row> {
    if |rows| <= limit then rows else rows[|rows| - limit..]
  }

  function OfConversation(table: seq<Row>, conversation: string): seq<Row> {
    if table == [] then []
    else OfConversation(table[..|table| - 1], conversation)
         + if table[|table| - 1].conversation == conversation then [table[|table| - 1]] else []
  }

  function SkipTools(rows: seq<Row>, start: nat): (r: nat)
    requires start <= |rows|
    ensures start <= r <= |rows|
    ensures forall i :: start <= i < r ==> rows[i].role.Tool?
    ensures r < |rows| ==> !rows[r].role.Tool?
    decreases |rows| - start
  {
    if start < |rows| && rows[start].role.Tool? then SkipTools(rows, start + 1) else start
  }

  /** The ids the head row asks for: every non-empty id of its elements. */
  function HeadIds(row: Row): set<string> {
    if row.role.Assistant? && row.calls.Parts? then set p | p in row.calls.parts && p.id != "" :: p.id else {}
  }

  predicate AnsweredAfter(rows: seq<Row>, start: nat, id: string)
    requires start < |rows|
  {
    exists j :: start < j < |rows| && rows[j].role.Tool? && rows[j].callId == id && id != ""
  }

  predicate HeadIsSplit(rows: seq<Row>, start: nat)
    requires start < |rows|
  {
    exists id :: id in HeadIds(rows[start]) && !AnsweredAfter(rows, start, id)
  }

  /** Where the prompt may begin. */
  function Opening(rows: seq<Row>): (start: nat)
    ensures start <= |rows|
  {
    var start := SkipTools(rows, 0);
    if start < |rows| && HeadIsSplit(rows, start) then SkipTools(rows, start + 1) else start
  }

  function LastUser(rows: seq<Row>): (r: Option<nat>)
    ensures r.Some? ==> r.value < |rows| && rows[r.value].role.User?
    ensures r.None? ==> forall i :: 0 <= i < |rows| ==> !rows[i].role.User?
  {
    if rows == [] then None
    else if rows[|rows| - 1].role.User? then Some(|rows| - 1)
    else LastUser(rows[..|rows| - 1])
  }

  function Repaired(rows: seq<Row>): seq<Row> {
    var start := Opening(rows);
    if start < |rows| then rows[start..]
    else if LastUser(rows).Some? then rows[LastUser(rows).value..]
    else []
  }

  function Prompt(table: seq<Row>, conversation: string, limit: nat): seq<Message> {
    ToMessages(Repaired(LastRows(OfConversation(table, conversation), limit)))
  }

  // ---------------------------------------------------------------- the store

  predicate HasId(table: seq<Row>, id: string) {
    exists i :: 0 <= i < |table| && table[i].id == id
  }

  datatype Appended = Inserted | Existing | WrongConversation

  /** appendMessage with a given id: an existing row is left as it is. */
  function AppendReply(table: seq<Row>, row: Row): Appended {
    if !HasId(table, row.id) then Inserted
    else if exists i :: 0 <= i < |table| && table[i].id == row.id && table[i].conversation == row.conversation then Existing
    else WrongConversation
  }

  class HistoryStore {
    var table: seq<Row>

    constructor ()
      ensures table == []
    {
      table := [];
    }

    method AppendMessage(row: Row) returns (reply: Appended)
      requires forall i, j :: 0 <= i < j < |table| ==> table[i].id != table[j].id
      modifies this
      ensures reply == AppendReply(old(table), row)
      ensures table == if reply.Inserted? then old(table) + [row] else old(table)
    {
      for i := 0 to |table|
        invariant forall j :: 0 <= j < i ==> table[j].id != row.id
      {
        if table[i].id == row.id {
          return if table[i].conversation == row.conversation then Existing else WrongConversation;
        }
      }
      table := table + [row];
      return Inserted;
    }

    /** The newest rows, collected from the end and reversed. */
    method LoadRecentRows(conversation: string, limit: nat) returns (rows: seq<Row>)
      ensures rows == LastRows(OfConversation(table, conversation), limit)
    {
      rows := [];
      var i := |table|;
      ghost var all := OfConversation(table, conversation);
      assert table[..i] == table;
      while i > 0 && |rows| < limit
        invariant i <= |table| && |rows| <= limit
        invariant all == OfConversation(table[..i], conversation) + rows
      {
        i := i - 1;
        assert table[..i + 1][..i] == table[..i];
        if table[i].conversation == conversation { rows := [table[i]] + rows; }
      }
      if i == 0 { assert table[..i] == []; }
    }

    method LoadRecentMessages(conversation: string, limit: nat) returns (prompt: seq<Message>)
      ensures prompt == Prompt(table, conversation, limit)
    {
      var rows := LoadRecentRows(conversation, limit);
      var start := 0;
      while start < |rows| && rows[start].role.Tool?
        invariant start <= |rows| && SkipTools(rows, start) == SkipTools(rows, 0)
      {
        start := start + 1;
      }
      assert start == SkipTools(rows, 0);
      if start < |rows| && HeadIsSplit(rows, start) {
        ghost var after := SkipTools(rows, start + 1);
        start := start + 1;
        while start < |rows| && rows[start].role.Tool?
          invariant start <= |rows| && SkipTools(rows, start) == after
        {
          start := start + 1;
        }
      }
      assert start == Opening(rows);
      if start >= |rows| && |rows| > 0 {
        var last := LastUser(rows);
        if last.None? { return []; }
        start := last.value;
      }
      prompt := ToMessages(rows[start..]);
    }
  }

  // ---------------------------------------------------------------- the live request is never lost

  /** For any history whatever: no user row of the window is dropped, nor anything after the first one. */
  lemma {:induction false} UserRowsAreKept(rows: seq<Row>, u: nat)
    requires u < |rows| && rows[u].role.User?
    ensures Repaired(rows) != [] && rows[u..] == Repaired(rows)[|Repaired(rows)| - (|rows| - u)..]
  {
    assert Opening(rows) <= u;
    assert rows[u..] == rows[Opening(rows)..][u - Opening(rows)..];
  }

  /** The prompt is empty only when the window holds no user row and nothing but a split turn. */
  lemma {:induction false} EmptyOnlyWithoutUser(rows: seq<Row>)
    ensures Repaired(rows) == [] <==> Opening(rows) == |rows|
    ensures Repaired(rows) == [] ==> forall i :: 0 <= i < |rows| ==> !rows[i].role.User?
  {
    forall u | 0 <= u < |rows| && rows[u].role.User? ensures Repaired(rows) != [] { UserRowsAreKept(rows, u); }
  }

  // ---------------------------------------------------------------- well-formed histories give well-formed prompts

  /** The row asks for tools in the ordinary way: every element is a call with an id. */
  predicate Asks(row: Row) {
    row.role.Assistant? && row.calls.Parts? && row.calls.parts != [] && forall p :: p in row.calls.parts ==> p.isCall && p.id != ""
  }

  predicate AsksNothing(row: Row) { row.calls.NoCalls? || row.calls == Parts([]) }

  /** Row `j` is one of the tool rows directly after row `i`. */
  predicate InBlock(rows: seq<Row>, i: int, j: int) {
    0 <= i < j < |rows| && forall k :: i < k <= j ==> rows[k].role.Tool?
  }

  predicate AsksFor(row: Row, id: string) {
    row.role.Assistant? && row.calls.Parts? && exists p :: p in row.calls.parts && p.id == id
  }

  predicate AnsweredInBlock(rows: seq<Row>, i: int, id: string) {
    exists j :: 0 <= j < |rows| && InBlock(rows, i, j) && rows[j].callId == id
  }

  predicate AskedInBlock(rows: seq<Row>, j: int)
    requires 0 <= j < |rows|
  {
    exists i :: 0 <= i < j && InBlock(rows, i, j) && AsksFor(rows[i], rows[j].callId)
  }

  /** Every call is answered, and every result was asked for, within one block of an asking row and its tool rows. */
  ghost predicate WellFormed(rows: seq<Row>) {
    && (forall i :: 0 <= i < |rows| && rows[i].role.Assistant? ==> AsksNothing(rows[i]) || Asks(rows[i]))
    && (forall i, id {:trigger AnsweredInBlock(rows, i, id)} :: 0 <= i < |rows| && AsksFor(rows[i], id) ==> AnsweredInBlock(rows, i, id))
    && (forall j {:trigger AskedInBlock(rows, j)} :: 0 <= j < |rows| && rows[j].role.Tool? ==> AskedInBlock(rows, j))
  }

  predicate CallsFor(m: Message, id: string) { m.Calling? && exists c :: c in m.calls && c.id == id }

  /** What a provider accepts: each result after a message that calls for it, each call answered later. */
  ghost predicate Acceptable(ms: seq<Message>) {
    && (forall j :: 0 <= j < |ms| && ms[j].Result? ==> exists i :: 0 <= i < j && CallsFor(ms[i], ms[j].callId))
    && (forall i, id :: 0 <= i < |ms| && CallsFor(ms[i], id) ==> exists j :: i < j < |ms| && ms[j].Result? && ms[j].callId == id)
  }

  lemma {:induction false} CallsInParts(parts: seq<Part>, id: string)
    ensures (exists c :: c in CallsIn(parts) && c.id == id) <==> exists p :: p in parts && p.isCall && p.id == id
  {
    if parts != [] {
      CallsInParts(parts[1..], id);
      var rest := CallsIn(parts[1..]);
      assert parts == [parts[0]] + parts[1..];
      if c :| c in CallsIn(parts) && c.id == id {
        assert c in rest || (parts[0].isCall && c.id == parts[0].id);
      }
      if p :| p in parts && p.isCall && p.id == id {
        if p in parts[1..] {
          var c :| c in rest && c.id == id;
          assert c in CallsIn(parts);
        } else {
          assert CallsIn(parts)[0] in CallsIn(parts);
        }
      }
    }
  }

  lemma {:induction false} MessageCalls(row: Row, id: string)
    requires row.role.Assistant? ==> AsksNothing(row) || Asks(row)
    ensures CallsFor(ToMessage(row), id) <==> AsksFor(row, id)
  {
    if row.role.Assistant? && row.calls.Parts? { CallsInParts(row.calls.parts, id); }
  }

  lemma {:induction false} SuffixAnswered(rows: seq<Row>, start: nat, i: nat, id: string)
    requires start <= |rows| && start + i < |rows| && AnsweredInBlock(rows, start + i, id)
    ensures AnsweredInBlock(rows[start..], i, id)
  {
    var s := rows[start..];
    var j :| 0 <= j < |rows| && InBlock(rows, start + i, j) && rows[j].callId == id;
    assert InBlock(s, i, j - start) && s[j - start].callId == id;
  }

  lemma {:induction false} SuffixAsked(rows: seq<Row>, start: nat, j: nat)
    requires start + j < |rows| && AskedInBlock(rows, start + j) && !rows[start].role.Tool?
    ensures AskedInBlock(rows[start..], j)
  {
    var s := rows[start..];
    var i :| 0 <= i < start + j && InBlock(rows, i, start + j) && AsksFor(rows[i], rows[start + j].callId);
    assert i >= start;
    assert InBlock(s, i - start, j) && AsksFor(s[i - start], s[j].callId);
  }

  /** A suffix that begins at a block is well-formed again. */
  lemma {:induction false} SuffixWellFormed(rows: seq<Row>, start: nat)
    requires WellFormed(rows) && start <= |rows| && (start < |rows| ==> !rows[start].role.Tool?)
    ensures WellFormed(rows[start..])
  {
    var s := rows[start..];
    forall i, id | 0 <= i < |s| && AsksFor(s[i], id) ensures AnsweredInBlock(s, i, id) {
      assert AsksFor(rows[start + i], id);
      SuffixAnswered(rows, start, i, id);
    }
    forall j | 0 <= j < |s| && s[j].role.Tool? ensures AskedInBlock(s, j) {
      assert AskedInBlock(rows, start + j);
      SuffixAsked(rows, start, j);
    }
  }

  lemma {:induction false} WellFormedIsAcceptable(rows: seq<Row>)
    requires WellFormed(rows)
    ensures Acceptable(ToMessages(rows))
  {
    var ms := ToMessages(rows);
    forall j | 0 <= j < |ms| && ms[j].Result? ensures exists i :: 0 <= i < j && CallsFor(ms[i], ms[j].callId) {
      assert AskedInBlock(rows, j);
      var i :| 0 <= i < j && InBlock(rows, i, j) && AsksFor(rows[i], rows[j].callId);
      MessageCalls(rows[i], rows[j].callId);
      assert CallsFor(ms[i], ms[j].callId);
    }
    forall i, id | 0 <= i < |ms| && CallsFor(ms[i], id) ensures exists j :: i < j < |ms| && ms[j].Result? && ms[j].callId == id {
      MessageCalls(rows[i], id);
      assert AnsweredInBlock(rows, i, id);
      var j :| 0 <= j < |rows| && InBlock(rows, i, j) && rows[j].callId == id;
      assert ms[j].Result?;
    }
  }

  /** A well-formed list never looks split at its head. */
  lemma {:induction false} HeadIsWhole(rows: seq<Row>)
    requires WellFormed(rows) && rows != []
    ensures !HeadIsSplit(rows, 0)
  {
    forall id | id in HeadIds(rows[0]) ensures AnsweredAfter(rows, 0, id) {
      assert AsksFor(rows[0], id);
      assert AnsweredInBlock(rows, 0, id);
      var j :| 0 <= j < |rows| && InBlock(rows, 0, j) && rows[j].callId == id;
      assert rows[j].role.Tool?;
    }
  }

  lemma {:induction false} HeadOfSuffix(rows: seq<Row>, start: nat)
    requires start < |rows| && !HeadIsSplit(rows[start..], 0)
    ensures !HeadIsSplit(rows, start)
  {
    var s := rows[start..];
    forall id | id in HeadIds(rows[start]) ensures AnsweredAfter(rows, start, id) {
      assert AnsweredAfter(s, 0, id);
      var j :| 0 < j < |s| && s[j].role.Tool? && s[j].callId == id && id != "";
      assert rows[start + j] == s[j];
    }
  }

  lemma {:induction false} OpeningIs(w: seq<Row>)
    requires SkipTools(w, 0) < |w| ==> !HeadIsSplit(w, SkipTools(w, 0))
    ensures Repaired(w) == w[SkipTools(w, 0)..]
  {
    var start := SkipTools(w, 0);
    assert Opening(w) == start;
    if start == |w| {
      assert LastUser(w).None?;
      assert w[start..] == [];
    }
  }

  lemma {:induction false} TailStart(rows: seq<Row>, cut: nat)
    requires cut <= |rows|
    ensures var start := cut + SkipTools(rows[cut..], 0);
      && start <= |rows| && (start < |rows| ==> !rows[start].role.Tool?)
      && rows[cut..][SkipTools(rows[cut..], 0)..] == rows[start..]
  {
  }

  /** If what follows the leading tool rows is well-formed, the repair keeps exactly that. */
  lemma {:induction false} RepairOfWhole(w: seq<Row>)
    requires WellFormed(w[SkipTools(w, 0)..])
    ensures Repaired(w) == w[SkipTools(w, 0)..]
  {
    var start := SkipTools(w, 0);
    if start < |w| {
      HeadIsWhole(w[start..]);
      HeadOfSuffix(w, start);
    }
    OpeningIs(w);
  }

  lemma {:induction false} WindowSuffix(rows: seq<Row>, cut: nat)
    requires WellFormed(rows) && cut <= |rows|
    ensures WellFormed(rows[cut..][SkipTools(rows[cut..], 0)..])
  {
    TailStart(rows, cut);
    SuffixWellFormed(rows, cut + SkipTools(rows[cut..], 0));
  }

  /** Anywhere a window of a well-formed history is cut, the repair loses only the tool rows of the cut block. */
  lemma {:induction false} WindowRepair(rows: seq<Row>, limit: nat)
    requires WellFormed(rows)
    ensures var w := LastRows(rows, limit);
      Repaired(w) == w[SkipTools(w, 0)..] && WellFormed(Repaired(w))
  {
    var cut := if |rows| <= limit then 0 else |rows| - limit;
    assert LastRows(rows, limit) == rows[cut..];
    WindowSuffix(rows, cut);
    RepairOfWhole(rows[cut..]);
  }

  /** Main theorem: for every well-formed history and every window limit the provider gets a list in which
      each tool result follows its call and each call is answered. */
  lemma {:induction false} PromptIsAcceptable(table: seq<Row>, conversation: string, limit: nat)
    requires WellFormed(OfConversation(table, conversation))
    ensures Acceptable(Prompt(table, conversation, limit))
  {
    var rows := OfConversation(table, conversation);
    WindowRepair(rows, limit);
    WellFormedIsAcceptable(Repaired(LastRows(rows, limit)));
  }
}
