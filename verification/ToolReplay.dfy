/**
  The record of signed tool calls: captured from streamed deltas, persisted on tool-call parts,
  reloaded, and restored into later requests. A replay record stays shared between the response
  that fills it and the table of calls; `Live` entries are such references.
*/
module ToolReplay {
  import opened Prelude

  /** JSON as far as it is looked into: objects by field, everything else as text. */
  datatype J = Record(fields: map<string, J>) | Opaque(text: string)

  datatype Replay = Replay(index: int, arguments: string, reasoning: seq<J>, extra: Option<J>)

  // ---------------------------------------------------------------- capture

  datatype ToolDelta = ToolDelta(index: Option<int>, id: Option<string>, arguments: Option<string>, extra: Option<J>)
  datatype Choice = Choice(index: int, reasoning: seq<J>, tools: seq<ToolDelta>)

  /** What a response has delivered for one call index; its reasoning is shared by the whole choice. */
  datatype Slot = Slot(id: Option<string>, arguments: string, extra: Option<J>)
  datatype ChoiceState = ChoiceState(reasoning: seq<J>, slots: map<int, Slot>)
  type Response = map<int, ChoiceState>

  datatype Ref = Saved(replay: Replay) | Live(response: nat, choice: int, index: int)

  datatype Table = Table(calls: map<string, Ref>, responses: seq<Response>)

  const EMPTY_CHOICE := ChoiceState([], map[])
  const EMPTY_SLOT := Slot(None, "", None)

  function IndexOf(t: ToolDelta, position: nat): int { t.index.GetOr(position) }

  function SlotAt(c: ChoiceState, index: int): Slot { if index in c.slots then c.slots[index] else EMPTY_SLOT }
  function StateAt(r: Response, choice: int): ChoiceState { if choice in r then r[choice] else EMPTY_CHOICE }

  function Grown(slot: Slot, t: ToolDelta): Slot {
    Slot(if t.id.Some? then t.id else slot.id, slot.arguments + t.arguments.GetOr(""), if t.extra.Some? then t.extra else slot.extra)
  }

  /** One tool delta of the current response, at its position in the delta. */
  function CaptureTool(table: Table, choice: int, t: ToolDelta, position: nat): Table
    requires table.responses != []
  {
    var r := |table.responses| - 1;
    var state := StateAt(table.responses[r], choice);
    var index := IndexOf(t, position);
    var slot := Grown(SlotAt(state, index), t);
    Table(if slot.id.Some? then table.calls[slot.id.value := Live(r, choice, index)] else table.calls,
          table.responses[r := table.responses[r][choice := state.(slots := state.slots[index := slot])]])
  }

  function CaptureTools(table: Table, choice: int, ts: seq<ToolDelta>): (t: Table)
    requires table.responses != []
    ensures |t.responses| == |table.responses|
  {
    if ts == [] then table
    else CaptureTool(CaptureTools(table, choice, ts[..|ts| - 1]), choice, ts[|ts| - 1], |ts| - 1)
  }

  function CaptureChoice(table: Table, c: Choice): (t: Table)
    requires table.responses != []
    ensures |t.responses| == |table.responses|
  {
    var r := |table.responses| - 1;
    var state := StateAt(table.responses[r], c.index);
    var begun := table.(responses := table.responses[r := table.responses[r][c.index := state.(reasoning := state.reasoning + c.reasoning)]]);
    CaptureTools(begun, c.index, c.tools)
  }

  function CaptureAll(table: Table, cs: seq<Choice>): (t: Table)
    requires table.responses != []
    ensures |t.responses| == |table.responses|
  {
    if cs == [] then table else CaptureChoice(CaptureAll(table, cs[..|cs| - 1]), cs[|cs| - 1])
  }

  function Begin(table: Table): Table { table.(responses := table.responses + [map[]]) }

  /** Following the reference: what the shared record holds now. */
  function Resolve(table: Table, id: string): Option<Replay> {
    if id !in table.calls then None
    else match table.calls[id]
      case Saved(replay) => Some(replay)
      case Live(r, choice, index) =>
        if r >= |table.responses| then None
        else
          var state := StateAt(table.responses[r], choice);
          var slot := SlotAt(state, index);
          Some(Replay(index, slot.arguments, state.reasoning, slot.extra))
  }

  /** The capture side, its maps changed delta by delta. */
  class Recorder {
    var calls: map<string, Ref>
    var responses: seq<Response>

    function View(): Table
      reads this
    {
      Table(calls, responses)
    }

    constructor (messages: seq<Message>)
      ensures View() == Reload(messages)
    {
      var loaded := map[];
      for i := 0 to |messages|
        invariant loaded == LoadAll(messages[..i])
      {
        assert messages[..i + 1][..i] == messages[..i];
        if messages[i].Assistant? {
          ghost var before := loaded;
          var parts := messages[i].parts;
          for k := 0 to |parts|
            invariant loaded == LoadParts(before, parts[..k])
          {
            assert parts[..k + 1][..k] == parts[..k];
            if parts[k].CallPart? && parts[k].saved.Some? { loaded := loaded[parts[k].id := Saved(parts[k].saved.value)]; }
          }
          assert parts[..|parts|] == parts;
        }
      }
      assert messages[..|messages|] == messages;
      calls, responses := loaded, [];
    }

    method BeginResponse()
      modifies this
      ensures View() == Begin(old(View()))
    {
      responses := responses + [map[]];
    }

    method OnChoice(c: Choice)
      requires responses != []
      modifies this
      ensures View() == CaptureChoice(old(View()), c)
    {
      var r := |responses| - 1;
      var state := StateAt(responses[r], c.index);
      responses := responses[r := responses[r][c.index := state.(reasoning := state.reasoning + c.reasoning)]];
      ghost var begun := View();
      for position := 0 to |c.tools|
        invariant responses != [] && View() == CaptureTools(begun, c.index, c.tools[..position])
      {
        assert c.tools[..position + 1][..position] == c.tools[..position];
        OnTool(c.index, c.tools[position], position);
      }
      assert c.tools[..|c.tools|] == c.tools;
    }

    method OnTool(choice: int, t: ToolDelta, position: nat)
      requires responses != []
      modifies this
      ensures View() == CaptureTool(old(View()), choice, t, position)
    {
      var r := |responses| - 1;
      var index := if t.index.Some? then t.index.value else position;
      var state := StateAt(responses[r], choice);
      var slot := SlotAt(state, index);
      if t.id.Some? { slot := slot.(id := t.id); }
      if t.arguments.Some? { slot := slot.(arguments := slot.arguments + t.arguments.value); }
      if t.extra.Some? { slot := slot.(extra := t.extra); }
      assert slot.arguments == SlotAt(state, index).arguments + t.arguments.GetOr("");
      assert slot == Grown(SlotAt(state, index), t);
      responses := responses[r := responses[r][choice := state.(slots := state.slots[index := slot])]];
      if slot.id.Some? { calls := calls[slot.id.value := Live(r, choice, index)]; }
    }
  }

  // ---------------------------------------------------------------- what a response delivered, independently

  function FragmentsOf(ts: seq<ToolDelta>, index: int): string {
    if ts == [] then ""
    else FragmentsOf(ts[..|ts| - 1], index) + if IndexOf(ts[|ts| - 1], |ts| - 1) == index then ts[|ts| - 1].arguments.GetOr("") else ""
  }

  /** All argument fragments for a call index of a choice, in order of arrival. */
  function Fragments(cs: seq<Choice>, choice: int, index: int): string {
    if cs == [] then ""
    else Fragments(cs[..|cs| - 1], choice, index) + if cs[|cs| - 1].index == choice then FragmentsOf(cs[|cs| - 1].tools, index) else ""
  }

  function Reasoning(cs: seq<Choice>, choice: int): seq<J> {
    if cs == [] then [] else Reasoning(cs[..|cs| - 1], choice) + if cs[|cs| - 1].index == choice then cs[|cs| - 1].reasoning else []
  }

  function LastExtraOf(ts: seq<ToolDelta>, index: int): Option<J> {
    if ts == [] then None
    else if IndexOf(ts[|ts| - 1], |ts| - 1) == index && ts[|ts| - 1].extra.Some? then ts[|ts| - 1].extra
    else LastExtraOf(ts[..|ts| - 1], index)
  }

  /** The extra content delivered last for a call index of a choice: where its thought signature is. */
  function LastExtra(cs: seq<Choice>, choice: int, index: int): Option<J> {
    if cs == [] then None
    else
      var last := cs[|cs| - 1];
      if last.index == choice && LastExtraOf(last.tools, index).Some? then LastExtraOf(last.tools, index)
      else LastExtra(cs[..|cs| - 1], choice, index)
  }

  function Newer(now: Option<J>, before: Option<J>): Option<J> { if now.Some? then now else before }

  function SlotIn(table: Table, r: nat, choice: int, index: int): Slot
    requires r < |table.responses|
  {
    SlotAt(StateAt(table.responses[r], choice), index)
  }

  lemma {:induction false} ToolAccumulates(table: Table, choice: int, tool: ToolDelta, position: nat, c: int, index: int)
    requires table.responses != []
    ensures var t, r := CaptureTool(table, choice, tool, position), |table.responses| - 1;
      && SlotIn(t, r, c, index).arguments == SlotIn(table, r, c, index).arguments
           + (if c == choice && IndexOf(tool, position) == index then tool.arguments.GetOr("") else "")
      && SlotIn(t, r, c, index).extra
           == Newer(if c == choice && IndexOf(tool, position) == index then tool.extra else None, SlotIn(table, r, c, index).extra)
      && StateAt(t.responses[r], c).reasoning == StateAt(table.responses[r], c).reasoning
      && t.responses[..r] == table.responses[..r]
  {
  }

  lemma {:induction false} ToolsAccumulate(table: Table, choice: int, ts: seq<ToolDelta>, c: int, index: int)
    requires table.responses != []
    ensures var t, r := CaptureTools(table, choice, ts), |table.responses| - 1;
      && SlotIn(t, r, c, index).arguments == SlotIn(table, r, c, index).arguments + (if c == choice then FragmentsOf(ts, index) else "")
      && SlotIn(t, r, c, index).extra == Newer(if c == choice then LastExtraOf(ts, index) else None, SlotIn(table, r, c, index).extra)
      && StateAt(t.responses[r], c).reasoning == StateAt(table.responses[r], c).reasoning
      && t.responses[..r] == table.responses[..r]
  {
    if ts != [] {
      var init := ts[..|ts| - 1];
      ToolsAccumulate(table, choice, init, c, index);
      ToolAccumulates(CaptureTools(table, choice, init), choice, ts[|ts| - 1], |init|, c, index);
    }
  }

  lemma {:induction false} ChoiceAccumulates(table: Table, c: Choice, choice: int, index: int)
    requires table.responses != []
    ensures var t, r := CaptureChoice(table, c), |table.responses| - 1;
      && SlotIn(t, r, choice, index).arguments == SlotIn(table, r, choice, index).arguments + (if c.index == choice then FragmentsOf(c.tools, index) else "")
      && SlotIn(t, r, choice, index).extra
           == Newer(if c.index == choice then LastExtraOf(c.tools, index) else None, SlotIn(table, r, choice, index).extra)
      && StateAt(t.responses[r], choice).reasoning == StateAt(table.responses[r], choice).reasoning + (if c.index == choice then c.reasoning else [])
      && t.responses[..r] == table.responses[..r]
  {
    var r := |table.responses| - 1;
    var state := StateAt(table.responses[r], c.index);
    var begun := table.(responses := table.responses[r := table.responses[r][c.index := state.(reasoning := state.reasoning + c.reasoning)]]);
    ToolsAccumulate(begun, c.index, c.tools, choice, index);
  }

  /** For every delivery of a response: the in-order concatenation of its fragments, call by call, and the extra content
      that came last. */
  lemma {:induction false} CaptureConcatenates(table: Table, cs: seq<Choice>, choice: int, index: int)
    ensures var t, r := CaptureAll(Begin(table), cs), |table.responses|;
      && |t.responses| == r + 1
      && SlotIn(t, r, choice, index).arguments == Fragments(cs, choice, index)
      && SlotIn(t, r, choice, index).extra == LastExtra(cs, choice, index)
      && StateAt(t.responses[r], choice).reasoning == Reasoning(cs, choice)
      && t.responses[..r] == table.responses
  {
    if cs == [] {
      assert Begin(table).responses[..|table.responses|] == table.responses;
    } else {
      CaptureConcatenates(table, cs[..|cs| - 1], choice, index);
      ChoiceAccumulates(CaptureAll(Begin(table), cs[..|cs| - 1]), cs[|cs| - 1], choice, index);
    }
  }

  predicate Names(c: Choice, k: int, id: string) { 0 <= k < |c.tools| && c.tools[k].id == Some(id) }

  /** Within the deltas, only this call of this choice ever carries the id. */
  predicate OnlyThere(cs: seq<Choice>, id: string, choice: int, index: int) {
    forall i, k :: 0 <= i < |cs| && 0 <= k < |cs[i].tools| && Names(cs[i], k, id) ==>
      cs[i].index == choice && IndexOf(cs[i].tools[k], k) == index
  }

  predicate Named(cs: seq<Choice>, id: string) {
    exists i, k :: 0 <= i < |cs| && 0 <= k < |cs[i].tools| && Names(cs[i], k, id)
  }

  /** No other call of the current response holds the id, and whoever was last bound to it was this one. */
  ghost predicate Bound(t: Table, id: string, choice: int, index: int, named: bool)
    requires t.responses != []
  {
    var r := |t.responses| - 1;
    && (forall c, i :: SlotIn(t, r, c, i).id == Some(id) ==> c == choice && i == index)
    && (named ==> id in t.calls && t.calls[id] == Live(r, choice, index))
  }

  lemma {:induction false} ToolBinds(t: Table, choice: int, tool: ToolDelta, position: nat, id: string, c: int, i: int, named: bool)
    requires t.responses != [] && Bound(t, id, c, i, named)
    requires tool.id == Some(id) ==> choice == c && IndexOf(tool, position) == i
    ensures Bound(CaptureTool(t, choice, tool, position), id, c, i, named || tool.id == Some(id))
  {
    var r := |t.responses| - 1;
    var u := CaptureTool(t, choice, tool, position);
    var index := IndexOf(tool, position);
    forall x, y | SlotIn(u, r, x, y).id == Some(id) ensures x == c && y == i {
      if x == choice && y == index {
        assert tool.id == Some(id) || SlotIn(t, r, x, y).id == Some(id);
      } else {
        assert SlotIn(u, r, x, y) == SlotIn(t, r, x, y);
      }
    }
    assert SlotIn(t, r, choice, index) == SlotAt(StateAt(t.responses[r], choice), index);
  }

  predicate ToolsOnlyThere(ts: seq<ToolDelta>, choice: int, id: string, c: int, i: int) {
    forall k :: 0 <= k < |ts| && ts[k].id == Some(id) ==> choice == c && IndexOf(ts[k], k) == i
  }

  predicate ToolsName(ts: seq<ToolDelta>, id: string) { exists k :: 0 <= k < |ts| && ts[k].id == Some(id) }

  lemma {:induction false} ToolsBind(t: Table, choice: int, ts: seq<ToolDelta>, id: string, c: int, i: int, named: bool)
    requires t.responses != [] && Bound(t, id, c, i, named) && ToolsOnlyThere(ts, choice, id, c, i)
    ensures Bound(CaptureTools(t, choice, ts), id, c, i, named || ToolsName(ts, id))
  {
    if ts != [] {
      var init, last := ts[..|ts| - 1], ts[|ts| - 1];
      ToolsBind(t, choice, init, id, c, i, named);
      ToolBinds(CaptureTools(t, choice, init), choice, last, |init|, id, c, i, named || ToolsName(init, id));
      if ToolsName(ts, id) {
        var k :| 0 <= k < |ts| && ts[k].id == Some(id);
        assert k < |init| ==> init[k].id == Some(id);
      }
    }
  }

  lemma {:induction false} ChoiceBinds(t: Table, ch: Choice, id: string, c: int, i: int, named: bool)
    requires t.responses != [] && Bound(t, id, c, i, named) && ToolsOnlyThere(ch.tools, ch.index, id, c, i)
    ensures Bound(CaptureChoice(t, ch), id, c, i, named || ToolsName(ch.tools, id))
  {
    var r := |t.responses| - 1;
    var state := StateAt(t.responses[r], ch.index);
    var begun := t.(responses := t.responses[r := t.responses[r][ch.index := state.(reasoning := state.reasoning + ch.reasoning)]]);
    forall x, y ensures SlotIn(begun, r, x, y) == SlotIn(t, r, x, y) {}
    ToolsBind(begun, ch.index, ch.tools, id, c, i, named);
  }

  lemma {:induction false} DeltasBind(table: Table, cs: seq<Choice>, id: string, choice: int, index: int)
    requires OnlyThere(cs, id, choice, index)
    ensures Bound(CaptureAll(Begin(table), cs), id, choice, index, Named(cs, id))
  {
    if cs == [] {
      forall c, i ensures SlotIn(Begin(table), |table.responses|, c, i) == EMPTY_SLOT {}
    } else {
      var init, last := cs[..|cs| - 1], cs[|cs| - 1];
      assert OnlyThere(init, id, choice, index) by {
        forall i, k | 0 <= i < |init| && 0 <= k < |init[i].tools| && Names(init[i], k, id)
          ensures init[i].index == choice && IndexOf(init[i].tools[k], k) == index { assert Names(cs[i], k, id); }
      }
      DeltasBind(table, init, id, choice, index);
      assert ToolsOnlyThere(last.tools, last.index, id, choice, index) by {
        forall k | 0 <= k < |last.tools| && last.tools[k].id == Some(id)
          ensures last.index == choice && IndexOf(last.tools[k], k) == index { assert Names(cs[|cs| - 1], k, id); }
      }
      ChoiceBinds(CaptureAll(Begin(table), init), last, id, choice, index, Named(init, id));
      if Named(cs, id) {
        var i, k :| 0 <= i < |cs| && 0 <= k < |cs[i].tools| && Names(cs[i], k, id);
        if i < |init| { assert Names(init[i], k, id); } else { assert last.tools[k].id == Some(id); }
      }
    }
  }

  /** An id that one call of a response carries stands for exactly the bytes, the reasoning and the extra content
      delivered for that call. */
  lemma {:induction false} CapturedCallResolves(table: Table, cs: seq<Choice>, id: string, choice: int, index: int)
    requires OnlyThere(cs, id, choice, index) && Named(cs, id)
    ensures var r := Resolve(CaptureAll(Begin(table), cs), id);
      && r.Some? && r.value.index == index && r.value.arguments == Fragments(cs, choice, index)
      && r.value.reasoning == Reasoning(cs, choice) && r.value.extra == LastExtra(cs, choice, index)
  {
    DeltasBind(table, cs, id, choice, index);
    CaptureConcatenates(table, cs, choice, index);
  }

  // ---------------------------------------------------------------- persist and reload

  /** A content part; `saved` is the valid toolReplay record among its provider options, if any. */
  datatype Part = TextPart(text: string) | CallPart(id: string, saved: Option<Replay>)
  datatype Message = Assistant(parts: seq<Part>) | OtherMessage(text: string)

  function PreservePart(table: Table, p: Part): Part {
    if p.CallPart? && Resolve(table, p.id).Some? then CallPart(p.id, Resolve(table, p.id)) else p
  }

  function PreserveParts(table: Table, ps: seq<Part>): (r: seq<Part>)
    ensures |r| == |ps| && forall i :: 0 <= i < |ps| ==> r[i] == PreservePart(table, ps[i])
  {
    seq(|ps|, i requires 0 <= i < |ps| => PreservePart(table, ps[i]))
  }

  function Preserve(table: Table, ms: seq<Message>): (r: seq<Message>)
    ensures |r| == |ms|
    ensures forall i :: 0 <= i < |ms| ==> r[i] == if ms[i].Assistant? then Assistant(PreserveParts(table, ms[i].parts)) else ms[i]
  {
    seq(|ms|, i requires 0 <= i < |ms| => if ms[i].Assistant? then Assistant(PreserveParts(table, ms[i].parts)) else ms[i])
  }

  function LoadParts(calls: map<string, Ref>, ps: seq<Part>): map<string, Ref> {
    if ps == [] then calls
    else
      var before, p := LoadParts(calls, ps[..|ps| - 1]), ps[|ps| - 1];
      if p.CallPart? && p.saved.Some? then before[p.id := Saved(p.saved.value)] else before
  }

  function LoadAll(ms: seq<Message>): map<string, Ref> {
    if ms == [] then map[]
    else if ms[|ms| - 1].Assistant? then LoadParts(LoadAll(ms[..|ms| - 1]), ms[|ms| - 1].parts)
    else LoadAll(ms[..|ms| - 1])
  }

  /** The constructor over stored messages. */
  function Reload(ms: seq<Message>): Table { Table(LoadAll(ms), []) }

  predicate PartHas(ps: seq<Part>, id: string) { exists i :: 0 <= i < |ps| && ps[i].CallPart? && ps[i].id == id }
  predicate Mentions(ms: seq<Message>, id: string) { exists i :: 0 <= i < |ms| && ms[i].Assistant? && PartHas(ms[i].parts, id) }

  lemma {:induction false} LoadedParts(table: Table, calls: map<string, Ref>, ps: seq<Part>, id: string)
    requires Resolve(table, id).Some?
    ensures var after := LoadParts(calls, PreserveParts(table, ps));
      if PartHas(ps, id) then id in after && after[id] == Saved(Resolve(table, id).value)
      else (id in after <==> id in calls) && (id in calls ==> after[id] == calls[id])
  {
    if ps != [] {
      var init, last := ps[..|ps| - 1], ps[|ps| - 1];
      LoadedParts(table, calls, init, id);
      assert PreserveParts(table, ps)[..|ps| - 1] == PreserveParts(table, init);
      if PartHas(init, id) {
        var i :| 0 <= i < |init| && init[i].CallPart? && init[i].id == id;
        assert ps[i].id == id;
      }
      if PartHas(ps, id) {
        var i :| 0 <= i < |ps| && ps[i].CallPart? && ps[i].id == id;
        assert i < |init| ==> init[i].id == id;
      }
    }
  }

  lemma {:induction false} LoadedMessages(table: Table, ms: seq<Message>, id: string)
    requires Resolve(table, id).Some?
    ensures var after := LoadAll(Preserve(table, ms));
      if Mentions(ms, id) then id in after && after[id] == Saved(Resolve(table, id).value) else id !in after
  {
    if ms != [] {
      var init, last := ms[..|ms| - 1], ms[|ms| - 1];
      LoadedMessages(table, init, id);
      assert Preserve(table, ms)[..|ms| - 1] == Preserve(table, init);
      if last.Assistant? { LoadedParts(table, LoadAll(Preserve(table, init)), last.parts, id); }
      if Mentions(init, id) {
        var i :| 0 <= i < |init| && init[i].Assistant? && PartHas(init[i].parts, id);
        assert ms[i] == init[i];
      }
      if Mentions(ms, id) {
        var i :| 0 <= i < |ms| && ms[i].Assistant? && PartHas(ms[i].parts, id);
        assert i < |init| ==> init[i] == ms[i];
      }
    }
  }

  /** Round trip: what stored messages mention resolves, after a reload, to what it was when they were stored. */
  lemma {:induction false} ReloadRestoresRecords(table: Table, ms: seq<Message>, id: string)
    requires Resolve(table, id).Some? && Mentions(ms, id)
    ensures Resolve(Reload(Preserve(table, ms)), id) == Resolve(table, id)
  {
    LoadedMessages(table, ms, id);
  }
}
