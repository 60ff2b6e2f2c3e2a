/** What the rows of a turn hold, field by field, against what was said about each call. */
module TurnContents {
  import opened Prelude
  import opened History
  import opened TurnTranscript
  import opened TurnProofs

  // ---------------------------------------------------------------- what was said about a call

  predicate SameCall(part: Part, c: Call) {
    part.isCall && part.id == c.id && part.name == c.name && part.input == c.input
  }

  predicate AskedAs(ms: seq<ProviderMessage>, part: Part) {
    exists i, c :: 0 <= i < |ms| && ms[i].Mixed? && c in ms[i].calls && SameCall(part, c)
  }

  predicate Delivers(m: ProviderMessage, id: string) { m.Results? && HasOutput(m.outputs, id) }
  predicate Delivered(ms: seq<ProviderMessage>, id: string) { exists i :: 0 <= i < |ms| && Delivers(ms[i], id) }

  predicate DeliveredAs(ms: seq<ProviderMessage>, o: Output) {
    exists i :: 0 <= i < |ms| && ms[i].Results? && o in ms[i].outputs
  }

  /** The messages an event stores. */
  function Slice(p: Script, t: Turn, e: Event): Option<seq<ProviderMessage>>
    requires Enabled(p, t, e)
  {
    match e
    case StepComplete(n) => if t.stopped || t.ended then None else Some(p.messages[t.persisted..n])
    case Complete => Some(p.messages[t.persisted..])
    case Fail(n, _, _) => Some(p.messages[t.persisted..n])
    case _ => None
  }

  predicate Starts(p: Script, t: Turn, e: Event, id: string) { e.ToolStart? && Enabled(p, t, e) && e.call.id == id }

  ghost predicate HasStarted(p: Script, es: seq<Event>, id: string) {
    es != [] && (HasStarted(p, es[..|es| - 1], id) || Starts(p, Run(p, es[..|es| - 1]), es[|es| - 1], id))
  }

  ghost function StartedIds(p: Script, es: seq<Event>): iset<string> { iset id | HasStarted(p, es, id) }

  /** The calls as they were last told: by the message that asked for them once it is stored, before that by the first
      start of the tool. */
  ghost function CallsTold(p: Script, es: seq<Event>): iset<Part> {
    if es == [] then iset{}
    else
      var init, e := es[..|es| - 1], es[|es| - 1];
      var before, t := CallsTold(p, init), Run(p, init);
      if !Enabled(p, t, e) then before
      else if Slice(p, t, e).Some? then CallsAfter(before, Slice(p, t, e).value)
      else if e.ToolStart? && !HasStarted(p, init, e.call.id) then CallsStarted(before, e.call)
      else before
  }

  ghost function CallsAfter(before: iset<Part>, slice: seq<ProviderMessage>): iset<Part> {
    iset part: Part | if AskedIn(slice, part.id) then AskedAs(slice, part) else part in before
  }

  ghost function CallsStarted(before: iset<Part>, c: Call): iset<Part> {
    iset part: Part | if part.id == c.id then SameCall(part, c) else part in before
  }

  datatype Told = Told(id: string, name: string, output: string)

  ghost predicate Named(before: iset<Told>, id: string, name: string) { exists o :: Told(id, name, o) in before }

  /** The results as they were last told. A tool that has started keeps the name it started with. */
  ghost function ResultsTold(p: Script, es: seq<Event>): iset<Told> {
    if es == [] then iset{}
    else
      var init, e := es[..|es| - 1], es[|es| - 1];
      var before, t := ResultsTold(p, init), Run(p, init);
      if !Enabled(p, t, e) then before
      else if Slice(p, t, e).Some? then ResultsAfter(before, Slice(p, t, e).value, StartedIds(p, init))
      else if e.ToolStart? && !HasStarted(p, init, e.call.id) then ResultsStarted(before, e.call)
      else if e.ToolComplete? && HasStarted(p, init, e.id) then ResultsCompleted(before, e.id, e.output)
      else before
  }

  ghost function ResultsAfter(before: iset<Told>, slice: seq<ProviderMessage>, started: iset<string>): iset<Told> {
    iset x: Told |
      if !Delivered(slice, x.id) then x in before
      else if x.id in started then Named(before, x.id, x.name) && exists o :: DeliveredAs(slice, o) && o.id == x.id && o.output == x.output
      else DeliveredAs(slice, Output(x.id, x.name, x.output))
  }

  ghost function ResultsStarted(before: iset<Told>, c: Call): iset<Told> {
    iset x: Told | if x.id == c.id then x.name == c.name && x.output == UNCONFIRMED else x in before
  }

  ghost function ResultsCompleted(before: iset<Told>, id: string, output: string): iset<Told> {
    iset x: Told | if x.id == id then x.output == output && Named(before, id, x.name) else x in before
  }

  // ---------------------------------------------------------------- rows that hold what was told

  predicate RowTells(row: Row, calls: iset<Part>, results: iset<Told>) {
    && (row.role.Assistant? && row.calls.Parts? ==> forall part :: part in row.calls.parts ==> part in calls)
    && (row.role.Tool? ==> Told(row.callId, row.toolName, row.content) in results)
  }

  ghost predicate RowsTell(rows: seq<Row>, calls: iset<Part>, results: iset<Told>) {
    forall i :: 0 <= i < |rows| ==> RowTells(rows[i], calls, results)
  }

  lemma {:induction false} MoreTell(a: seq<Row>, b: seq<Row>, calls: iset<Part>, results: iset<Told>)
    requires RowsTell(a, calls, results) && RowsTell(b, calls, results)
    ensures RowsTell(a + b, calls, results)
  {
  }

  // ---------------------------------------------------------------- one row of an id

  lemma {:induction false} NoneCounted(rows: seq<Row>, i: nat, id: string)
    requires i < |rows|
    ensures CallRows(rows, id) == 0 ==> !AsksFor(rows[i], id)
    ensures ResultRows(rows, id) == 0 ==> !(rows[i].role.Tool? && rows[i].callId == id)
  {
    if i < |rows| - 1 { NoneCounted(rows[..|rows| - 1], i, id); }
  }

  lemma {:induction false} OneCounted(rows: seq<Row>, i: nat, j: nat, id: string)
    requires i < j < |rows|
    ensures CallRows(rows, id) == 1 ==> !(AsksFor(rows[i], id) && AsksFor(rows[j], id))
    ensures ResultRows(rows, id) == 1 ==> !(rows[i].role.Tool? && rows[i].callId == id && rows[j].role.Tool? && rows[j].callId == id)
  {
    var init := rows[..|rows| - 1];
    assert init[i] == rows[i];
    NoneCounted(init, i, id);
    if j < |init| {
      assert init[j] == rows[j];
      NoneCounted(init, j, id);
      OneCounted(init, i, j, id);
    }
  }

  /** Every row of a journalled tool is the one the journal points to. */
  lemma {:induction false} JournalledRow(p: Script, t: Turn, i: nat, id: string)
    requires Inv(p, t) && i < |t.rows| && id in t.journal
    ensures AsksFor(t.rows[i], id) ==> i == t.journal[id].call
    ensures t.rows[i].role.Tool? && t.rows[i].callId == id ==> i == t.journal[id].result
  {
    var e := t.journal[id];
    assert EntryFits(t.rows, id, e);
    assert t.rows[e.call].calls.parts[0] in t.rows[e.call].calls.parts;
    assert Stored(p, t, id) && CallRows(t.rows, id) == 1 && ResultRows(t.rows, id) == 1;
    if i < e.call { OneCounted(t.rows, i, e.call, id); }
    if e.call < i { OneCounted(t.rows, e.call, i, id); }
    if i < e.result { OneCounted(t.rows, i, e.result, id); }
    if e.result < i { OneCounted(t.rows, e.result, i, id); }
  }

  lemma {:induction false} UnknownRow(p: Script, t: Turn, i: nat, id: string)
    requires Inv(p, t) && i < |t.rows| && !Stored(p, t, id)
    ensures !AsksFor(t.rows[i], id) && !(t.rows[i].role.Tool? && t.rows[i].callId == id)
  {
    NoneCounted(t.rows, i, id);
  }

  // ---------------------------------------------------------------- updates in place

  predicate CallAt(journal: Journal, id: string, i: nat) { id in journal && journal[id].call == i }
  predicate ResultAt(journal: Journal, id: string, i: nat) { id in journal && journal[id].result == i }

  predicate OnlyCall(calls: Calls, c: Call) { calls.Parts? && |calls.parts| == 1 && SameCall(calls.parts[0], c) }

  ghost predicate CallsUpdated(was: Row, now: Row, calls: seq<Call>, journal: Journal, i: nat) {
    || (now.calls == was.calls && forall c :: c in calls ==> !CallAt(journal, c.id, i))
    || exists c :: c in calls && CallAt(journal, c.id, i) && OnlyCall(now.calls, c)
  }

  ghost predicate OutputsUpdated(was: Row, now: Row, outputs: seq<Output>, journal: Journal, i: nat) {
    || (now.content == was.content && forall o :: o in outputs ==> !ResultAt(journal, o.id, i))
    || exists o :: o in outputs && ResultAt(journal, o.id, i) && now.content == o.output
  }

  lemma {:induction false} CallUpdate(rows: seq<Row>, calls: seq<Call>, journal: Journal, i: nat)
    requires i < |rows|
    ensures var r := UpdateCalls(rows, calls, journal)[i]; r == rows[i].(calls := r.calls) && CallsUpdated(rows[i], r, calls, journal, i)
  {
    if calls != [] {
      var init, c := calls[..|calls| - 1], calls[|calls| - 1];
      CallUpdate(rows, init, journal, i);
      assert calls == init + [c];
      var r := UpdateCalls(rows, calls, journal)[i];
      if CallAt(journal, c.id, i) {
        assert OnlyCall(r.calls, c);
      } else {
        assert r == UpdateCalls(rows, init, journal)[i];
      }
    }
  }

  lemma {:induction false} OutputUpdate(rows: seq<Row>, outputs: seq<Output>, journal: Journal, i: nat)
    requires i < |rows|
    ensures var r := UpdateOutputs(rows, outputs, journal)[i];
      r == rows[i].(content := r.content) && OutputsUpdated(rows[i], r, outputs, journal, i)
  {
    if outputs != [] {
      var init, o := outputs[..|outputs| - 1], outputs[|outputs| - 1];
      OutputUpdate(rows, init, journal, i);
      assert outputs == init + [o];
      var r := UpdateOutputs(rows, outputs, journal)[i];
      if ResultAt(journal, o.id, i) {
        assert r.content == o.output;
      } else {
        assert r == UpdateOutputs(rows, init, journal)[i];
      }
    }
  }

  predicate CallIn(ms: seq<ProviderMessage>, c: Call) { exists k :: 0 <= k < |ms| && ms[k].Mixed? && c in ms[k].calls }

  /** What storing a slice does to one row that was there before. */
  ghost predicate RowUpdated(was: Row, now: Row, ms: seq<ProviderMessage>, journal: Journal, i: nat) {
    && now == was.(calls := now.calls, content := now.content)
    && ((now.calls == was.calls && forall c :: CallIn(ms, c) ==> !CallAt(journal, c.id, i))
        || exists c :: CallIn(ms, c) && CallAt(journal, c.id, i) && OnlyCall(now.calls, c))
    && ((now.content == was.content && forall o :: DeliveredAs(ms, o) ==> !ResultAt(journal, o.id, i))
        || exists o :: DeliveredAs(ms, o) && ResultAt(journal, o.id, i) && now.content == o.output)
  }

  lemma {:induction false} CallInLast(ms: seq<ProviderMessage>, c: Call)
    requires ms != []
    ensures CallIn(ms, c) <==> CallIn(ms[..|ms| - 1], c) || (ms[|ms| - 1].Mixed? && c in ms[|ms| - 1].calls)
  {
    var init := ms[..|ms| - 1];
    if k :| 0 <= k < |ms| && ms[k].Mixed? && c in ms[k].calls { assert k < |init| ==> init[k] == ms[k]; }
    if k :| 0 <= k < |init| && init[k].Mixed? && c in init[k].calls { assert init[k] == ms[k]; }
  }

  lemma {:induction false} DeliveredInLast(ms: seq<ProviderMessage>, o: Output)
    requires ms != []
    ensures DeliveredAs(ms, o) <==> DeliveredAs(ms[..|ms| - 1], o) || (ms[|ms| - 1].Results? && o in ms[|ms| - 1].outputs)
  {
    var init := ms[..|ms| - 1];
    if k :| 0 <= k < |ms| && ms[k].Results? && o in ms[k].outputs { assert k < |init| ==> init[k] == ms[k]; }
    if k :| 0 <= k < |init| && init[k].Results? && o in init[k].outputs { assert init[k] == ms[k]; }
  }

  lemma {:induction false} RowUpdatedFurther(was: Row, mid: Row, now: Row, ms: seq<ProviderMessage>, journal: Journal, i: nat)
    requires ms != [] && RowUpdated(was, mid, ms[..|ms| - 1], journal, i)
    requires var m := ms[|ms| - 1];
      match m
      case Text(_) => now == mid
      case Mixed(_, calls) => now == mid.(calls := now.calls) && CallsUpdated(mid, now, calls, journal, i)
      case Results(outputs) => now == mid.(content := now.content) && OutputsUpdated(mid, now, outputs, journal, i)
    ensures RowUpdated(was, now, ms, journal, i)
  {
    forall c ensures CallIn(ms, c) <==> CallIn(ms[..|ms| - 1], c) || (ms[|ms| - 1].Mixed? && c in ms[|ms| - 1].calls) { CallInLast(ms, c); }
    forall o ensures DeliveredAs(ms, o) <==> DeliveredAs(ms[..|ms| - 1], o) || (ms[|ms| - 1].Results? && o in ms[|ms| - 1].outputs) {
      DeliveredInLast(ms, o);
    }
  }

  lemma {:induction false} RowUpdates(rows: seq<Row>, ms: seq<ProviderMessage>, journal: Journal, i: nat)
    requires i < |rows|
    ensures RowUpdated(rows[i], Updated(rows, ms, journal)[i], ms, journal, i)
  {
    if ms != [] {
      var init, m := ms[..|ms| - 1], ms[|ms| - 1];
      var before := Updated(rows, init, journal);
      RowUpdates(rows, init, journal, i);
      if m.Mixed? {
        CallUpdate(before, m.calls, journal, i);
      } else if m.Results? {
        OutputUpdate(before, m.outputs, journal, i);
      }
      RowUpdatedFurther(rows[i], before[i], Updated(rows, ms, journal)[i], ms, journal, i);
    }
  }

  // ---------------------------------------------------------------- storing a slice

  ghost predicate Journals(started: iset<string>, journal: Journal) {
    forall id: string :: id in started <==> id in journal.Keys
  }

  lemma {:induction false} CallAsked(ms: seq<ProviderMessage>, c: Call)
    requires CallIn(ms, c)
    ensures AskedIn(ms, c.id) && forall part :: SameCall(part, c) ==> AskedAs(ms, part)
  {
    var k :| 0 <= k < |ms| && ms[k].Mixed? && c in ms[k].calls;
    assert Asked(ms[k], c.id);
  }

  lemma {:induction false} AskedCall(ms: seq<ProviderMessage>, id: string) returns (c: Call)
    requires AskedIn(ms, id)
    ensures CallIn(ms, c) && c.id == id
  {
    var k :| 0 <= k < |ms| && Asked(ms[k], id);
    c :| c in ms[k].calls && c.id == id;
  }

  lemma {:induction false} DeliveredOutput(ms: seq<ProviderMessage>, id: string) returns (o: Output)
    requires Delivered(ms, id)
    ensures DeliveredAs(ms, o) && o.id == id
  {
    var k :| 0 <= k < |ms| && Delivers(ms[k], id);
    o :| o in ms[k].outputs && o.id == id;
  }

  lemma {:induction false} OutputDelivered(ms: seq<ProviderMessage>, o: Output)
    requires DeliveredAs(ms, o)
    ensures Delivered(ms, o.id)
  {
    var k :| 0 <= k < |ms| && ms[k].Results? && o in ms[k].outputs;
    assert Delivers(ms[k], o.id);
  }

  /** What is delivered in whole blocks was asked for in them. */
  lemma {:induction false} DeliveredWasAsked(ms: seq<ProviderMessage>, id: string)
    requires Blocks(ms) && Delivered(ms, id)
    ensures AskedIn(ms, id)
    decreases |ms|
  {
    var k :| 0 <= k < |ms| && Delivers(ms[k], id);
    var last := ms[|ms| - 1];
    if last.Results? {
      var n := |ms| - 2;
      if k == |ms| - 1 {
        var o :| o in last.outputs && o.id == id;
        assert Asked(ms[n], id);
      } else {
        assert k < n;
        assert Delivers(ms[..n][k], id);
        DeliveredWasAsked(ms[..n], id);
        var j :| 0 <= j < n && Asked(ms[..n][j], id);
        assert Asked(ms[j], id);
      }
    } else {
      assert Delivers(ms[..|ms| - 1][k], id);
      DeliveredWasAsked(ms[..|ms| - 1], id);
      AskedInLast(ms, id);
    }
  }

  /** A row asks for the id of each of its parts. */
  lemma {:induction false} PartAsksFor(row: Row, part: Part)
    requires row.role.Assistant? && row.calls.Parts? && part in row.calls.parts
    ensures AsksFor(row, part.id)
  {
  }

  /** The slice is new: an id it asks for is journalled or unknown to the rows. */
  lemma {:induction false} SliceIsNew(p: Script, t: Turn, n: nat, id: string)
    requires IdsOnce(p.messages) && Inv(p, t) && t.persisted <= n <= |p.messages| && AskedIn(p.messages[t.persisted..n], id)
    ensures Stored(p, t, id) <==> id in t.journal
  {
    AskedOnceConcat(p.messages, t.persisted, n, id);
  }

  ghost predicate Untouched(slice: seq<ProviderMessage>, journal: Journal, i: nat) {
    forall c :: CallIn(slice, c) ==> !CallAt(journal, c.id, i)
  }

  /** A row the slice does not touch asks for nothing the slice asks for. */
  lemma {:induction false} UntouchedCall(p: Script, t: Turn, n: nat, i: nat, part: Part)
    requires IdsOnce(p.messages) && Inv(p, t) && t.persisted <= n <= |p.messages| && i < |t.rows|
    requires t.rows[i].role.Assistant? && t.rows[i].calls.Parts? && part in t.rows[i].calls.parts
    requires Untouched(p.messages[t.persisted..n], t.journal, i)
    ensures !AskedIn(p.messages[t.persisted..n], part.id)
  {
    if AskedIn(p.messages[t.persisted..n], part.id) {
      PartAsksFor(t.rows[i], part);
      SliceIsNew(p, t, n, part.id);
      if part.id in t.journal {
        JournalledRow(p, t, i, part.id);
        var c := AskedCall(p.messages[t.persisted..n], part.id);
        assert CallAt(t.journal, c.id, i);
      } else {
        UnknownRow(p, t, i, part.id);
      }
    }
  }

  lemma {:induction false} UntouchedResult(p: Script, t: Turn, n: nat, i: nat)
    requires IdsOnce(p.messages) && Inv(p, t) && t.persisted <= n <= |p.messages| && i < |t.rows|
    requires Blocks(p.messages[t.persisted..n]) && t.rows[i].role.Tool?
    requires forall o :: DeliveredAs(p.messages[t.persisted..n], o) ==> !ResultAt(t.journal, o.id, i)
    ensures !Delivered(p.messages[t.persisted..n], t.rows[i].callId)
  {
    var slice, id := p.messages[t.persisted..n], t.rows[i].callId;
    if Delivered(slice, id) {
      DeliveredWasAsked(slice, id);
      SliceIsNew(p, t, n, id);
      if id in t.journal {
        JournalledRow(p, t, i, id);
        var o := DeliveredOutput(slice, id);
        assert ResultAt(t.journal, o.id, i);
      } else {
        UnknownRow(p, t, i, id);
      }
    }
  }

  lemma {:induction false} UpdatedCallTells(was: Row, now: Row, slice: seq<ProviderMessage>, journal: Journal, i: nat, calls: iset<Part>, part: Part)
    requires RowUpdated(was, now, slice, journal, i) && now.calls.Parts? && part in now.calls.parts
    requires was.calls.Parts? ==> forall x :: x in was.calls.parts ==> x in calls
    requires now.calls == was.calls && Untouched(slice, journal, i) ==> !AskedIn(slice, part.id)
    ensures part in CallsAfter(calls, slice)
  {
    if c :| CallIn(slice, c) && CallAt(journal, c.id, i) && OnlyCall(now.calls, c) {
      CallAsked(slice, c);
      assert part == now.calls.parts[0];
    }
  }

  /** A part of a row that was there before: the stored call if the slice asks for its id, or as it was. */
  lemma {:induction false} OldCallTells(p: Script, t: Turn, n: nat, calls: iset<Part>, i: nat, now: Row, part: Part)
    requires IdsOnce(p.messages) && Inv(p, t) && t.persisted <= n <= |p.messages| && i < |t.rows|
    requires RowUpdated(t.rows[i], now, p.messages[t.persisted..n], t.journal, i)
    requires now.role.Assistant? && now.calls.Parts? && part in now.calls.parts
    requires t.rows[i].calls.Parts? ==> forall x :: x in t.rows[i].calls.parts ==> x in calls
    ensures part in CallsAfter(calls, p.messages[t.persisted..n])
  {
    if now.calls == t.rows[i].calls && Untouched(p.messages[t.persisted..n], t.journal, i) { UntouchedCall(p, t, n, i, part); }
    UpdatedCallTells(t.rows[i], now, p.messages[t.persisted..n], t.journal, i, calls, part);
  }

  /** The same for a result row. */
  lemma {:induction false} DeliveredResultTells(p: Script, t: Turn, slice: seq<ProviderMessage>, results: iset<Told>, started: iset<string>, i: nat, now: Row, o: Output)
    requires Inv(p, t) && i < |t.rows| && Journals(started, t.journal) && RowUpdated(t.rows[i], now, slice, t.journal, i) && Blocks(slice)
    requires t.rows[i].role.Tool? && Told(t.rows[i].callId, t.rows[i].toolName, t.rows[i].content) in results
    requires DeliveredAs(slice, o) && ResultAt(t.journal, o.id, i) && now.content == o.output
    ensures Told(now.callId, now.toolName, now.content) in ResultsAfter(results, slice, started)
  {
    assert EntryFits(t.rows, o.id, t.journal[o.id]);
    OutputDelivered(slice, o);
    assert Named(results, now.callId, now.toolName);
  }

  lemma {:induction false} OldResultTells(p: Script, t: Turn, n: nat, results: iset<Told>, started: iset<string>, i: nat, now: Row)
    requires IdsOnce(p.messages) && Inv(p, t) && t.persisted <= n <= |p.messages| && i < |t.rows|
    requires Blocks(p.messages[t.persisted..n]) && Journals(started, t.journal)
    requires RowUpdated(t.rows[i], now, p.messages[t.persisted..n], t.journal, i)
    requires t.rows[i].role.Tool? && Told(t.rows[i].callId, t.rows[i].toolName, t.rows[i].content) in results
    ensures Told(now.callId, now.toolName, now.content) in ResultsAfter(results, p.messages[t.persisted..n], started)
  {
    var slice := p.messages[t.persisted..n];
    if o :| DeliveredAs(slice, o) && ResultAt(t.journal, o.id, i) && now.content == o.output {
      DeliveredResultTells(p, t, slice, results, started, i, now, o);
    } else {
      UntouchedResult(p, t, n, i);
    }
  }

  lemma {:induction false} OldRowTells(p: Script, t: Turn, n: nat, calls: iset<Part>, results: iset<Told>, started: iset<string>, i: nat)
    requires IdsOnce(p.messages) && Inv(p, t) && t.persisted <= n <= |p.messages| && i < |t.rows|
    requires Blocks(p.messages[t.persisted..n]) && Journals(started, t.journal)
    requires RowTells(t.rows[i], calls, results)
    ensures var slice := p.messages[t.persisted..n];
      RowTells(Updated(t.rows, slice, t.journal)[i], CallsAfter(calls, slice), ResultsAfter(results, slice, started))
  {
    var slice := p.messages[t.persisted..n];
    var now := Updated(t.rows, slice, t.journal)[i];
    RowUpdates(t.rows, slice, t.journal, i);
    if now.role.Assistant? && now.calls.Parts? {
      forall part | part in now.calls.parts ensures part in CallsAfter(calls, slice) { OldCallTells(p, t, n, calls, i, now, part); }
    }
    if now.role.Tool? { OldResultTells(p, t, n, results, started, i, now); }
  }

  lemma {:induction false} KeptRowsTell(slice: seq<ProviderMessage>, k: nat, journal: Journal, calls: iset<Part>, results: iset<Told>, started: iset<string>, i: nat)
    requires k < |slice| && Journals(started, journal)
    requires i < |RowsOf(RemainingOf(slice[k], journal))|
    ensures RowTells(RowsOf(RemainingOf(slice[k], journal))[i], CallsAfter(calls, slice), ResultsAfter(results, slice, started))
  {
    var rest := RemainingOf(slice[k], journal);
    RowsOfOne(rest[0]);
    assert rest == [rest[0]];
    if slice[k].Mixed? {
      var kept := KeepCalls(slice[k].calls, journal);
      forall part | part in PartsOf(kept) ensures part in CallsAfter(calls, slice) {
        var j :| 0 <= j < |kept| && PartsOf(kept)[j] == part;
        KeptCalls(slice[k].calls, journal, kept[j]);
        assert CallIn(slice, kept[j]);
        CallAsked(slice, kept[j]);
      }
    } else if slice[k].Results? {
      var o := KeepOutputs(slice[k].outputs, journal)[i];
      KeptOutputs(slice[k].outputs, journal, o);
      assert DeliveredAs(slice, o);
      OutputDelivered(slice, o);
      assert o == Output(o.id, o.name, o.output);
    }
  }

  lemma {:induction false} RemainingTells(slice: seq<ProviderMessage>, k: nat, journal: Journal, calls: iset<Part>, results: iset<Told>, started: iset<string>)
    requires k <= |slice| && Journals(started, journal)
    ensures RowsTell(RowsOf(Remaining(slice[..k], journal)), CallsAfter(calls, slice), ResultsAfter(results, slice, started))
  {
    if k > 0 {
      RemainingTells(slice, k - 1, journal, calls, results, started);
      assert slice[..k][..k - 1] == slice[..k - 1];
      RowsOfConcat(Remaining(slice[..k - 1], journal), RemainingOf(slice[k - 1], journal));
      var kept := RowsOf(RemainingOf(slice[k - 1], journal));
      forall i | 0 <= i < |kept| ensures RowTells(kept[i], CallsAfter(calls, slice), ResultsAfter(results, slice, started))
      {
        KeptRowsTell(slice, k - 1, journal, calls, results, started, i);
      }
    }
  }

  lemma {:induction false} SliceTells(p: Script, t: Turn, n: nat, calls: iset<Part>, results: iset<Told>, started: iset<string>)
    requires IdsOnce(p.messages) && Inv(p, t) && t.persisted <= n <= |p.messages| && Blocks(p.messages[t.persisted..n])
    requires Journals(started, t.journal) && RowsTell(t.rows, calls, results)
    ensures var slice := p.messages[t.persisted..n];
      RowsTell(SliceStored(t, p.messages, n), CallsAfter(calls, slice), ResultsAfter(results, slice, started))
  {
    var slice := p.messages[t.persisted..n];
    forall i | 0 <= i < |t.rows|
      ensures RowTells(Updated(t.rows, slice, t.journal)[i], CallsAfter(calls, slice), ResultsAfter(results, slice, started))
    {
      OldRowTells(p, t, n, calls, results, started, i);
    }
    RemainingTells(slice, |slice|, t.journal, calls, results, started);
    assert slice[..|slice|] == slice;
    MoreTell(Updated(t.rows, slice, t.journal), RowsOf(Remaining(slice, t.journal)), CallsAfter(calls, slice), ResultsAfter(results, slice, started));
  }

  // ---------------------------------------------------------------- every step

  lemma {:induction false} PlainTells(rows: seq<Row>, row: Row, calls: iset<Part>, results: iset<Told>)
    requires RowsTell(rows, calls, results) && row.role.Assistant? && row.calls.NoCalls?
    ensures RowsTell(rows + [row], calls, results)
  {
  }

  lemma {:induction false} StoreTells(p: Script, t: Turn, e: Event, calls: iset<Part>, results: iset<Told>, started: iset<string>)
    requires IdsOnce(p.messages) && Inv(p, t) && Enabled(p, t, e) && Slice(p, t, e).Some?
    requires Journals(started, t.journal) && RowsTell(t.rows, calls, results)
    ensures var slice := Slice(p, t, e).value;
      RowsTell(Step(p, t, e).rows, CallsAfter(calls, slice), ResultsAfter(results, slice, started))
  {
    var n := if e.StepComplete? then e.upTo else if e.Complete? then |p.messages| else e.delivered;
    assert p.messages[t.persisted..|p.messages|] == p.messages[t.persisted..];
    var slice := Slice(p, t, e).value;
    SliceTells(p, t, n, calls, results, started);
    PersistIs(t, p.messages, n);
    var stored := SliceStored(t, p.messages, n);
    if e.Complete? {
      CompleteIs(p, t);
      PlainTells(stored, AssistantRow(Drop(FullText(p), |t.persistedText|), NoCalls), CallsAfter(calls, slice), ResultsAfter(results, slice, started));
    } else if e.Fail? {
      PlainTells(stored, FailureRow(AllText(p.messages[..n]), e.partial, e.acted), CallsAfter(calls, slice), ResultsAfter(results, slice, started));
    }
  }

  lemma {:induction false} OldRowBeforeStart(p: Script, t: Turn, c: Call, calls: iset<Part>, results: iset<Told>, i: nat)
    requires IdsOnce(p.messages) && Inv(p, t) && Enabled(p, t, ToolStart(c)) && c.id !in t.journal
    requires i < |t.rows| && RowTells(t.rows[i], calls, results)
    ensures RowTells(t.rows[i], CallsStarted(calls, c), ResultsStarted(results, c))
  {
    StartAsked(p, t, c);
    UnknownRow(p, t, i, c.id);
    if t.rows[i].role.Assistant? && t.rows[i].calls.Parts? {
      forall part | part in t.rows[i].calls.parts ensures part.id != c.id { PartAsksFor(t.rows[i], part); }
    }
  }

  lemma {:induction false} StartTells(p: Script, t: Turn, c: Call, calls: iset<Part>, results: iset<Told>)
    requires IdsOnce(p.messages) && Inv(p, t) && Enabled(p, t, ToolStart(c)) && c.id !in t.journal
    requires RowsTell(t.rows, calls, results)
    ensures RowsTell(Started(t, c).rows, CallsStarted(calls, c), ResultsStarted(results, c))
  {
    forall i | 0 <= i < |t.rows| ensures RowTells(t.rows[i], CallsStarted(calls, c), ResultsStarted(results, c)) {
      OldRowBeforeStart(p, t, c, calls, results, i);
    }
    var rows := Started(t, c).rows;
    var call, result := rows[|t.rows|], rows[|t.rows| + 1];
    assert rows == t.rows + [call, result];
    assert call.calls.parts == [call.calls.parts[0]] && SameCall(call.calls.parts[0], c);
    assert RowTells(result, CallsStarted(calls, c), ResultsStarted(results, c));
  }

  lemma {:induction false} CompletionTells(p: Script, t: Turn, id: string, output: string, calls: iset<Part>, results: iset<Told>)
    requires Inv(p, t) && id in t.journal && RowsTell(t.rows, calls, results)
    ensures RowsTell(Step(p, t, ToolComplete(id, output)).rows, calls, ResultsCompleted(results, id, output))
  {
    var at := t.journal[id].result;
    assert EntryFits(t.rows, id, t.journal[id]);
    forall i | 0 <= i < |t.rows|
      ensures RowTells(Step(p, t, ToolComplete(id, output)).rows[i], calls, ResultsCompleted(results, id, output))
    {
      assert RowTells(t.rows[i], calls, results);
      JournalledRow(p, t, i, id);
      if i == at { assert Named(results, id, t.rows[i].toolName); }
    }
  }

  lemma {:induction false} OtherSteps(p: Script, t: Turn, e: Event, calls: iset<Part>, results: iset<Told>)
    requires Enabled(p, t, e) && Slice(p, t, e).None? && RowsTell(t.rows, calls, results)
    requires e.ToolStart? ==> e.call.id in t.journal
    requires e.ToolComplete? ==> e.id !in t.journal
    ensures RowsTell(Step(p, t, e).rows, calls, results)
  {
    if e.Stop? { PlainTells(t.rows, AssistantRow(Drop(t.text, |t.persistedText|) + STOPPED, NoCalls), calls, results); }
  }

  lemma {:induction false} StartedIsJournalled(p: Script, es: seq<Event>, id: string)
    ensures HasStarted(p, es, id) <==> id in Run(p, es).journal
  {
    if es != [] { StartedIsJournalled(p, es[..|es| - 1], id); }
  }

  lemma {:induction false} StartedAreJournalled(p: Script, es: seq<Event>)
    ensures Journals(StartedIds(p, es), Run(p, es).journal)
  {
    forall id ensures HasStarted(p, es, id) <==> id in Run(p, es).journal { StartedIsJournalled(p, es, id); }
  }

  // ---------------------------------------------------------------- main theorems

  /** At every moment of every turn, each call row holds the calls and each result row the name and output that were
      last told about their ids. */
  lemma {:induction false} RowsHoldWhatWasTold(p: Script, es: seq<Event>)
    requires IdsOnce(p.messages)
    ensures RowsTell(Run(p, es).rows, CallsTold(p, es), ResultsTold(p, es))
  {
    if es != [] {
      var init, e := es[..|es| - 1], es[|es| - 1];
      var t := Run(p, init);
      RowsHoldWhatWasTold(p, init);
      RunKeepsInv(p, init);
      StartedAreJournalled(p, init);
      var calls, results, started := CallsTold(p, init), ResultsTold(p, init), StartedIds(p, init);
      if Enabled(p, t, e) {
        if Slice(p, t, e).Some? {
          StoreTells(p, t, e, calls, results, started);
        } else if e.ToolStart? && e.call.id !in t.journal {
          StartTells(p, t, e.call, calls, results);
        } else if e.ToolComplete? && e.id in t.journal {
          CompletionTells(p, t, e.id, e.output, calls, results);
        } else {
          OtherSteps(p, t, e, calls, results);
        }
      }
    }
  }

  // ---------------------------------------------------------------- completed turns

  lemma {:induction false} BlocksAndOne(ms: seq<ProviderMessage>, x: ProviderMessage)
    requires Blocks(ms) && !x.Results? && !TurnTranscript.Calling(x)
    ensures Blocks(ms + [x])
  {
    assert (ms + [x])[..|ms|] == ms;
  }

  lemma {:induction false} BlocksAndTwo(ms: seq<ProviderMessage>, x: ProviderMessage, y: ProviderMessage)
    requires Blocks(ms) && x.Mixed? && y.Results? && y.outputs != [] && SameIds(x.calls, y.outputs)
    ensures Blocks(ms + [x, y])
  {
    assert (ms + [x, y])[..|ms|] == ms;
  }

  lemma {:induction false} LastOff<T>(a: seq<T>, b: seq<T>)
    requires b != []
    ensures a + b == (a + b[..|b| - 1]) + [b[|b| - 1]]
  {
  }

  lemma {:induction false} LastTwoOff<T>(a: seq<T>, b: seq<T>)
    requires |b| >= 2
    ensures a + b == (a + b[..|b| - 2]) + [b[|b| - 2], b[|b| - 1]]
  {
  }

  lemma {:induction false} BlocksConcat(a: seq<ProviderMessage>, b: seq<ProviderMessage>)
    requires Blocks(a) && Blocks(b)
    ensures Blocks(a + b)
    decreases |b|
  {
    if b == [] {
      assert a + b == a;
    } else if b[|b| - 1].Results? {
      BlocksConcat(a, b[..|b| - 2]);
      BlocksAndTwo(a + b[..|b| - 2], b[|b| - 2], b[|b| - 1]);
      LastTwoOff(a, b);
    } else {
      BlocksConcat(a, b[..|b| - 1]);
      BlocksAndOne(a + b[..|b| - 1], b[|b| - 1]);
      LastOff(a, b);
    }
  }

  /** What is asked for in whole blocks is delivered in them. */
  lemma {:induction false} AskedIsDelivered(ms: seq<ProviderMessage>, id: string)
    requires Blocks(ms) && AskedIn(ms, id)
    ensures Delivered(ms, id)
    decreases |ms|
  {
    var k :| 0 <= k < |ms| && Asked(ms[k], id);
    var last := ms[|ms| - 1];
    var n := if last.Results? then |ms| - 2 else |ms| - 1;
    if k < n {
      assert Asked(ms[..n][k], id);
      AskedIsDelivered(ms[..n], id);
      var j :| 0 <= j < n && Delivers(ms[..n][j], id);
      assert Delivers(ms[j], id);
    } else {
      var c :| c in ms[n].calls && c.id == id;
      assert Delivers(last, id);
    }
  }

  /** The stored messages are whole blocks. */
  ghost predicate StoredBlocks(p: Script, t: Turn) { t.persisted <= |p.messages| && Blocks(p.messages[..t.persisted]) }

  lemma {:induction false} SliceGrows(p: Script, t: Turn, e: Event)
    requires Enabled(p, t, e) && t.persisted <= |p.messages|
    ensures var u := Step(p, t, e);
      && t.persisted <= u.persisted <= |p.messages|
      && (if Slice(p, t, e).Some? then p.messages[t.persisted..u.persisted] == Slice(p, t, e).value else u.persisted == t.persisted)
  {
  }

  lemma {:induction false} SliceIsBlocks(p: Script, t: Turn, e: Event)
    requires Enabled(p, t, e) && Slice(p, t, e).Some?
    ensures Blocks(Slice(p, t, e).value)
  {
  }

  lemma {:induction false} BlocksJoin(ms: seq<ProviderMessage>, k: nat, n: nat)
    requires k <= n <= |ms| && Blocks(ms[..k]) && Blocks(ms[k..n])
    ensures Blocks(ms[..n])
  {
    BlocksConcat(ms[..k], ms[k..n]);
    assert ms[..k] + ms[k..n] == ms[..n];
  }

  lemma {:induction false} StepStoresBlocks(p: Script, t: Turn, e: Event, n: nat)
    requires Enabled(p, t, e) && StoredBlocks(p, t) && n == Step(p, t, e).persisted
    ensures n <= |p.messages| && Blocks(p.messages[..n])
  {
    SliceGrows(p, t, e);
    if Slice(p, t, e).Some? {
      SliceIsBlocks(p, t, e);
      BlocksJoin(p.messages, t.persisted, n);
    }
  }

  lemma {:induction false} RunStoresBlocks(p: Script, es: seq<Event>)
    ensures StoredBlocks(p, Run(p, es))
  {
    if es == [] {
      assert p.messages[..0] == [];
    } else {
      var init, e := es[..|es| - 1], es[|es| - 1];
      RunStoresBlocks(p, init);
      if Enabled(p, Run(p, init), e) { StepStoresBlocks(p, Run(p, init), e, Run(p, es).persisted); }
    }
  }

  lemma {:induction false} AskedAsPrefix(ms: seq<ProviderMessage>, k: nat, n: nat, part: Part)
    requires k <= n <= |ms|
    ensures AskedAs(ms[k..n], part) ==> AskedAs(ms[..n], part)
    ensures AskedAs(ms[..k], part) ==> AskedAs(ms[..n], part)
  {
    if i, c :| 0 <= i < n - k && ms[k..n][i].Mixed? && c in ms[k..n][i].calls && SameCall(part, c) { assert c in ms[..n][k + i].calls; }
    if i, c :| 0 <= i < k && ms[..k][i].Mixed? && c in ms[..k][i].calls && SameCall(part, c) { assert c in ms[..n][i].calls; }
  }

  /** Once its message is stored, a call is told as that message asked for it. */
  lemma {:induction false} StoredCallsAreAsked(p: Script, es: seq<Event>, part: Part)
    requires IdsOnce(p.messages) && part in CallsTold(p, es)
    requires Run(p, es).persisted <= |p.messages| && AskedIn(p.messages[..Run(p, es).persisted], part.id)
    ensures AskedAs(p.messages[..Run(p, es).persisted], part)
  {
    if es != [] {
      var init, e := es[..|es| - 1], es[|es| - 1];
      var t, n := Run(p, init), Run(p, es).persisted;
      RunStoresBlocks(p, init);
      if Enabled(p, t, e) {
        SliceGrows(p, t, e);
        AskedAsPrefix(p.messages, t.persisted, n, part);
        AskedInConcat(p.messages, t.persisted, n, part.id);
        if e.ToolStart? { StartAsked(p, t, e.call); }
      }
      if part in CallsTold(p, init) && AskedIn(p.messages[..t.persisted], part.id) { StoredCallsAreAsked(p, init, part); }
    }
  }

  /** A completion of the tool was reported after its result had been stored. */
  ghost predicate CompletedLate(p: Script, es: seq<Event>, id: string) {
    es != []
    && (CompletedLate(p, es[..|es| - 1], id)
        || (var t, e := Run(p, es[..|es| - 1]), es[|es| - 1];
            e.ToolComplete? && e.id == id && t.persisted <= |p.messages| && Delivered(p.messages[..t.persisted], id)))
  }

  /** The name the tool started with. */
  ghost predicate StartedAs(p: Script, es: seq<Event>, id: string, name: string) {
    es != []
    && (var init, e := es[..|es| - 1], es[|es| - 1];
        if HasStarted(p, init, id) then StartedAs(p, init, id, name) else Starts(p, Run(p, init), e, id) && e.call.name == name)
  }

  lemma {:induction false} ToldNames(p: Script, es: seq<Event>, x: Told)
    requires x in ResultsTold(p, es) && HasStarted(p, es, x.id)
    ensures StartedAs(p, es, x.id, x.name)
  {
    if es != [] {
      var init := es[..|es| - 1];
      if HasStarted(p, init, x.id) {
        if x in ResultsTold(p, init) {
          ToldNames(p, init, x);
        } else {
          assert Named(ResultsTold(p, init), x.id, x.name);
          var o :| Told(x.id, x.name, o) in ResultsTold(p, init);
          ToldNames(p, init, Told(x.id, x.name, o));
        }
      }
    }
  }

  lemma {:induction false} DeliveredPrefix(ms: seq<ProviderMessage>, k: nat, n: nat, o: Output)
    requires k <= n <= |ms|
    ensures DeliveredAs(ms[k..n], o) ==> DeliveredAs(ms[..n], o)
    ensures DeliveredAs(ms[..k], o) ==> DeliveredAs(ms[..n], o)
  {
    if i :| 0 <= i < n - k && ms[k..n][i].Results? && o in ms[k..n][i].outputs { assert o in ms[..n][k + i].outputs; }
    if i :| 0 <= i < k && ms[..k][i].Results? && o in ms[..k][i].outputs { assert o in ms[..n][i].outputs; }
  }

  lemma {:induction false} DeliveredConcat(ms: seq<ProviderMessage>, k: nat, n: nat, id: string)
    requires k <= n <= |ms| && Delivered(ms[..n], id)
    ensures Delivered(ms[..k], id) || Delivered(ms[k..n], id)
  {
    var i :| 0 <= i < n && Delivers(ms[..n][i], id);
    if i < k { assert Delivers(ms[..k][i], id); } else { assert Delivers(ms[k..n][i - k], id); }
  }

  /** The result is one that was delivered, under the delivered name unless the tool had started. */
  ghost predicate AsDelivered(ms: seq<ProviderMessage>, x: Told, started: bool) {
    exists o :: DeliveredAs(ms, o) && o.id == x.id && o.output == x.output && (started || o.name == x.name)
  }

  lemma {:induction false} SliceDelivers(ms: seq<ProviderMessage>, k: nat, n: nat, before: iset<Told>, started: iset<string>, x: Told)
    requires k <= n <= |ms| && x in ResultsAfter(before, ms[k..n], started) && Delivered(ms[k..n], x.id)
    ensures AsDelivered(ms[..n], x, x.id in started)
  {
    if x.id in started {
      var o :| DeliveredAs(ms[k..n], o) && o.id == x.id && o.output == x.output;
      DeliveredPrefix(ms, k, n, o);
    } else {
      DeliveredPrefix(ms, k, n, Output(x.id, x.name, x.output));
    }
  }

  lemma {:induction false} LaterDelivers(ms: seq<ProviderMessage>, k: nat, n: nat, x: Told, started: bool)
    requires k <= n <= |ms| && AsDelivered(ms[..k], x, started)
    ensures AsDelivered(ms[..n], x, started)
  {
    var o :| DeliveredAs(ms[..k], o) && o.id == x.id && o.output == x.output && (started || o.name == x.name);
    DeliveredPrefix(ms, k, n, o);
  }

  /** A tool whose result is stored starts no more. */
  lemma {:induction false} DeliveredStartsNoMore(p: Script, t: Turn, c: Call)
    requires IdsOnce(p.messages) && StoredBlocks(p, t) && Delivered(p.messages[..t.persisted], c.id)
    ensures !Enabled(p, t, ToolStart(c))
  {
    DeliveredWasAsked(p.messages[..t.persisted], c.id);
    if Enabled(p, t, ToolStart(c)) { StartAsked(p, t, c); }
  }

  /** Once its result is stored, and unless a completion came later, a result is told as it was delivered. */
  lemma {:induction false} StoredResultsAreDelivered(p: Script, es: seq<Event>, x: Told)
    requires IdsOnce(p.messages) && x in ResultsTold(p, es) && !CompletedLate(p, es, x.id)
    requires StoredBlocks(p, Run(p, es)) && Delivered(p.messages[..Run(p, es).persisted], x.id)
    ensures AsDelivered(p.messages[..Run(p, es).persisted], x, HasStarted(p, es, x.id))
  {
    if es != [] {
      var init, e := es[..|es| - 1], es[|es| - 1];
      var t, n := Run(p, init), Run(p, es).persisted;
      RunStoresBlocks(p, init);
      if Enabled(p, t, e) && Slice(p, t, e).Some? {
        SliceGrows(p, t, e);
        DeliveredConcat(p.messages, t.persisted, n, x.id);
        if Delivered(p.messages[t.persisted..n], x.id) {
          SliceDelivers(p.messages, t.persisted, n, ResultsTold(p, init), StartedIds(p, init), x);
        } else {
          StoredResultsAreDelivered(p, init, x);
          LaterDelivers(p.messages, t.persisted, n, x, HasStarted(p, init, x.id));
        }
      } else {
        if Enabled(p, t, e) { SliceGrows(p, t, e); }
        if e.ToolStart? && e.call.id == x.id { DeliveredStartsNoMore(p, t, e.call); }
        StoredResultsAreDelivered(p, init, x);
      }
    }
  }

  /** In every turn that completes, each call row holds exactly the name and input of the call the provider asked for
      under that id. Each result row holds exactly the output the provider delivered, unless a completion of the tool
      was reported after that, and the name the tool started with, or the delivered one if it never started. */
  lemma {:induction false} CompletedRowsHoldTheirCalls(p: Script, es: seq<Event>, i: nat)
    requires IdsOnce(p.messages) && Enabled(p, Run(p, es), Complete) && i < |Step(p, Run(p, es), Complete).rows|
    ensures var row := Step(p, Run(p, es), Complete).rows[i];
      && (row.role.Assistant? && row.calls.Parts? ==> forall part :: part in row.calls.parts ==> AskedAs(p.messages, part))
      && (row.role.Tool? && HasStarted(p, es, row.callId) ==> StartedAs(p, es, row.callId, row.toolName))
      && (row.role.Tool? && !CompletedLate(p, es, row.callId) ==>
            AsDelivered(p.messages, Told(row.callId, row.toolName, row.content), HasStarted(p, es, row.callId)))
  {
    var all := es + [Complete];
    var u := Run(p, all);
    assert all[..|all| - 1] == es;
    RowsHoldWhatWasTold(p, all);
    RunKeepsInv(p, all);
    RunStoresBlocks(p, all);
    var row := u.rows[i];
    assert p.messages[..u.persisted] == p.messages;
    assert RowTells(row, CallsTold(p, all), ResultsTold(p, all));
    if row.role.Assistant? && row.calls.Parts? {
      forall part | part in row.calls.parts ensures AskedAs(p.messages, part) {
        PartAsksFor(row, part);
        CompletedRowIsAsked(p, u, i, part.id);
        StoredCallsAreAsked(p, all, part);
      }
    }
    if row.role.Tool? {
      var x := Told(row.callId, row.toolName, row.content);
      assert HasStarted(p, all, x.id) <==> HasStarted(p, es, x.id);
      if HasStarted(p, all, x.id) {
        ToldNames(p, all, x);
      }
      CompletedRowIsAsked(p, u, i, x.id);
      AskedIsDelivered(p.messages, x.id);
      if !CompletedLate(p, es, x.id) { StoredResultsAreDelivered(p, all, x); }
    }
  }

  lemma {:induction false} CompletedRowIsAsked(p: Script, u: Turn, i: nat, id: string)
    requires Inv(p, u) && u.persisted == |p.messages| && i < |u.rows|
    requires AsksFor(u.rows[i], id) || (u.rows[i].role.Tool? && u.rows[i].callId == id)
    ensures AskedIn(p.messages, id)
  {
    assert p.messages[..|p.messages|] == p.messages;
    if !Stored(p, u, id) { UnknownRow(p, u, i, id); }
  }
}
