/**
  How one turn writes its rows: tools are journalled when they start, messages are stored step by
  step, the rest at completion, on failure or on stop. A provider's messages are given as a whole;
  each step delivers a longer prefix of them. Row ids play no part here and are left empty.
*/
module TurnTranscript {
  import opened History

  const STOPPED: string := "\n\n_(Stopped)_"
  const UNCONFIRMED: string := "Execution started; completion has not been confirmed. Do not assume it had no effects."

  datatype Output = Output(id: string, name: string, output: string)

  /** A provider message: a plain string, a list of text and tool-call parts, or tool results. */
  datatype ProviderMessage =
    | Text(text: string)
    | Mixed(texts: seq<string>, calls: seq<Call>)
    | Results(outputs: seq<Output>)

  function Join(texts: seq<string>): string {
    if texts == [] then "" else texts[0] + Join(texts[1..])
  }

  function TextOf(m: ProviderMessage): string {
    match m
    case Text(t) => t
    case Mixed(ts, _) => Join(ts)
    case Results(_) => ""
  }

  function AllText(ms: seq<ProviderMessage>): string {
    if ms == [] then "" else AllText(ms[..|ms| - 1]) + TextOf(ms[|ms| - 1])
  }

  // ---------------------------------------------------------------- rows

  function PartOf(c: Call): Part { Part(true, c.id, c.name, c.input) }

  function PartsOf(calls: seq<Call>): (r: seq<Part>)
    ensures |r| == |calls| && forall i :: 0 <= i < |r| ==> r[i] == PartOf(calls[i])
  {
    seq(|calls|, i requires 0 <= i < |calls| => PartOf(calls[i]))
  }

  function AssistantRow(content: string, calls: Calls): Row { Row("", "", Assistant, content, calls, "", "") }
  function ToolRow(o: Output): Row { Row("", "", Tool, o.output, NoCalls, o.id, o.name) }

  function ToolRows(outputs: seq<Output>): (r: seq<Row>)
    ensures |r| == |outputs| && forall i :: 0 <= i < |r| ==> r[i] == ToolRow(outputs[i])
  {
    seq(|outputs|, i requires 0 <= i < |outputs| => ToolRow(outputs[i]))
  }

  /** What appendTurnMessages stores for one message. */
  function RowsFor(m: ProviderMessage): seq<Row> {
    match m
    case Text(t) => [AssistantRow(t, NoCalls)]
    case Mixed(ts, calls) => [AssistantRow(Join(ts), Parts(PartsOf(calls)))]
    case Results(outputs) => ToolRows(outputs)
  }

  function RowsOf(ms: seq<ProviderMessage>): seq<Row> {
    if ms == [] then [] else RowsOf(ms[..|ms| - 1]) + RowsFor(ms[|ms| - 1])
  }

  predicate HasAssistantText(ms: seq<ProviderMessage>) {
    exists i :: 0 <= i < |ms| && TextOf(ms[i]) != ""
  }

  /** appendTurnMessages: the messages, then the text if none of them showed any. */
  function TurnRows(ms: seq<ProviderMessage>, fullText: string): seq<Row> {
    RowsOf(ms) + if fullText != "" && !HasAssistantText(ms) then [AssistantRow(fullText, NoCalls)] else []
  }

  function Visible(rows: seq<Row>): string {
    if rows == [] then ""
    else Visible(rows[..|rows| - 1]) + if rows[|rows| - 1].role.Assistant? then rows[|rows| - 1].content else ""
  }

  // ---------------------------------------------------------------- the journal

  /** Where the call row and the result row of a journalled tool are. */
  datatype Entry = Entry(call: nat, result: nat)
  type Journal = map<string, Entry>

  function KeepCalls(calls: seq<Call>, journal: Journal): seq<Call> {
    if calls == [] then []
    else (if calls[0].id in journal then [] else [calls[0]]) + KeepCalls(calls[1..], journal)
  }

  function KeepOutputs(outputs: seq<Output>, journal: Journal): seq<Output> {
    if outputs == [] then []
    else (if outputs[0].id in journal then [] else [outputs[0]]) + KeepOutputs(outputs[1..], journal)
  }

  /** remainingProviderMessages, without its updates: journalled parts go, and messages with nothing left. */
  function RemainingOf(m: ProviderMessage, journal: Journal): seq<ProviderMessage> {
    match m
    case Text(_) => [m]
    case Mixed(ts, calls) =>
      var kept := KeepCalls(calls, journal);
      if ts == [] && kept == [] then [] else [Mixed(ts, kept)]
    case Results(outputs) =>
      var kept := KeepOutputs(outputs, journal);
      if kept == [] then [] else [Results(kept)]
  }

  function Remaining(ms: seq<ProviderMessage>, journal: Journal): seq<ProviderMessage> {
    if ms == [] then [] else Remaining(ms[..|ms| - 1], journal) + RemainingOf(ms[|ms| - 1], journal)
  }

  /** The updates: a journalled call row gets the final call, its result row the final output. */
  function UpdateCalls(rows: seq<Row>, calls: seq<Call>, journal: Journal): (r: seq<Row>)
    ensures |r| == |rows|
  {
    if calls == [] then rows
    else
      var before := UpdateCalls(rows, calls[..|calls| - 1], journal);
      var c := calls[|calls| - 1];
      if c.id in journal && journal[c.id].call < |rows|
      then before[journal[c.id].call := before[journal[c.id].call].(calls := Parts([PartOf(c)]))]
      else before
  }

  function UpdateOutputs(rows: seq<Row>, outputs: seq<Output>, journal: Journal): (r: seq<Row>)
    ensures |r| == |rows|
  {
    if outputs == [] then rows
    else
      var before := UpdateOutputs(rows, outputs[..|outputs| - 1], journal);
      var o := outputs[|outputs| - 1];
      if o.id in journal && journal[o.id].result < |rows|
      then before[journal[o.id].result := before[journal[o.id].result].(content := o.output)]
      else before
  }

  function UpdateFor(rows: seq<Row>, m: ProviderMessage, journal: Journal): (r: seq<Row>)
    ensures |r| == |rows|
  {
    match m
    case Text(_) => rows
    case Mixed(_, calls) => UpdateCalls(rows, calls, journal)
    case Results(outputs) => UpdateOutputs(rows, outputs, journal)
  }

  function Updated(rows: seq<Row>, ms: seq<ProviderMessage>, journal: Journal): (r: seq<Row>)
    ensures |r| == |rows|
  {
    if ms == [] then rows else UpdateFor(Updated(rows, ms[..|ms| - 1], journal), ms[|ms| - 1], journal)
  }

  // ---------------------------------------------------------------- the turn

  datatype Turn = Turn(rows: seq<Row>, journal: Journal, persisted: nat, persistedText: string, text: string,
                       stopped: bool, ended: bool)

  const START := Turn([], map[], 0, "", "", false, false)

  /** What the provider delivers over the whole turn, and what the kernel shows if there was no text. */
  datatype Script = Script(messages: seq<ProviderMessage>, fallback: string)

  function FullText(p: Script): string {
    if AllText(p.messages) == "" then p.fallback else AllText(p.messages)
  }

  datatype Event =
    | Delta(chunk: string)
    | ToolStart(call: Call)
    | ToolComplete(id: string, output: string)
    | StepComplete(upTo: nat)
    | Complete
    | Fail(delivered: nat, partial: string, acted: bool)
    | Abandon                  // any other error: nothing more is stored
    | Stop

  predicate Enabled(p: Script, t: Turn, e: Event) {
    match e
    case Delta(chunk) => !t.stopped && !t.ended && t.text + chunk <= FullText(p)
    case ToolStart(c) => !t.stopped && !t.ended && c.id != "" && t.persisted <= |p.messages| && AskedIn(p.messages[t.persisted..], c.id)
    case ToolComplete(id, _) => true
    case StepComplete(n) => t.persisted <= n <= |p.messages| && Blocks(p.messages[t.persisted..n])
    case Complete => !t.stopped && !t.ended && t.persisted <= |p.messages| && Blocks(p.messages[t.persisted..])
    case Fail(n, _, _) =>
      !t.stopped && !t.ended && t.persisted <= n <= |p.messages| && Blocks(p.messages[t.persisted..n])
    case Abandon => !t.stopped && !t.ended
    case Stop => !t.stopped && !t.ended
  }

  /** Storing the messages up to `n`. */
  function Persist(t: Turn, ms: seq<ProviderMessage>, n: nat, fullText: string): Turn
    requires t.persisted <= n <= |ms|
  {
    var slice := ms[t.persisted..n];
    var completed := Remaining(slice, t.journal);
    t.(rows := Updated(t.rows, slice, t.journal) + TurnRows(completed, fullText),
       persisted := n, persistedText := t.persistedText + AllText(completed))
  }

  /** What the closing row of a failed turn adds to the stored text: the rest of the partial text if that
      starts with it, and otherwise all of the partial text. */
  function Missing(stored: string, partial: string): string {
    if stored <= partial then partial[|stored|..] else partial
  }

  function FailureText(acted: bool): string {
    if acted then "I could not finish this response. Any completed actions still apply."
    else "I could not complete this response. Please try again."
  }

  function Notice(missing: string, acted: bool): string { (if missing == "" then "" else "\n\n") + FailureText(acted) }

  function FailureRow(stored: string, partial: string, acted: bool): Row {
    AssistantRow(Missing(stored, partial) + Notice(Missing(stored, partial), acted), NoCalls)
  }

  function Drop(s: string, n: nat): string { if n <= |s| then s[n..] else "" }

  function Started(t: Turn, c: Call): Turn {
    if c.id in t.journal then t
    else t.(rows := t.rows + [AssistantRow("", Parts([PartOf(c)])), ToolRow(Output(c.id, c.name, UNCONFIRMED))],
            journal := t.journal[c.id := Entry(|t.rows|, |t.rows| + 1)])
  }

  function Step(p: Script, t: Turn, e: Event): Turn
    requires Enabled(p, t, e)
  {
    match e
    case Delta(chunk) => t.(text := t.text + chunk)
    case ToolStart(c) => Started(t, c)
    case ToolComplete(id, output) =>
      if id in t.journal && t.journal[id].result < |t.rows|
      then t.(rows := t.rows[t.journal[id].result := t.rows[t.journal[id].result].(content := output)]) else t
    case StepComplete(n) => if t.stopped || t.ended then t else Persist(t, p.messages, n, "")
    case Complete => Persist(t, p.messages, |p.messages|, Drop(FullText(p), |t.persistedText|)).(ended := true)
    case Fail(n, partial, acted) =>
      var u := Persist(t, p.messages, n, "");
      u.(rows := u.rows + [FailureRow(AllText(p.messages[..n]), partial, acted)], ended := true)
    case Abandon => t.(ended := true)
    case Stop => t.(rows := t.rows + [AssistantRow(Drop(t.text, |t.persistedText|) + STOPPED, NoCalls)], stopped := true)
  }

  function Run(p: Script, es: seq<Event>): Turn {
    if es == [] then START
    else var t := Run(p, es[..|es| - 1]);
         var e := es[|es| - 1];
         if Enabled(p, t, e) then Step(p, t, e) else t
  }

  // ---------------------------------------------------------------- what a provider delivers

  predicate HasCall(calls: seq<Call>, id: string) { exists c :: c in calls && c.id == id }
  predicate HasOutput(outputs: seq<Output>, id: string) { exists o :: o in outputs && o.id == id }

  predicate Asked(m: ProviderMessage, id: string) { m.Mixed? && HasCall(m.calls, id) }

  predicate AskedIn(ms: seq<ProviderMessage>, id: string) {
    exists i :: 0 <= i < |ms| && Asked(ms[i], id)
  }

  predicate SameIds(calls: seq<Call>, outputs: seq<Output>) {
    && (forall c :: c in calls ==> c.id != "" && HasOutput(outputs, c.id))
    && (forall o :: o in outputs ==> HasCall(calls, o.id))
    && (forall i, j :: 0 <= i < j < |outputs| ==> outputs[i].id != outputs[j].id)
  }

  predicate Calling(m: ProviderMessage) { m.Mixed? && m.calls != [] }

  /** Messages in whole blocks: a message that calls tools is followed by exactly their results. */
  predicate Blocks(ms: seq<ProviderMessage>) {
    if ms == [] then true
    else
      var last := ms[|ms| - 1];
      if last.Results?
      then |ms| >= 2 && ms[|ms| - 2].Mixed? && last.outputs != [] && SameIds(ms[|ms| - 2].calls, last.outputs) && Blocks(ms[..|ms| - 2])
      else !Calling(last) && Blocks(ms[..|ms| - 1])
  }

  /** Every call id is used by one message only. */
  ghost predicate IdsOnce(ms: seq<ProviderMessage>) {
    forall i, j, id :: 0 <= i < j < |ms| && Asked(ms[i], id) ==> !Asked(ms[j], id)
  }
}
