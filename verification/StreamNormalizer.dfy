/**
  The line transformer between the provider's event stream and the SDK. Chunks are pieces of decoded
  text; parsing and rendering JSON events are parameters, as is whether handling an event throws.
*/
module StreamNormalizer {
  import opened Prelude
  import opened ToolReplay

  /** A tool delta on the wire; `function` is its function object, if it has one. */
  datatype WireTool = WireTool(index: Option<int>, id: Option<string>, arguments: Option<Option<string>>, extra: Option<J>)
  datatype WireChoice = WireChoice(index: int, reasoning: seq<J>, tools: seq<WireTool>)
  datatype Event = Event(choices: seq<WireChoice>, rest: string)

  datatype Codec = Codec(parse: string -> Option<Event>, render: Event -> string)

  // ---------------------------------------------------------------- one event

  /** A missing index becomes the position; a metadata-only delta gets an empty function object. */
  function NormalTool(t: WireTool, position: nat): WireTool {
    WireTool(Some(t.index.GetOr(position)), t.id, if t.arguments.None? && t.extra.Some? then Some(None) else t.arguments, t.extra)
  }

  function NormalTools(ts: seq<WireTool>): (r: seq<WireTool>)
    ensures |r| == |ts| && forall i :: 0 <= i < |ts| ==> r[i] == NormalTool(ts[i], i)
  {
    seq(|ts|, i requires 0 <= i < |ts| => NormalTool(ts[i], i))
  }

  function Normal(e: Event): Event {
    Event(seq(|e.choices|, i requires 0 <= i < |e.choices| => e.choices[i].(tools := NormalTools(e.choices[i].tools))), e.rest)
  }

  function Captured(t: WireTool): ToolDelta {
    ToolDelta(t.index, t.id, match t.arguments case Some(Some(a)) => Some(a) case _ => None, t.extra)
  }

  function CapturedTools(ts: seq<WireTool>): (r: seq<ToolDelta>)
    ensures |r| == |ts| && forall i :: 0 <= i < |ts| ==> r[i] == Captured(ts[i])
  {
    seq(|ts|, i requires 0 <= i < |ts| => Captured(ts[i]))
  }

  function CapturedChoice(c: WireChoice): Choice { Choice(c.index, c.reasoning, CapturedTools(c.tools)) }

  function CapturedChoices(cs: seq<WireChoice>): (r: seq<Choice>)
    ensures |r| == |cs| && forall i :: 0 <= i < |cs| ==> r[i] == CapturedChoice(cs[i])
  {
    seq(|cs|, i requires 0 <= i < |cs| => CapturedChoice(cs[i]))
  }

  // ---------------------------------------------------------------- lines

  const DATA := "data: "
  const DONE := "data: [DONE]"

  function EventOf(codec: Codec, line: string): Option<Event> {
    if DATA <= line && line != DONE then codec.parse(line[|DATA|..]) else None
  }

  /** What a complete line becomes: an event line is rendered again, anything else passes as it is. */
  function LineOut(codec: Codec, line: string): string {
    match EventOf(codec, line)
    case Some(e) => DATA + codec.render(Normal(e)) + "\n"
    case None => line + "\n"
  }

  function LineCaptures(codec: Codec, line: string): seq<Choice> {
    match EventOf(codec, line)
    case Some(e) => CapturedChoices(e.choices)
    case None => []
  }

  function LinesOut(codec: Codec, lines: seq<string>): string {
    if lines == [] then "" else LinesOut(codec, lines[..|lines| - 1]) + LineOut(codec, lines[|lines| - 1])
  }

  function LinesCaptures(codec: Codec, lines: seq<string>): seq<Choice> {
    if lines == [] then [] else LinesCaptures(codec, lines[..|lines| - 1]) + LineCaptures(codec, lines[|lines| - 1])
  }

  /** The complete lines of a text, and what follows the last newline. */
  function Lines(s: string): seq<string> {
    if s == "" then []
    else if s[|s| - 1] == '\n' then Lines(s[..|s| - 1]) + [Tail(s[..|s| - 1])]
    else Lines(s[..|s| - 1])
  }

  function Tail(s: string): string {
    if s == "" || s[|s| - 1] == '\n' then "" else Tail(s[..|s| - 1]) + [s[|s| - 1]]
  }

  // ---------------------------------------------------------------- the transformer

  datatype State = State(buffer: string, output: string, captured: seq<Choice>)

  const FRESH := State("", "", [])

  function Feed(codec: Codec, s: State, chunk: string): State {
    var text := s.buffer + chunk;
    State(Tail(text), s.output + LinesOut(codec, Lines(text)), s.captured + LinesCaptures(codec, Lines(text)))
  }

  function FeedAll(codec: Codec, chunks: seq<string>): State {
    if chunks == [] then FRESH else Feed(codec, FeedAll(codec, chunks[..|chunks| - 1]), chunks[|chunks| - 1])
  }

  /** flush: an unfinished last line passes raw, and is not captured. */
  function Flushed(s: State): State {
    if s.buffer == "" then s else State("", s.output + s.buffer + "\n", s.captured)
  }

  class Normalizer {
    const codec: Codec
    var buffer: string
    var output: string
    var captured: seq<Choice>

    function View(): State
      reads this
    {
      State(buffer, output, captured)
    }

    constructor (codec: Codec)
      ensures View() == FRESH && this.codec == codec
    {
      this.codec := codec;
      buffer, output, captured := "", "", [];
    }

    /** transform: split what is buffered, keep the unfinished end, handle the lines one by one. */
    method Transform(chunk: string)
      modifies this
      ensures View() == Feed(codec, old(View()), chunk)
    {
      var lines := Split(buffer + chunk);
      buffer := lines[|lines| - 1];
      OnLines(lines[..|lines| - 1]);
    }

    method OnLines(lines: seq<string>)
      modifies this`output, this`captured
      ensures output == old(output) + LinesOut(codec, lines)
      ensures captured == old(captured) + LinesCaptures(codec, lines)
    {
      ghost var wasOut, wasCaptured := output, captured;
      for i := 0 to |lines|
        invariant output == wasOut + LinesOut(codec, lines[..i])
        invariant captured == wasCaptured + LinesCaptures(codec, lines[..i])
      {
        NextLine(codec, lines, i);
        Associate(wasOut, LinesOut(codec, lines[..i]), LineOut(codec, lines[i]));
        Associate(wasCaptured, LinesCaptures(codec, lines[..i]), LineCaptures(codec, lines[i]));
        OnLine(lines[i]);
      }
      assert lines[..|lines|] == lines;
    }

    method OnLine(line: string)
      modifies this`output, this`captured
      ensures output == old(output) + LineOut(codec, line)
      ensures captured == old(captured) + LineCaptures(codec, line)
    {
      if DATA <= line && line != DONE {
        var event := codec.parse(line[|DATA|..]);
        if event.Some? {
          captured := captured + CapturedChoices(event.value.choices);
          output := output + (DATA + codec.render(Normal(event.value)) + "\n");
          return;
        }
      }
      output := output + (line + "\n");
    }

    method Flush()
      modifies this
      ensures View() == Flushed(old(View()))
    {
      if buffer != "" {
        output := output + buffer + "\n";
        buffer := "";
      }
    }
  }

  /** String.split at newlines: every complete line, then the rest. */
  method Split(s: string) returns (lines: seq<string>)
    ensures lines == Lines(s) + [Tail(s)]
  {
    lines := [];
    var current := "";
    for i := 0 to |s|
      invariant lines == Lines(s[..i]) && current == Tail(s[..i])
    {
      assert s[..i + 1][..i] == s[..i];
      if s[i] == '\n' {
        lines, current := lines + [current], "";
      } else {
        current := current + [s[i]];
      }
    }
    assert s[..|s|] == s;
    lines := lines + [current];
  }

  lemma {:induction false} NextLine(codec: Codec, lines: seq<string>, i: nat)
    requires i < |lines|
    ensures LinesOut(codec, lines[..i + 1]) == LinesOut(codec, lines[..i]) + LineOut(codec, lines[i])
    ensures LinesCaptures(codec, lines[..i + 1]) == LinesCaptures(codec, lines[..i]) + LineCaptures(codec, lines[i])
  {
    assert lines[..i + 1][..i] == lines[..i];
  }

  // ---------------------------------------------------------------- cutting makes no difference

  lemma {:induction false} LinesOfConcat(a: string, b: string)
    ensures Lines(a + b) == Lines(a) + Lines(Tail(a) + b)
    ensures Tail(a + b) == Tail(Tail(a) + b)
  {
    if b == "" {
      assert a + b == a && Tail(a) + b == Tail(a);
      TailIsOneLine(a);
    } else {
      var init, last := b[..|b| - 1], b[|b| - 1];
      LinesOfConcat(a, init);
      ButLast(a, b);
      ButLast(Tail(a), b);
    }
  }

  lemma {:induction false} TailIsOneLine(a: string)
    ensures Lines(Tail(a)) == [] && Tail(Tail(a)) == Tail(a)
    ensures Lines(a) + Lines(Tail(a)) == Lines(a)
  {
    if a != "" && a[|a| - 1] != '\n' {
      TailIsOneLine(a[..|a| - 1]);
      assert Tail(a)[..|Tail(a)| - 1] == Tail(a[..|a| - 1]);
    }
  }

  lemma {:induction false} OutConcat(codec: Codec, a: seq<string>, b: seq<string>)
    ensures LinesOut(codec, a + b) == LinesOut(codec, a) + LinesOut(codec, b)
    ensures LinesCaptures(codec, a + b) == LinesCaptures(codec, a) + LinesCaptures(codec, b)
  {
    if b == [] {
      assert a + b == a;
    } else {
      var init, last := b[..|b| - 1], b[|b| - 1];
      OutConcat(codec, a, init);
      ButLast(a, b);
      Associate(LinesOut(codec, a), LinesOut(codec, init), LineOut(codec, last));
      Associate(LinesCaptures(codec, a), LinesCaptures(codec, init), LineCaptures(codec, last));
    }
  }

  function Joined(chunks: seq<string>): string {
    if chunks == [] then "" else Joined(chunks[..|chunks| - 1]) + chunks[|chunks| - 1]
  }

  /** Main theorem: however a response is cut into chunks, the buffer, the emitted text and the captured
      deltas are those of the whole text taken at once. */
  lemma {:induction false} ChunkingIsInvisible(codec: Codec, chunks: seq<string>)
    ensures var text := Joined(chunks);
      FeedAll(codec, chunks) == State(Tail(text), LinesOut(codec, Lines(text)), LinesCaptures(codec, Lines(text)))
  {
    if chunks != [] {
      var init, last := Joined(chunks[..|chunks| - 1]), chunks[|chunks| - 1];
      ChunkingIsInvisible(codec, chunks[..|chunks| - 1]);
      LinesOfConcat(init, last);
      OutConcat(codec, Lines(init), Lines(Tail(init) + last));
    }
  }

  /** Two cuttings of the same response cannot be told apart, flush included. */
  lemma {:induction false} SameTextSameStream(codec: Codec, a: seq<string>, b: seq<string>)
    requires Joined(a) == Joined(b)
    ensures Flushed(FeedAll(codec, a)) == Flushed(FeedAll(codec, b))
  {
    ChunkingIsInvisible(codec, a);
    ChunkingIsInvisible(codec, b);
  }
}
