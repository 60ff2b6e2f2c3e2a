/** What comes out of the line transformer, and what it captures, told from the lines and deltas on the wire. */
module StreamContents {
  import opened Prelude
  import opened ToolReplay
  import opened StreamNormalizer

  // ---------------------------------------------------------------- line by line

  predicate OneLine(s: string) { '\n' !in s }

  function Unlines(lines: seq<string>): string {
    if lines == [] then "" else Unlines(lines[..|lines| - 1]) + (lines[|lines| - 1] + "\n")
  }

  /** Splitting a text into lines loses nothing. */
  lemma {:induction false} LinesRejoin(s: string)
    ensures Unlines(Lines(s)) + Tail(s) == s
    ensures OneLine(Tail(s)) && forall l :: l in Lines(s) ==> OneLine(l)
  {
    if s != "" {
      var init, last := s[..|s| - 1], s[|s| - 1];
      LinesRejoin(init);
      assert s == init + [last];
      if last == '\n' {
        ButLast(Lines(init), [Tail(init)]);
        Associate(Unlines(Lines(init)), Tail(init), "\n");
        assert Unlines(Lines(s)) + "" == Unlines(Lines(s));
      } else {
        Associate(Unlines(Lines(init)), Tail(init), [last]);
      }
    }
  }

  /** What the SDK gets for a line: an event line with its event rendered again, any other line as it is. */
  function Sent(codec: Codec, line: string): string {
    if "data: " <= line && line != "data: [DONE]" && codec.parse(line[6..]).Some?
    then "data: " + codec.render(Normal(codec.parse(line[6..]).value)) else line
  }

  function SentAll(codec: Codec, lines: seq<string>): seq<string> {
    seq(|lines|, i requires 0 <= i < |lines| => Sent(codec, lines[i]))
  }

  lemma {:induction false} LineOutIs(codec: Codec, line: string)
    ensures LineOut(codec, line) == Sent(codec, line) + "\n"
  {
  }

  lemma {:induction false} LinesOutAre(codec: Codec, lines: seq<string>)
    ensures LinesOut(codec, lines) == Unlines(SentAll(codec, lines))
  {
    if lines != [] {
      var init, last := lines[..|lines| - 1], lines[|lines| - 1];
      LinesOutAre(codec, init);
      LineOutIs(codec, last);
      assert SentAll(codec, lines) == SentAll(codec, init) + [Sent(codec, last)];
      ButLast(SentAll(codec, init), [Sent(codec, last)]);
    }
  }

  /** However the response is cut, the SDK gets its lines one by one in order, each ended by a newline: events
      normalized, everything else as it came, and an unfinished last line as it is. */
  lemma {:induction false} LinesComeOutInOrder(codec: Codec, chunks: seq<string>)
    ensures var text, s := Joined(chunks), Flushed(FeedAll(codec, chunks));
      && s.buffer == ""
      && s.output == Unlines(SentAll(codec, Lines(text)) + if Tail(text) == "" then [] else [Tail(text)])
  {
    var text := Joined(chunks);
    ChunkingIsInvisible(codec, chunks);
    LinesOutAre(codec, Lines(text));
    var sent := SentAll(codec, Lines(text));
    if Tail(text) == "" {
      assert sent + [] == sent;
    } else {
      ButLast(sent, [Tail(text)]);
      Associate(Unlines(sent), Tail(text), "\n");
    }
  }

  // ---------------------------------------------------------------- normalizing does not touch what is captured

  /** The SDK gets every tool delta with an index and, if it has extra content, with a function object; id, argument
      bytes and extra content are as they came. */
  predicate Acceptable(now: WireTool, was: WireTool, position: nat) {
    && now.index == (if was.index.Some? then was.index else Some(position))
    && (now.extra.Some? ==> now.arguments.Some?)
    && now.id == was.id && now.extra == was.extra && Bytes(now) == Bytes(was)
    && (was.arguments.Some? || was.extra.None? ==> now.arguments == was.arguments)
  }

  /** The argument bytes of a delta, if it has any. */
  function Bytes(t: WireTool): string {
    if t.arguments.Some? && t.arguments.value.Some? then t.arguments.value.value else ""
  }

  lemma {:induction false} ToolIsAcceptable(t: WireTool, position: nat)
    ensures Acceptable(NormalTool(t, position), t, position)
  {
  }

  /** The normalized event has the same choices and deltas in the same order, each acceptable, and the rest as it was. */
  lemma {:induction false} EventIsAcceptable(e: Event)
    ensures var n := Normal(e);
      && n.rest == e.rest && |n.choices| == |e.choices|
      && forall i :: 0 <= i < |e.choices| ==>
           && n.choices[i].index == e.choices[i].index && n.choices[i].reasoning == e.choices[i].reasoning
           && |n.choices[i].tools| == |e.choices[i].tools|
           && forall k :: 0 <= k < |e.choices[i].tools| ==> Acceptable(n.choices[i].tools[k], e.choices[i].tools[k], k)
  {
    forall i, k | 0 <= i < |e.choices| && 0 <= k < |e.choices[i].tools|
      ensures Acceptable(Normal(e).choices[i].tools[k], e.choices[i].tools[k], k)
    {
      ToolIsAcceptable(e.choices[i].tools[k], k);
    }
  }

  // ---------------------------------------------------------------- what is captured, told from the wire

  function ChoicesOf(codec: Codec, line: string): seq<WireChoice> {
    if "data: " <= line && line != "data: [DONE]" && codec.parse(line[6..]).Some? then codec.parse(line[6..]).value.choices else []
  }

  /** All choices of all event lines, in order. */
  function ChoicesIn(codec: Codec, lines: seq<string>): seq<WireChoice> {
    if lines == [] then [] else ChoicesIn(codec, lines[..|lines| - 1]) + ChoicesOf(codec, lines[|lines| - 1])
  }

  function PlaceOf(t: WireTool, position: nat): int { if t.index.Some? then t.index.value else position }

  function BytesFor(ts: seq<WireTool>, index: int): string {
    if ts == [] then ""
    else BytesFor(ts[..|ts| - 1], index) + if PlaceOf(ts[|ts| - 1], |ts| - 1) == index then Bytes(ts[|ts| - 1]) else ""
  }

  function ExtraFor(ts: seq<WireTool>, index: int): Option<J> {
    if ts == [] then None
    else if PlaceOf(ts[|ts| - 1], |ts| - 1) == index && ts[|ts| - 1].extra.Some? then ts[|ts| - 1].extra
    else ExtraFor(ts[..|ts| - 1], index)
  }

  /** The argument bytes on the wire for one call of one choice, the extra content that came last, and the reasoning. */
  function WireBytes(cs: seq<WireChoice>, choice: int, index: int): string {
    if cs == [] then ""
    else WireBytes(cs[..|cs| - 1], choice, index) + if cs[|cs| - 1].index == choice then BytesFor(cs[|cs| - 1].tools, index) else ""
  }

  function WireExtra(cs: seq<WireChoice>, choice: int, index: int): Option<J> {
    if cs == [] then None
    else if cs[|cs| - 1].index == choice && ExtraFor(cs[|cs| - 1].tools, index).Some? then ExtraFor(cs[|cs| - 1].tools, index)
    else WireExtra(cs[..|cs| - 1], choice, index)
  }

  function WireReasoning(cs: seq<WireChoice>, choice: int): seq<J> {
    if cs == [] then []
    else WireReasoning(cs[..|cs| - 1], choice) + if cs[|cs| - 1].index == choice then cs[|cs| - 1].reasoning else []
  }

  lemma {:induction false} ToolsCaptured(ts: seq<WireTool>, index: int)
    ensures FragmentsOf(CapturedTools(ts), index) == BytesFor(ts, index) && LastExtraOf(CapturedTools(ts), index) == ExtraFor(ts, index)
  {
    if ts != [] {
      ToolsCaptured(ts[..|ts| - 1], index);
      assert CapturedTools(ts)[..|ts| - 1] == CapturedTools(ts[..|ts| - 1]);
    }
  }

  lemma {:induction false} ChoicesCaptured(cs: seq<WireChoice>, choice: int, index: int)
    ensures Fragments(CapturedChoices(cs), choice, index) == WireBytes(cs, choice, index)
    ensures LastExtra(CapturedChoices(cs), choice, index) == WireExtra(cs, choice, index)
    ensures Reasoning(CapturedChoices(cs), choice) == WireReasoning(cs, choice)
  {
    if cs != [] {
      ChoicesCaptured(cs[..|cs| - 1], choice, index);
      assert CapturedChoices(cs)[..|cs| - 1] == CapturedChoices(cs[..|cs| - 1]);
      ToolsCaptured(cs[|cs| - 1].tools, index);
    }
  }

  lemma {:induction false} CapturedConcat(a: seq<WireChoice>, b: seq<WireChoice>)
    ensures CapturedChoices(a + b) == CapturedChoices(a) + CapturedChoices(b)
  {
  }

  lemma {:induction false} LinesCaptured(codec: Codec, lines: seq<string>)
    ensures LinesCaptures(codec, lines) == CapturedChoices(ChoicesIn(codec, lines))
  {
    if lines != [] {
      LinesCaptured(codec, lines[..|lines| - 1]);
      CapturedConcat(ChoicesIn(codec, lines[..|lines| - 1]), ChoicesOf(codec, lines[|lines| - 1]));
    }
  }

  /** However the response is cut, each call of the replay table holds exactly the bytes, the last extra content and the
      reasoning that the event lines of the response carry for it. */
  lemma {:induction false} ResponseIsRecorded(codec: Codec, chunks: seq<string>, table: Table, choice: int, index: int)
    ensures var cs, t := ChoicesIn(codec, Lines(Joined(chunks))), CaptureAll(Begin(table), FeedAll(codec, chunks).captured);
      && |t.responses| == |table.responses| + 1
      && SlotIn(t, |table.responses|, choice, index).arguments == WireBytes(cs, choice, index)
      && SlotIn(t, |table.responses|, choice, index).extra == WireExtra(cs, choice, index)
      && StateAt(t.responses[|table.responses|], choice).reasoning == WireReasoning(cs, choice)
  {
    var lines := Lines(Joined(chunks));
    ChunkingIsInvisible(codec, chunks);
    LinesCaptured(codec, lines);
    CaptureConcatenates(table, LinesCaptures(codec, lines), choice, index);
    ChoicesCaptured(ChoicesIn(codec, lines), choice, index);
  }
}
