/** Restoring signed tool calls into an outgoing request body: original bytes, original order, no stale signatures. */
module RequestRestore {
  import opened Prelude
  import opened ToolReplay

  datatype WireCall = WireCall(id: Option<string>, hasFunction: bool, arguments: string, extra: Option<J>)
  datatype Details = NoDetails | NotAList(text: string) | Details(items: seq<J>)
  datatype WireMessage = WireAssistant(calls: seq<WireCall>, details: Details) | WireUser(text: string) | WireOther(text: string)

  // ---------------------------------------------------------------- signatures

  const GEMINI := Opaque("google-gemini-v1")

  predicate IsGemini(d: J) { d.Record? && "format" in d.fields && d.fields["format"] == GEMINI }

  function WithoutGemini(ds: seq<J>): seq<J> {
    if ds == [] then [] else (if IsGemini(ds[0]) then [] else [ds[0]]) + WithoutGemini(ds[1..])
  }

  function StripDetails(d: Details): Details {
    if !d.Details? then d
    else if WithoutGemini(d.items) == [] then NoDetails
    else Details(WithoutGemini(d.items))
  }

  predicate Signed(extra: Option<J>) {
    && extra.Some? && extra.value.Record? && "google" in extra.value.fields
    && extra.value.fields["google"].Record? && "thought_signature" in extra.value.fields["google"].fields
  }

  function StripExtra(extra: Option<J>): Option<J> {
    if !Signed(extra) then extra
    else
      var google := extra.value.fields["google"].fields - {"thought_signature"};
      var rest := if google == map[] then extra.value.fields - {"google"} else extra.value.fields["google" := Record(google)];
      if rest == map[] then None else Some(Record(rest))
  }

  lemma {:induction false} WithoutGeminiKeeps(ds: seq<J>)
    ensures forall d :: d in WithoutGemini(ds) <==> d in ds && !IsGemini(d)
  {
    if ds != [] {
      WithoutGeminiKeeps(ds[1..]);
      assert ds == [ds[0]] + ds[1..];
    }
  }

  lemma {:induction false} NothingToRemove(ds: seq<J>)
    requires forall d :: d in ds ==> !IsGemini(d)
    ensures WithoutGemini(ds) == ds
  {
    if ds != [] {
      NothingToRemove(ds[1..]);
      assert ds == [ds[0]] + ds[1..];
    }
  }

  lemma {:induction false} StripDetailsTwice(d: Details)
    ensures StripDetails(StripDetails(d)) == StripDetails(d)
  {
    if d.Details? {
      WithoutGeminiKeeps(d.items);
      NothingToRemove(WithoutGemini(d.items));
    }
  }

  /** A field of a value, if the value is a record that has it. */
  function FieldOf(x: Option<J>, name: string): Option<J> {
    if x.Some? && x.value.Record? && name in x.value.fields then Some(x.value.fields[name]) else None
  }

  /** Without its thought signature, everything else of an extra stays; records left empty go. */
  ghost predicate Unsigned(before: Option<J>, after: Option<J>) {
    if FieldOf(FieldOf(before, "google"), "thought_signature").None? then after == before
    else
      && (forall name :: name != "google" ==> FieldOf(after, name) == FieldOf(before, name))
      && (forall name :: FieldOf(FieldOf(after, "google"), name)
                         == if name == "thought_signature" then None else FieldOf(FieldOf(before, "google"), name))
      && (FieldOf(after, "google").None? <==> before.value.fields["google"].fields.Keys == {"thought_signature"})
      && (after.None? <==> before.value.fields.Keys == {"google"} && FieldOf(after, "google").None?)
  }

  lemma {:induction false} StripTakesTheSignature(extra: Option<J>)
    ensures Unsigned(extra, StripExtra(extra))
  {
    if Signed(extra) {
      var fields := extra.value.fields;
      var google := fields["google"].fields - {"thought_signature"};
      assert google == map[] <==> fields["google"].fields.Keys == {"thought_signature"} by {
        if google == map[] { assert forall k :: k in fields["google"].fields.Keys ==> k == "thought_signature" || k in google; }
      }
      var rest := if google == map[] then fields - {"google"} else fields["google" := Record(google)];
      if rest == map[] { assert forall k :: k in fields.Keys ==> k == "google" || k in rest; }
    }
  }

  /** The filter goes element by element, so what it keeps stays in order. */
  lemma {:induction false} FilterConcat(a: seq<J>, b: seq<J>)
    ensures WithoutGemini(a + b) == WithoutGemini(a) + WithoutGemini(b)
  {
    if a == [] {
      assert a + b == b;
    } else {
      FilterConcat(a[1..], b);
      assert (a + b)[1..] == a[1..] + b;
    }
  }

  lemma {:induction false} StripExtraTwice(extra: Option<J>)
    ensures !Signed(StripExtra(extra)) && StripExtra(StripExtra(extra)) == StripExtra(extra)
  {
  }

  // ---------------------------------------------------------------- one message

  function KeyOf(table: Table, c: WireCall): int {
    match Resolve(table, c.id.GetOr(""))
    case Some(r) => r.index
    case None => 0
  }

  function Insert(table: Table, c: WireCall, cs: seq<WireCall>): seq<WireCall> {
    if cs == [] then [c]
    else if KeyOf(table, c) <= KeyOf(table, cs[0]) then [c] + cs
    else [cs[0]] + Insert(table, c, cs[1..])
  }

  /** The stable sort by original index. */
  function Ordered(table: Table, cs: seq<WireCall>): seq<WireCall> {
    if cs == [] then [] else Insert(table, cs[0], Ordered(table, cs[1..]))
  }

  predicate Known(table: Table, c: WireCall) { c.id.Some? && Resolve(table, c.id.value).Some? && c.hasFunction }

  function RestoreCall(table: Table, c: WireCall): WireCall {
    if !Known(table, c) then c
    else var r := Resolve(table, c.id.value).value;
         c.(arguments := r.arguments, extra := if r.extra.Some? then r.extra else c.extra)
  }

  function RestoreCalls(table: Table, cs: seq<WireCall>): (r: seq<WireCall>)
    ensures |r| == |cs| && forall i :: 0 <= i < |cs| ==> r[i] == RestoreCall(table, cs[i])
  {
    seq(|cs|, i requires 0 <= i < |cs| => RestoreCall(table, cs[i]))
  }

  /** The reasoning of the last restored call that has any. */
  function RestoreDetails(table: Table, cs: seq<WireCall>, details: Details): Details {
    if cs == [] then details
    else
      var c := cs[|cs| - 1];
      if Known(table, c) && Resolve(table, c.id.value).value.reasoning != [] then Details(Resolve(table, c.id.value).value.reasoning)
      else RestoreDetails(table, cs[..|cs| - 1], details)
  }

  function StripCalls(cs: seq<WireCall>): (r: seq<WireCall>)
    ensures |r| == |cs| && forall i :: 0 <= i < |cs| ==> r[i] == cs[i].(extra := StripExtra(cs[i].extra))
  {
    seq(|cs|, i requires 0 <= i < |cs| => cs[i].(extra := StripExtra(cs[i].extra)))
  }

  /** One message; `past` says a user message comes after it. */
  function RestoreMessage(table: Table, m: WireMessage, past: bool): WireMessage {
    if !m.WireAssistant? then m
    else
      var ordered := Ordered(table, m.calls);
      var calls, details := RestoreCalls(table, ordered), RestoreDetails(table, ordered, m.details);
      if past then WireAssistant(StripCalls(calls), StripDetails(details)) else WireAssistant(calls, details)
  }

  predicate Patches(table: Table, m: WireMessage) {
    m.WireAssistant? && exists i :: 0 <= i < |m.calls| && Known(table, m.calls[i])
  }

  function LastUser(ms: seq<WireMessage>): (r: int)
    ensures -1 <= r < |ms| && (r >= 0 ==> ms[r].WireUser?)
    ensures forall i :: r < i < |ms| ==> !ms[i].WireUser?
  {
    if ms == [] then -1 else if ms[|ms| - 1].WireUser? then |ms| - 1 else LastUser(ms[..|ms| - 1])
  }

  function RestoreAll(table: Table, ms: seq<WireMessage>): (r: seq<WireMessage>)
    ensures |r| == |ms| && forall i :: 0 <= i < |ms| ==> r[i] == RestoreMessage(table, ms[i], i < LastUser(ms))
  {
    seq(|ms|, i requires 0 <= i < |ms| => RestoreMessage(table, ms[i], i < LastUser(ms)))
  }

  predicate Patched(table: Table, ms: seq<WireMessage>) {
    exists i :: 0 <= i < |ms| && Patches(table, ms[i])
  }

  /** restoreRequest on a body that parses; anything else is passed on as it is. */
  function Restore(table: Table, ms: seq<WireMessage>): seq<WireMessage> {
    if table.calls != map[] && Patched(table, ms) then RestoreAll(table, ms) else ms
  }

  method RestoreRequest(table: Table, body: seq<WireMessage>) returns (r: seq<WireMessage>)
    ensures r == Restore(table, body)
  {
    if table.calls == map[] { return body; }
    var lastUserIndex := LastUserIndex(body);
    var messages, patched := body, false;
    for i := 0 to |body|
      invariant |messages| == |body|
      invariant forall j :: 0 <= j < |body| ==> messages[j] == if j < i then RestoreMessage(table, body[j], j < lastUserIndex) else body[j]
      invariant patched <==> exists j :: 0 <= j < i && Patches(table, body[j])
    {
      var message, hit := RestoreOne(table, body[i], i < lastUserIndex);
      messages := messages[i := message];
      patched := patched || hit;
    }
    if patched {
      assert messages == RestoreAll(table, body);
      r := messages;
    } else {
      r := body;
    }
  }

  method LastUserIndex(body: seq<WireMessage>) returns (last: int)
    ensures last == LastUser(body)
  {
    last := -1;
    for i := 0 to |body|
      invariant last == LastUser(body[..i])
    {
      assert body[..i + 1][..i] == body[..i];
      if body[i].WireUser? { last := i; }
    }
    assert body[..|body|] == body;
  }

  method RestoreOne(table: Table, m: WireMessage, past: bool) returns (r: WireMessage, hit: bool)
    ensures r == RestoreMessage(table, m, past) && (hit <==> Patches(table, m))
  {
    if !m.WireAssistant? { return m, false; }
    var ordered := Ordered(table, m.calls);
    var calls, details;
    calls, details, hit := RestoreEach(table, ordered, m.details);
    OrderedKeeps(table, m.calls);
    KnownKept(table, m.calls, ordered);
    if past { calls, details := StripCalls(calls), StripDetails(details); }
    r := WireAssistant(calls, details);
  }

  /** The inner loop over the calls of one message. */
  method RestoreEach(table: Table, cs: seq<WireCall>, was: Details) returns (calls: seq<WireCall>, details: Details, hit: bool)
    ensures calls == RestoreCalls(table, cs) && details == RestoreDetails(table, cs, was)
    ensures hit <==> exists i :: 0 <= i < |cs| && Known(table, cs[i])
  {
    calls, details, hit := cs, was, false;
    for i := 0 to |cs|
      invariant |calls| == |cs|
      invariant forall j :: 0 <= j < |cs| ==> calls[j] == if j < i then RestoreCall(table, cs[j]) else cs[j]
      invariant details == RestoreDetails(table, cs[..i], was)
      invariant hit <==> exists j :: 0 <= j < i && Known(table, cs[j])
    {
      assert cs[..i + 1][..i] == cs[..i];
      var c := cs[i];
      if c.id.Some? && c.hasFunction {
        var replay := Resolve(table, c.id.value);
        if replay.Some? {
          calls := calls[i := c.(arguments := replay.value.arguments, extra := if replay.value.extra.Some? then replay.value.extra else c.extra)];
          if replay.value.reasoning != [] { details := Details(replay.value.reasoning); }
          hit := true;
        }
      }
    }
    assert cs[..|cs|] == cs;
  }

  // ---------------------------------------------------------------- the order

  predicate Sorted(table: Table, cs: seq<WireCall>) {
    forall i, j :: 0 <= i < j < |cs| ==> KeyOf(table, cs[i]) <= KeyOf(table, cs[j])
  }

  /** The calls with one key, in order: what a stable sort leaves alone. */
  function WithKey(table: Table, cs: seq<WireCall>, key: int): seq<WireCall> {
    if cs == [] then [] else (if KeyOf(table, cs[0]) == key then [cs[0]] else []) + WithKey(table, cs[1..], key)
  }

  lemma {:induction false} InsertKeeps(table: Table, c: WireCall, cs: seq<WireCall>)
    ensures multiset(Insert(table, c, cs)) == multiset(cs) + multiset{c}
    ensures forall x :: x in Insert(table, c, cs) <==> x in cs || x == c
  {
    if cs != [] {
      assert cs == [cs[0]] + cs[1..];
      if KeyOf(table, c) > KeyOf(table, cs[0]) { InsertKeeps(table, c, cs[1..]); }
    }
  }

  lemma {:induction false} InsertSorted(table: Table, c: WireCall, cs: seq<WireCall>)
    requires Sorted(table, cs)
    ensures Sorted(table, Insert(table, c, cs))
  {
    if cs != [] && KeyOf(table, c) > KeyOf(table, cs[0]) {
      InsertSorted(table, c, cs[1..]);
      InsertKeeps(table, c, cs[1..]);
      var r := Insert(table, c, cs[1..]);
      forall i | 0 <= i < |r| ensures KeyOf(table, cs[0]) <= KeyOf(table, r[i]) { assert r[i] in r; }
    }
  }

  lemma {:induction false} InsertStable(table: Table, c: WireCall, cs: seq<WireCall>, key: int)
    requires Sorted(table, cs)
    ensures WithKey(table, Insert(table, c, cs), key) == (if KeyOf(table, c) == key then [c] else []) + WithKey(table, cs, key)
  {
    if cs == [] {
      assert [c][1..] == [];
    } else if KeyOf(table, c) <= KeyOf(table, cs[0]) {
      assert ([c] + cs)[1..] == cs;
    } else {
      InsertStable(table, c, cs[1..], key);
      assert ([cs[0]] + Insert(table, c, cs[1..]))[1..] == Insert(table, c, cs[1..]);
      if KeyOf(table, c) == key { NoneWithKey(table, cs, key); }
    }
  }

  lemma {:induction false} NoneWithKey(table: Table, cs: seq<WireCall>, key: int)
    ensures cs != [] && KeyOf(table, cs[0]) == key ==> WithKey(table, cs, key) != []
  {
  }

  lemma {:induction false} OrderedKeeps(table: Table, cs: seq<WireCall>)
    ensures multiset(Ordered(table, cs)) == multiset(cs) && Sorted(table, Ordered(table, cs))
  {
    if cs != [] {
      OrderedKeeps(table, cs[1..]);
      InsertKeeps(table, cs[0], Ordered(table, cs[1..]));
      InsertSorted(table, cs[0], Ordered(table, cs[1..]));
      assert cs == [cs[0]] + cs[1..];
    }
  }

  lemma {:induction false} OrderedStable(table: Table, cs: seq<WireCall>, key: int)
    ensures WithKey(table, Ordered(table, cs), key) == WithKey(table, cs, key)
  {
    if cs != [] {
      OrderedStable(table, cs[1..], key);
      OrderedKeeps(table, cs[1..]);
      InsertStable(table, cs[0], Ordered(table, cs[1..]), key);
    }
  }

  lemma {:induction false} OrderedTwice(table: Table, cs: seq<WireCall>)
    requires Sorted(table, cs)
    ensures Ordered(table, cs) == cs
  {
    if cs != [] {
      OrderedTwice(table, cs[1..]);
      assert cs == [cs[0]] + cs[1..];
    }
  }

  lemma {:induction false} KnownKept(table: Table, cs: seq<WireCall>, ds: seq<WireCall>)
    requires multiset(cs) == multiset(ds)
    ensures (exists i :: 0 <= i < |cs| && Known(table, cs[i])) <==> (exists i :: 0 <= i < |ds| && Known(table, ds[i]))
  {
    if i :| 0 <= i < |cs| && Known(table, cs[i]) {
      assert cs[i] in multiset(ds);
      var j :| 0 <= j < |ds| && ds[j] == cs[i];
    }
    if i :| 0 <= i < |ds| && Known(table, ds[i]) {
      assert ds[i] in multiset(cs);
      var j :| 0 <= j < |cs| && cs[j] == ds[i];
    }
  }

  // ---------------------------------------------------------------- main theorems

  /** `after` is `before` restored: the same calls in original index order, ties as they came, known ones with their
      recorded bytes and extra content, and before the last user message without thought signatures. */
  ghost predicate CallsRestored(table: Table, before: seq<WireCall>, after: seq<WireCall>, past: bool) {
    var ordered := Ordered(table, before);
    && |after| == |ordered| && Sorted(table, after)
    && multiset(ordered) == multiset(before)
    && (forall key :: WithKey(table, ordered, key) == WithKey(table, before, key))
    && (forall k :: 0 <= k < |after| ==> CallRestored(table, ordered[k], after[k], past))
  }

  ghost predicate CallRestored(table: Table, before: WireCall, after: WireCall, past: bool) {
    && after.id == before.id && after.hasFunction == before.hasFunction
    && (if Known(table, before) then
          var r := Resolve(table, before.id.value).value;
          after.arguments == r.arguments && ExtraRestored(if r.extra.Some? then r.extra else before.extra, after.extra, past)
        else after.arguments == before.arguments && ExtraRestored(before.extra, after.extra, past))
  }

  ghost predicate ExtraRestored(extra: Option<J>, after: Option<J>, past: bool) {
    if past then Unsigned(extra, after) else after == extra
  }

  predicate Reasons(table: Table, c: WireCall) { Known(table, c) && Resolve(table, c.id.value).value.reasoning != [] }

  /** The details are the reasoning recorded for the last of the calls that has any, and otherwise as they were. */
  ghost predicate DetailsRestored(table: Table, ordered: seq<WireCall>, before: Details, after: Details) {
    || (after == before && forall k :: 0 <= k < |ordered| ==> !Reasons(table, ordered[k]))
    || exists k :: 0 <= k < |ordered| && Reasons(table, ordered[k])
                   && after == Details(Resolve(table, ordered[k].id.value).value.reasoning)
                   && forall j :: k < j < |ordered| ==> !Reasons(table, ordered[j])
  }

  lemma {:induction false} LastReasoning(table: Table, cs: seq<WireCall>, details: Details)
    ensures DetailsRestored(table, cs, details, RestoreDetails(table, cs, details))
  {
    if cs != [] {
      var init, last := cs[..|cs| - 1], cs[|cs| - 1];
      LastReasoning(table, init, details);
      assert forall k :: 0 <= k < |init| ==> init[k] == cs[k];
      if !Reasons(table, last) {
        var after := RestoreDetails(table, init, details);
        if k :| 0 <= k < |init| && Reasons(table, init[k]) && after == Details(Resolve(table, init[k].id.value).value.reasoning)
                && forall j :: k < j < |init| ==> !Reasons(table, init[j]) {
          assert Reasons(table, cs[k]);
        }
      }
    }
  }

  /** Before the last user message Gemini items go, and with the last of them the details. */
  ghost predicate DetailsPast(before: Details, after: Details) {
    if before.Details? then after == if WithoutGemini(before.items) == [] then NoDetails else Details(WithoutGemini(before.items))
    else after == before
  }

  lemma {:induction false} MessageIsRestored(table: Table, m: WireMessage, past: bool)
    requires m.WireAssistant?
    ensures var r := RestoreMessage(table, m, past);
      && r.WireAssistant? && CallsRestored(table, m.calls, r.calls, past)
      && exists details :: DetailsRestored(table, Ordered(table, m.calls), m.details, details)
                           && if past then DetailsPast(details, r.details) else r.details == details
  {
    OrderedKeeps(table, m.calls);
    forall key ensures WithKey(table, Ordered(table, m.calls), key) == WithKey(table, m.calls, key) { OrderedStable(table, m.calls, key); }
    var ordered, after := Ordered(table, m.calls), RestoreMessage(table, m, past).calls;
    forall k | 0 <= k < |after| ensures CallRestored(table, ordered[k], after[k], past) {
      StripTakesTheSignature(RestoreCall(table, ordered[k]).extra);
    }
    forall i, j | 0 <= i < j < |after| ensures KeyOf(table, after[i]) <= KeyOf(table, after[j]) {
      assert KeyOf(table, ordered[i]) <= KeyOf(table, ordered[j]);
    }
    LastReasoning(table, ordered, m.details);
  }

  /** Whenever a request is patched, every known call carries exactly its recorded bytes and extra content, the calls of
      a message are its own calls in original index order, its details are those recorded for its last call with any,
      and every other message is untouched. */
  lemma {:induction false} PatchedCallsAreOriginal(table: Table, ms: seq<WireMessage>, i: nat)
    requires i < |ms| && table.calls != map[] && Patched(table, ms)
    ensures var r, past := Restore(table, ms), i < LastUser(ms);
      && |r| == |ms|
      && (if ms[i].WireAssistant? then
            && r[i].WireAssistant? && CallsRestored(table, ms[i].calls, r[i].calls, past)
            && exists details :: DetailsRestored(table, Ordered(table, ms[i].calls), ms[i].details, details)
                                 && if past then DetailsPast(details, r[i].details) else r[i].details == details
          else r[i] == ms[i])
  {
    if ms[i].WireAssistant? { MessageIsRestored(table, ms[i], i < LastUser(ms)); }
  }

  /** A request is patched exactly when one of its assistant messages carries a known call. */
  lemma {:induction false} UnpatchedIsUntouched(table: Table, ms: seq<WireMessage>)
    requires forall i, k :: 0 <= i < |ms| && ms[i].WireAssistant? && 0 <= k < |ms[i].calls| ==> !Known(table, ms[i].calls[k])
    ensures Restore(table, ms) == ms
  {
    assert forall i :: 0 <= i < |ms| ==> !Patches(table, ms[i]);
  }

  /** Before the last user message no Gemini reasoning and no thought signature survives a patch. */
  lemma {:induction false} PastIsUnsigned(table: Table, ms: seq<WireMessage>, i: nat)
    requires table.calls != map[] && Patched(table, ms) && i < LastUser(ms) && ms[i].WireAssistant?
    ensures var m := Restore(table, ms)[i];
      && (m.details.Details? ==> m.details.items != [] && forall d :: d in m.details.items ==> !IsGemini(d))
      && forall k :: 0 <= k < |m.calls| ==> !Signed(m.calls[k].extra)
  {
    var m := Restore(table, ms)[i];
    var details := RestoreDetails(table, Ordered(table, ms[i].calls), ms[i].details);
    if details.Details? { WithoutGeminiKeeps(details.items); }
    forall k | 0 <= k < |m.calls| ensures !Signed(m.calls[k].extra) {
      StripExtraTwice(RestoreCalls(table, Ordered(table, ms[i].calls))[k].extra);
    }
  }

  lemma {:induction false} DetailsOfRestored(table: Table, cs: seq<WireCall>, ds: seq<WireCall>, a: Details, b: Details)
    requires |ds| == |cs| && forall k :: 0 <= k < |cs| ==> ds[k].id == cs[k].id && ds[k].hasFunction == cs[k].hasFunction
    ensures RestoreDetails(table, ds, b) == RestoreDetails(table, cs, a) || (RestoreDetails(table, cs, a) == a && RestoreDetails(table, ds, b) == b)
  {
    if cs != [] { DetailsOfRestored(table, cs[..|cs| - 1], ds[..|ds| - 1], a, b); }
  }

  lemma {:induction false} RestoredCallsAgain(table: Table, cs: seq<WireCall>, past: bool)
    requires Sorted(table, cs)
    ensures var once := if past then StripCalls(RestoreCalls(table, cs)) else RestoreCalls(table, cs);
      && Ordered(table, once) == once
      && (if past then StripCalls(RestoreCalls(table, once)) else RestoreCalls(table, once)) == once
  {
    var once := if past then StripCalls(RestoreCalls(table, cs)) else RestoreCalls(table, cs);
    OrderedTwice(table, once);
    var twice := if past then StripCalls(RestoreCalls(table, once)) else RestoreCalls(table, once);
    forall k | 0 <= k < |cs| ensures twice[k] == once[k] { StripExtraTwice(RestoreCall(table, cs[k]).extra); }
  }

  lemma {:induction false} RestoredMessageAgain(table: Table, m: WireMessage, past: bool)
    ensures RestoreMessage(table, RestoreMessage(table, m, past), past) == RestoreMessage(table, m, past)
    ensures Patches(table, RestoreMessage(table, m, past)) <==> Patches(table, m)
  {
    if m.WireAssistant? {
      var cs := Ordered(table, m.calls);
      OrderedKeeps(table, m.calls);
      RestoredCallsAgain(table, cs, past);
      var once := RestoreMessage(table, m, past);
      var details := RestoreDetails(table, cs, m.details);
      DetailsOfRestored(table, cs, once.calls, m.details, once.details);
      StripDetailsTwice(details);
      KnownKept(table, m.calls, cs);
      assert forall k :: 0 <= k < |cs| ==> (Known(table, once.calls[k]) <==> Known(table, cs[k]));
    }
  }

  lemma {:induction false} LastUserSame(ms: seq<WireMessage>, ns: seq<WireMessage>)
    requires |ms| == |ns| && forall i :: 0 <= i < |ms| ==> (ms[i].WireUser? <==> ns[i].WireUser?)
    ensures LastUser(ms) == LastUser(ns)
  {
    if ms != [] { LastUserSame(ms[..|ms| - 1], ns[..|ns| - 1]); }
  }

  /** Restoring a restored request changes nothing more. */
  lemma {:induction false} RestoreIsIdempotent(table: Table, ms: seq<WireMessage>)
    ensures Restore(table, Restore(table, ms)) == Restore(table, ms)
  {
    if table.calls != map[] && Patched(table, ms) {
      var once := RestoreAll(table, ms);
      LastUserSame(ms, once);
      forall i | 0 <= i < |ms| ensures RestoreMessage(table, once[i], i < LastUser(ms)) == once[i] && (Patches(table, once[i]) <==> Patches(table, ms[i])) {
        RestoredMessageAgain(table, ms[i], i < LastUser(ms));
      }
      assert RestoreAll(table, once) == once;
    }
  }

  predicate CarriesId(m: WireMessage, id: string) {
    m.WireAssistant? && exists k :: 0 <= k < |m.calls| && m.calls[k].id == Some(id) && m.calls[k].hasFunction
  }

  /** What a call captured with these fragments and this extra content looks like when it goes out again. */
  predicate AsCaptured(c: WireCall, id: string, arguments: string, extra: Option<J>) {
    c.id == Some(id) && c.hasFunction ==> c.arguments == arguments && (extra.Some? ==> c.extra == extra)
  }

  lemma {:induction false} KnownGoesOut(table: Table, ms: seq<WireMessage>, i: nat, id: string, replay: Replay)
    requires i < |ms| && CarriesId(ms[i], id) && i > LastUser(ms) && Resolve(table, id) == Some(replay)
    ensures var m := Restore(table, ms)[i];
      CarriesId(m, id) && forall k :: 0 <= k < |m.calls| ==> AsCaptured(m.calls[k], id, replay.arguments, replay.extra)
  {
    var k :| 0 <= k < |ms[i].calls| && ms[i].calls[k].id == Some(id) && ms[i].calls[k].hasFunction;
    assert Known(table, ms[i].calls[k]);
    assert Patches(table, ms[i]) && Patched(table, ms);
    PatchedCallsAreOriginal(table, ms, i);
    var ordered, m := Ordered(table, ms[i].calls), Restore(table, ms)[i];
    assert ms[i].calls[k] in multiset(ordered);
    var j :| 0 <= j < |ordered| && ordered[j] == ms[i].calls[k];
    assert CallRestored(table, ordered[j], m.calls[j], false);
    forall x | 0 <= x < |m.calls| ensures AsCaptured(m.calls[x], id, replay.arguments, replay.extra) {
      assert CallRestored(table, ordered[x], m.calls[x], false);
    }
  }

  /** Captured, stored, reloaded and restored: after the last user message a call goes out with exactly the argument
      fragments it came in with and the extra content, with its thought signature, that came last. */
  lemma {:induction false} StreamedBytesGoOutAgain(table: Table, cs: seq<Choice>, ms: seq<Message>, body: seq<WireMessage>, i: nat,
                                id: string, choice: int, index: int)
    requires OnlyThere(cs, id, choice, index) && Named(cs, id) && Mentions(ms, id)
    requires i < |body| && CarriesId(body[i], id) && i > LastUser(body)
    ensures var m := Restore(Reload(Preserve(CaptureAll(Begin(table), cs), ms)), body)[i];
      && CarriesId(m, id)
      && forall k :: 0 <= k < |m.calls| ==> AsCaptured(m.calls[k], id, Fragments(cs, choice, index), LastExtra(cs, choice, index))
  {
    var captured := CaptureAll(Begin(table), cs);
    CapturedCallResolves(table, cs, id, choice, index);
    ReloadRestoresRecords(captured, ms, id);
    KnownGoesOut(Reload(Preserve(captured, ms)), body, i, id, Resolve(captured, id).value);
  }
}
