/** Summaries of the archived conversation: which messages the next summary takes, and what the stored ranges cover. */
module SummaryMemory {

  datatype Message = Message(sequence: nat, id: string, role: string, content: string)
  datatype Summary = Summary(start: nat, end: nat, count: nat, text: string)
  datatype Options = Options(retain: nat, min: nat, max: nat)

  // ---------------------------------------------------------------- selection

  function Insert(m: Message, ms: seq<Message>): seq<Message> {
    if ms == [] then [m]
    else if ms[0].sequence < m.sequence then [ms[0]] + Insert(m, ms[1..])
    else [m] + ms
  }

  function Sorted(ms: seq<Message>): seq<Message> {
    if ms == [] then [] else Insert(ms[0], Sorted(ms[1..]))
  }

  function After(ms: seq<Message>, last: nat): seq<Message> {
    if ms == [] then [] else (if ms[0].sequence > last then [ms[0]] else []) + After(ms[1..], last)
  }

  function Least(a: nat, b: nat): nat { if a < b then a else b }

  function Select(messages: seq<Message>, last: nat, o: Options): seq<Message> {
    Take(After(Sorted(messages), last), o)
  }

  function Take(unsummarized: seq<Message>, o: Options): (r: seq<Message>)
    ensures r <= unsummarized && |r| <= o.max
    ensures r != [] ==> |r| >= o.min && |unsummarized| - |r| >= o.retain
  {
    if |unsummarized| <= o.retain then []
    else
      var eligible := unsummarized[..|unsummarized| - o.retain];
      var selected := eligible[..Least(o.max, |eligible|)];
      if |selected| < o.min then [] else selected
  }

  ghost predicate Ascending(ms: seq<Message>) {
    forall i, j :: 0 <= i < j < |ms| ==> ms[i].sequence < ms[j].sequence
  }

  predicate DistinctSequences(ms: seq<Message>) {
    forall i, j :: 0 <= i < j < |ms| ==> ms[i].sequence != ms[j].sequence
  }

  lemma {:induction false} InsertKeeps(m: Message, ms: seq<Message>)
    ensures multiset(Insert(m, ms)) == multiset(ms) + multiset{m}
    ensures forall x :: x in Insert(m, ms) <==> x in ms || x == m
  {
    if ms != [] {
      assert ms == [ms[0]] + ms[1..];
      if ms[0].sequence < m.sequence { InsertKeeps(m, ms[1..]); }
    }
  }

  lemma {:induction false} InsertSorts(m: Message, ms: seq<Message>)
    requires Ascending(ms) && forall x :: x in ms ==> x.sequence != m.sequence
    ensures Ascending(Insert(m, ms))
  {
    if ms != [] && ms[0].sequence < m.sequence {
      InsertSorts(m, ms[1..]);
      var r := Insert(m, ms[1..]);
      InsertKeeps(m, ms[1..]);
      forall i | 0 <= i < |r| ensures ms[0].sequence < r[i].sequence { assert r[i] in r; }
    }
  }

  lemma {:induction false} HeadIsNew(ms: seq<Message>, rest: seq<Message>)
    requires DistinctSequences(ms) && ms != [] && multiset(rest) == multiset(ms[1..])
    ensures forall x :: x in rest ==> x.sequence != ms[0].sequence
  {
    forall x | x in rest ensures x.sequence != ms[0].sequence {
      assert x in multiset(rest);
      assert x in ms[1..];
    }
  }

  lemma {:induction false} SortedHolds(ms: seq<Message>)
    ensures multiset(Sorted(ms)) == multiset(ms)
  {
    if ms != [] {
      SortedHolds(ms[1..]);
      InsertKeeps(ms[0], Sorted(ms[1..]));
      assert ms == [ms[0]] + ms[1..];
    }
  }

  lemma {:induction false} SortedSorts(ms: seq<Message>)
    requires DistinctSequences(ms)
    ensures Ascending(Sorted(ms))
  {
    if ms != [] {
      SortedSorts(ms[1..]);
      SortedHolds(ms[1..]);
      HeadIsNew(ms, Sorted(ms[1..]));
      InsertSorts(ms[0], Sorted(ms[1..]));
    }
  }

  lemma {:induction false} SortedKeeps(ms: seq<Message>)
    requires Ascending(ms)
    ensures Sorted(ms) == ms
  {
    if ms != [] {
      SortedKeeps(ms[1..]);
      assert ms == [ms[0]] + ms[1..];
    }
  }

  /** In ascending order, what lies after `last` is a suffix. */
  lemma {:induction false} AfterIsSuffix(ms: seq<Message>, last: nat, cut: nat)
    requires Ascending(ms) && cut <= |ms|
    requires forall i :: 0 <= i < cut ==> ms[i].sequence <= last
    requires forall i :: cut <= i < |ms| ==> ms[i].sequence > last
    ensures After(ms, last) == ms[cut..]
  {
    if ms != [] {
      AfterIsSuffix(ms[1..], last, if cut == 0 then 0 else cut - 1);
      if cut == 0 {
        assert ms[1..][0..] == ms[1..];
        assert ms == [ms[0]] + ms[1..];
      } else {
        assert ms[1..][cut - 1..] == ms[cut..];
      }
    }
  }

  lemma {:induction false} AfterMembers(ms: seq<Message>, last: nat, m: Message)
    ensures m in After(ms, last) <==> m in ms && m.sequence > last
  {
    if ms != [] {
      AfterMembers(ms[1..], last, m);
      assert ms == [ms[0]] + ms[1..];
    }
  }

  lemma {:induction false} AfterAscends(ms: seq<Message>, last: nat)
    requires Ascending(ms)
    ensures Ascending(After(ms, last))
  {
    if ms != [] {
      AfterAscends(ms[1..], last);
      forall i | 0 <= i < |After(ms[1..], last)| ensures ms[0].sequence < After(ms[1..], last)[i].sequence {
        AfterMembers(ms[1..], last, After(ms[1..], last)[i]);
      }
    }
  }

  predicate Waiting(m: Message, messages: seq<Message>, last: nat) { m in messages && m.sequence > last }

  lemma {:induction false} WaitingAreAfter(messages: seq<Message>, last: nat)
    requires multiset(Sorted(messages)) == multiset(messages)
    ensures forall m :: m in After(Sorted(messages), last) <==> Waiting(m, messages, last)
  {
    forall m ensures m in After(Sorted(messages), last) <==> Waiting(m, messages, last) {
      AfterMembers(Sorted(messages), last, m);
      assert m in Sorted(messages) <==> m in multiset(Sorted(messages));
      assert m in messages <==> m in multiset(messages);
    }
  }

  lemma {:induction false} OlderFirst(u: seq<Message>, r: seq<Message>)
    requires Ascending(u) && r <= u
    ensures forall x, y :: x in r && y in u && y !in r ==> x.sequence < y.sequence
  {
    forall x, y | x in r && y in u && y !in r ensures x.sequence < y.sequence {
      var i :| 0 <= i < |r| && r[i] == x;
      forall k | 0 <= k < |r| ensures u[k] in r { assert r[k] == u[k]; }
      var j :| 0 <= j < |u| && u[j] == y;
      assert j >= |r|;
    }
  }

  /** In whatever order the messages come: the selection holds the oldest unsummarized ones in order, within
      its bounds, and leaves at least the retained number of newer ones. It holds as many as the bounds allow. */
  lemma {:induction false} SelectionIsOldest(messages: seq<Message>, last: nat, o: Options, n: nat)
    requires DistinctSequences(messages)
    ensures var r := Select(messages, last, o);
      var u := After(Sorted(messages), last);
      && Ascending(u) && (forall m :: m in u <==> Waiting(m, messages, last))
      && r <= u
      && |r| <= o.max && (r != [] ==> |r| >= o.min && |u| - |r| >= o.retain)
      && (o.min <= n <= o.max && n + o.retain <= |u| ==> n <= |r|)
      && (forall x, y :: x in r && y in u && y !in r ==> x.sequence < y.sequence)
  {
    SortedSorts(messages);
    SortedHolds(messages);
    AfterAscends(Sorted(messages), last);
    WaitingAreAfter(messages, last);
    OlderFirst(After(Sorted(messages), last), Select(messages, last, o));
  }

  // ---------------------------------------------------------------- the store

  function LatestEnd(summaries: seq<Summary>): nat {
    if summaries == [] then 0
    else var rest := LatestEnd(summaries[..|summaries| - 1]);
         if summaries[|summaries| - 1].end > rest then summaries[|summaries| - 1].end else rest
  }

  predicate Archived(archive: seq<Message>, id: string) {
    exists i :: 0 <= i < |archive| && archive[i].id == id
  }

  class SummaryStore {
    var archive: seq<Message>
    var summaries: seq<Summary>

    constructor ()
      ensures archive == [] && summaries == []
    {
      archive, summaries := [], [];
    }

    /** INSERT OR IGNORE of one message; the table hands out a larger sequence number each time. */
    method Archive(m: Message)
      requires forall i :: 0 <= i < |archive| ==> archive[i].sequence < m.sequence
      modifies this`archive
      ensures archive == if Archived(old(archive), m.id) then old(archive) else old(archive) + [m]
    {
      for i := 0 to |archive|
        invariant forall j :: 0 <= j < i ==> archive[j].id != m.id
      {
        if archive[i].id == m.id { return; }
      }
      archive := archive + [m];
    }

    method MaxEnd() returns (last: nat)
      ensures last == LatestEnd(summaries)
    {
      last := 0;
      for i := 0 to |summaries|
        invariant last == LatestEnd(summaries[..i])
      {
        assert summaries[..i + 1][..i] == summaries[..i];
        if summaries[i].end > last { last := summaries[i].end; }
      }
      assert summaries[..|summaries|] == summaries;
    }

    method MessagesForSummary(o: Options) returns (selected: seq<Message>)
      ensures selected == Select(archive, LatestEnd(summaries), o)
    {
      var last := MaxEnd();
      selected := Select(archive, last, o);
    }

    method StoreSummary(text: string, messages: seq<Message>)
      modifies this`summaries
      ensures summaries == old(summaries) + Range(messages, text)
    {
      if |messages| == 0 { return; }
      var ordered := Sorted(messages);
      SortedLength(messages);
      summaries := summaries + [Summary(ordered[0].sequence, ordered[|ordered| - 1].sequence, |ordered|, text)];
    }
  }

  lemma {:induction false} InsertLength(m: Message, ms: seq<Message>)
    ensures |Insert(m, ms)| == |ms| + 1
  {
    if ms != [] { InsertLength(m, ms[1..]); }
  }

  lemma {:induction false} SortedLength(ms: seq<Message>)
    ensures |Sorted(ms)| == |ms|
  {
    if ms != [] {
      SortedLength(ms[1..]);
      InsertLength(ms[0], Sorted(ms[1..]));
    }
  }

  /** The row storeSummary adds, if any. */
  function Range(messages: seq<Message>, text: string): seq<Summary> {
    var ordered := Sorted(messages);
    if |messages| == 0 || |ordered| == 0 then [] else [Summary(ordered[0].sequence, ordered[|ordered| - 1].sequence, |ordered|, text)]
  }

  // ---------------------------------------------------------------- runs

  datatype State = State(archive: seq<Message>, summaries: seq<Summary>, selected: seq<Message>)

  const INIT := State([], [], [])

  datatype Event =
    | ArchiveOne(message: Message)
    | Choose(options: Options)
    | Store(text: string)          // stores what the preceding selection chose

  predicate Enabled(s: State, e: Event) {
    match e
    case ArchiveOne(m) => m.sequence > 0 && forall i :: 0 <= i < |s.archive| ==> s.archive[i].sequence < m.sequence
    case _ => true
  }

  function Step(s: State, e: Event): State
    requires Enabled(s, e)
  {
    match e
    case ArchiveOne(m) => if Archived(s.archive, m.id) then s else s.(archive := s.archive + [m])
    case Choose(o) => s.(selected := Select(s.archive, LatestEnd(s.summaries), o))
    case Store(text) => s.(summaries := s.summaries + Range(s.selected, text), selected := [])
  }

  function Run(s: State, es: seq<Event>): State {
    if es == [] then s
    else var s1 := Run(s, es[..|es| - 1]);
         var e := es[|es| - 1];
         if Enabled(s1, e) then Step(s1, e) else s1
  }

  function Total(summaries: seq<Summary>): nat {
    if summaries == [] then 0 else Total(summaries[..|summaries| - 1]) + summaries[|summaries| - 1].count
  }

  /** Summary `i` stands for the block of messages right after those of the summaries before it. */
  predicate Tile(archive: seq<Message>, summaries: seq<Summary>, i: nat)
    requires i < |summaries|
  {
    var lo := Total(summaries[..i]);
    var s := summaries[i];
    s.count > 0 && lo + s.count <= |archive| && s.start == archive[lo].sequence && s.end == archive[lo + s.count - 1].sequence
  }

  ghost predicate Tiled(archive: seq<Message>, summaries: seq<Summary>) {
    forall i :: 0 <= i < |summaries| ==> Tile(archive, summaries, i)
  }

  ghost predicate Inv(s: State) {
    && Ascending(s.archive) && (forall i :: 0 <= i < |s.archive| ==> s.archive[i].sequence > 0)
    && (forall i, j :: 0 <= i < j < |s.archive| ==> s.archive[i].id != s.archive[j].id)
    && Tiled(s.archive, s.summaries)
    && Total(s.summaries) + |s.selected| <= |s.archive|
    && s.selected == s.archive[Total(s.summaries)..Total(s.summaries) + |s.selected|]
  }

  lemma {:induction false} TotalMonotone(summaries: seq<Summary>, i: nat, j: nat)
    requires i <= j <= |summaries|
    ensures Total(summaries[..i]) <= Total(summaries[..j])
    ensures i < j ==> Total(summaries[..i]) + summaries[i].count <= Total(summaries[..j])
  {
    if i < j {
      TotalMonotone(summaries, i, j - 1);
      assert summaries[..j][..j - 1] == summaries[..j - 1];
    }
  }

  lemma {:induction false} LatestEndIs(s: State)
    requires Inv(s)
    ensures s.summaries != [] ==> Total(s.summaries) > 0
    ensures LatestEnd(s.summaries) == if s.summaries == [] then 0 else s.archive[Total(s.summaries) - 1].sequence
    decreases |s.summaries|
  {
    if s.summaries != [] {
      var n := |s.summaries| - 1;
      var init := s.summaries[..n];
      assert s.summaries[..n] == init;
      assert Tile(s.archive, s.summaries, n);
      forall i | 0 <= i < n ensures Tile(s.archive, init, i) {
        assert Tile(s.archive, s.summaries, i) && init[..i] == s.summaries[..i];
      }
      LatestEndIs(State(s.archive, init, []));
    }
  }

  lemma {:induction false} ArchiveKeepsInv(s: State, m: Message)
    requires Inv(s) && Enabled(s, ArchiveOne(m))
    ensures Inv(Step(s, ArchiveOne(m)))
  {
    var t := Step(s, ArchiveOne(m));
    forall i | 0 <= i < |t.summaries| ensures Tile(t.archive, t.summaries, i) { assert Tile(s.archive, s.summaries, i); }
  }

  lemma {:induction false} SelectionIsPrefix(archive: seq<Message>, last: nat, n: nat, o: Options)
    requires n <= |archive| && After(Sorted(archive), last) == archive[n..]
    ensures var r := Select(archive, last, o);
      n + |r| <= |archive| && r == archive[n..n + |r|] && (r != [] ==> |archive| - (n + |r|) >= o.retain)
  {
    var rest, r := archive[n..], Select(archive, last, o);
    assert r == rest[..|r|];
  }

  lemma {:induction false} SelectionIsBlock(s: State, o: Options)
    requires Inv(s)
    ensures var r, n := Select(s.archive, LatestEnd(s.summaries), o), Total(s.summaries);
      n + |r| <= |s.archive| && r == s.archive[n..n + |r|] && (r != [] ==> |s.archive| - (n + |r|) >= o.retain)
  {
    LatestEndIs(s);
    BlockIsSelected(s.archive, LatestEnd(s.summaries), Total(s.summaries), o);
  }

  lemma {:induction false} BlockIsSelected(archive: seq<Message>, last: nat, n: nat, o: Options)
    requires Ascending(archive) && n <= |archive| && (forall i :: 0 <= i < |archive| ==> archive[i].sequence > 0)
    requires last == if n == 0 then 0 else archive[n - 1].sequence
    ensures var r := Select(archive, last, o);
      n + |r| <= |archive| && r == archive[n..n + |r|] && (r != [] ==> |archive| - (n + |r|) >= o.retain)
  {
    UnsummarizedIs(archive, last, n);
    SelectionIsPrefix(archive, last, n, o);
  }

  lemma {:induction false} UnsummarizedIs(archive: seq<Message>, last: nat, n: nat)
    requires Ascending(archive) && n <= |archive| && (forall i :: 0 <= i < |archive| ==> archive[i].sequence > 0)
    requires last == if n == 0 then 0 else archive[n - 1].sequence
    ensures After(Sorted(archive), last) == archive[n..]
  {
    SortedKeeps(archive);
    AfterIsSuffix(archive, last, n);
  }

  lemma {:induction false} OneMoreTile(archive: seq<Message>, summaries: seq<Summary>, next: Summary)
    requires Tiled(archive, summaries)
    requires next.count > 0 && Total(summaries) + next.count <= |archive|
    requires next.start == archive[Total(summaries)].sequence && next.end == archive[Total(summaries) + next.count - 1].sequence
    ensures Tiled(archive, summaries + [next]) && Total(summaries + [next]) == Total(summaries) + next.count
  {
    var more := summaries + [next];
    assert more[..|summaries|] == summaries;
    forall i | 0 <= i < |more| ensures Tile(archive, more, i) {
      if i < |summaries| {
        assert Tile(archive, summaries, i) && more[..i] == summaries[..i];
      }
    }
  }

  function NextSummary(ms: seq<Message>, text: string): Summary
    requires ms != []
  {
    Summary(ms[0].sequence, ms[|ms| - 1].sequence, |ms|, text)
  }

  lemma {:induction false} RangeOfBlock(ms: seq<Message>, text: string)
    requires ms != [] && Ascending(ms)
    ensures Range(ms, text) == [NextSummary(ms, text)]
  {
    SortedKeeps(ms);
  }

  lemma {:induction false} StoreBlockKeepsInv(s: State, text: string)
    requires Inv(s) && s.selected != []
    ensures Inv(State(s.archive, s.summaries + [NextSummary(s.selected, text)], []))
  {
    OneMoreTile(s.archive, s.summaries, NextSummary(s.selected, text));
  }

  lemma {:induction false} StoreKeepsInv(s: State, text: string)
    requires Inv(s)
    ensures Inv(State(s.archive, s.summaries + Range(s.selected, text), []))
  {
    if s.selected == [] {
      assert s.summaries + Range(s.selected, text) == s.summaries;
    } else {
      assert Ascending(s.selected);
      RangeOfBlock(s.selected, text);
      StoreBlockKeepsInv(s, text);
    }
  }

  lemma {:induction false} StepKeepsInv(s: State, e: Event)
    requires Inv(s) && Enabled(s, e)
    ensures Inv(Step(s, e))
  {
    match e
    case ArchiveOne(m) => ArchiveKeepsInv(s, m);
    case Choose(o) => SelectionIsBlock(s, o);
    case Store(text) => StoreKeepsInv(s, text);
  }

  lemma {:induction false} RunKeepsInv(es: seq<Event>)
    ensures Inv(Run(INIT, es))
  {
    if es != [] {
      RunKeepsInv(es[..|es| - 1]);
      var s := Run(INIT, es[..|es| - 1]);
      if Enabled(s, es[|es| - 1]) { StepKeepsInv(s, es[|es| - 1]); }
    }
  }

  // ---------------------------------------------------------------- main theorems

  predicate Covers(s: Summary, m: Message) { s.start <= m.sequence <= s.end }

  /** The stored ranges are disjoint and increasing. */
  lemma {:induction false} RangesIncrease(es: seq<Event>, i: nat, j: nat)
    requires i < j < |Run(INIT, es).summaries|
    ensures var ss := Run(INIT, es).summaries; ss[i].start <= ss[i].end < ss[j].start
  {
    RunKeepsInv(es);
    TilesIncrease(Run(INIT, es).archive, Run(INIT, es).summaries, i, j);
  }

  lemma {:induction false} TilesIncrease(archive: seq<Message>, summaries: seq<Summary>, i: nat, j: nat)
    requires i < j < |summaries| && Ascending(archive) && Tiled(archive, summaries)
    ensures summaries[i].start <= summaries[i].end < summaries[j].start
  {
    assert Tile(archive, summaries, i) && Tile(archive, summaries, j);
    TotalMonotone(summaries, i, j);
  }

  /** Message `k` is covered by a range exactly when it belongs to that range's block. */
  lemma {:induction false} CoversBlock(s: State, i: nat, k: nat)
    requires Inv(s) && i < |s.summaries| && k < |s.archive|
    ensures Covers(s.summaries[i], s.archive[k]) <==> Total(s.summaries[..i]) <= k < Total(s.summaries[..i]) + s.summaries[i].count
  {
    assert Tile(s.archive, s.summaries, i);
    var lo := Total(s.summaries[..i]);
    assert k < lo ==> s.archive[k].sequence < s.archive[lo].sequence;
    assert k > lo ==> s.archive[lo].sequence < s.archive[k].sequence;
  }

  lemma {:induction false} FindBlock(summaries: seq<Summary>, k: nat) returns (i: nat)
    requires k < Total(summaries)
    ensures i < |summaries| && Total(summaries[..i]) <= k < Total(summaries[..i]) + summaries[i].count
  {
    var n := |summaries| - 1;
    if k >= Total(summaries[..n]) {
      i := n;
    } else {
      i := FindBlock(summaries[..n], k);
      assert summaries[..n][..i] == summaries[..i];
    }
  }

  /** Every archived message up to the latest end lies in exactly one range; no later message lies in any. */
  lemma {:induction false} SummariesTileTheArchive(es: seq<Event>, k: nat)
    requires k < |Run(INIT, es).archive|
    ensures var s := Run(INIT, es);
      if s.archive[k].sequence <= LatestEnd(s.summaries)
      then exists i :: 0 <= i < |s.summaries| && Covers(s.summaries[i], s.archive[k])
             && forall j :: 0 <= j < |s.summaries| && Covers(s.summaries[j], s.archive[k]) ==> j == i
      else forall j :: 0 <= j < |s.summaries| ==> !Covers(s.summaries[j], s.archive[k])
  {
    RunKeepsInv(es);
    var s := Run(INIT, es);
    LatestEndIs(s);
    forall j | 0 <= j < |s.summaries| ensures Covers(s.summaries[j], s.archive[k]) ==> k < Total(s.summaries) {
      CoversBlock(s, j, k);
      TotalMonotone(s.summaries, j, |s.summaries|);
      assert s.summaries[..|s.summaries|] == s.summaries;
    }
    if k < Total(s.summaries) {
      var i := FindBlock(s.summaries, k);
      CoversBlock(s, i, k);
      forall j | 0 <= j < |s.summaries| && Covers(s.summaries[j], s.archive[k]) ensures j == i {
        CoversBlock(s, j, k);
        if i < j { TotalMonotone(s.summaries, i, j); }
        if j < i { TotalMonotone(s.summaries, j, i); }
      }
    }
  }

  /** The counts add up to the messages up to the latest end. */
  lemma {:induction false} CountsAddUp(es: seq<Event>)
    ensures var s := Run(INIT, es);
      var n := Total(s.summaries);
      n <= |s.archive| && forall k :: 0 <= k < |s.archive| ==> (k < n <==> s.archive[k].sequence <= LatestEnd(s.summaries))
  {
    RunKeepsInv(es);
    LatestEndIs(Run(INIT, es));
  }

  /** Whatever is selected, at least the retained number of newest messages stays unsummarized. */
  lemma {:induction false} NewestAreRetained(es: seq<Event>, o: Options)
    ensures var s := Run(INIT, es);
      var r := Select(s.archive, LatestEnd(s.summaries), o);
      r != [] ==> |s.archive| - (Total(s.summaries) + |r|) >= o.retain && r == s.archive[Total(s.summaries)..][..|r|]
  {
    RunKeepsInv(es);
    SelectionIsBlock(Run(INIT, es), o);
  }

  lemma {:induction false} ChooseThenStore(s: State, o: Options, text: string)
    requires Inv(s)
    ensures var r, t := Select(s.archive, LatestEnd(s.summaries), o), Step(Step(s, Choose(o)), Store(text));
      && t.archive == s.archive
      && t.summaries == s.summaries + if r == [] then [] else [Summary(r[0].sequence, r[|r| - 1].sequence, |r|, text)]
  {
    var r := Select(s.archive, LatestEnd(s.summaries), o);
    SelectionIsBlock(s, o);
    if r != [] {
      assert Ascending(r);
      RangeOfBlock(r, text);
    }
  }

  /** A selection that is stored becomes one summary of exactly its messages; an empty one leaves no trace. */
  lemma {:induction false} StoredSummaryIsTheSelection(es: seq<Event>, o: Options, text: string)
    ensures var s, t := Run(INIT, es), Run(INIT, es + [Choose(o)] + [Store(text)]);
      var r := Select(s.archive, LatestEnd(s.summaries), o);
      && t.archive == s.archive
      && t.summaries == s.summaries + if r == [] then [] else [Summary(r[0].sequence, r[|r| - 1].sequence, |r|, text)]
  {
    var chosen := es + [Choose(o)];
    assert chosen[..|es|] == es && (chosen + [Store(text)])[..|chosen|] == chosen;
    RunKeepsInv(es);
    ChooseThenStore(Run(INIT, es), o, text);
  }

  lemma {:induction false} RunConcat(es: seq<Event>, more: seq<Event>)
    ensures Run(INIT, es + more) == if more == [] then Run(INIT, es)
      else var s := Run(INIT, es + more[..|more| - 1]);
           if Enabled(s, more[|more| - 1]) then Step(s, more[|more| - 1]) else s
  {
    if more == [] { assert es + more == es; } else { assert (es + more)[..|es + more| - 1] == es + more[..|more| - 1]; }
  }

  lemma {:induction false} OnlyGrows(es: seq<Event>, more: seq<Event>)
    ensures Run(INIT, es).archive <= Run(INIT, es + more).archive && Run(INIT, es).summaries <= Run(INIT, es + more).summaries
    decreases |more|
  {
    RunConcat(es, more);
    if more != [] {
      OnlyGrows(es, more[..|more| - 1]);
      StepOnlyGrows(Run(INIT, es + more[..|more| - 1]), more[|more| - 1]);
    }
  }

  lemma {:induction false} ArchivedAt(es: seq<Event>, more: seq<Event>, k: nat)
    requires k < |more| && more[k].ArchiveOne? && Enabled(Run(INIT, es + more[..k]), more[k])
    ensures Archived(Run(INIT, es + more[..k + 1]).archive, more[k].message.id)
  {
    RunConcat(es, more[..k + 1]);
    assert more[..k + 1][..k] == more[..k];
    StepOnlyGrows(Run(INIT, es + more[..k]), more[k]);
  }

  lemma {:induction false} ArchivedStays(es: seq<Event>, more: seq<Event>, k: nat)
    requires k < |more| && more[k].ArchiveOne? && Archived(Run(INIT, es + more[..k + 1]).archive, more[k].message.id)
    ensures Archived(Run(INIT, es + more).archive, more[k].message.id)
  {
    OnlyGrows(es + more[..k + 1], more[k + 1..]);
    assert (es + more[..k + 1]) + more[k + 1..] == es + more;
    StillArchived(Run(INIT, es + more[..k + 1]).archive, Run(INIT, es + more).archive, more[k].message.id);
  }

  /** A message is archived once, by its id, and stays as it was archived; so do the summaries. */
  lemma {:induction false} ArchiveOnlyGrows(es: seq<Event>, more: seq<Event>)
    ensures Run(INIT, es).archive <= Run(INIT, es + more).archive && Run(INIT, es).summaries <= Run(INIT, es + more).summaries
    ensures forall k :: 0 <= k < |more| && more[k].ArchiveOne? && Enabled(Run(INIT, es + more[..k]), more[k]) ==>
      Archived(Run(INIT, es + more).archive, more[k].message.id)
  {
    OnlyGrows(es, more);
    forall k | 0 <= k < |more| && more[k].ArchiveOne? && Enabled(Run(INIT, es + more[..k]), more[k])
      ensures Archived(Run(INIT, es + more).archive, more[k].message.id)
    {
      ArchivedAt(es, more, k);
      ArchivedStays(es, more, k);
    }
  }

  lemma {:induction false} StillArchived(a: seq<Message>, b: seq<Message>, id: string)
    requires a <= b && Archived(a, id)
    ensures Archived(b, id)
  {
    var i :| 0 <= i < |a| && a[i].id == id;
    assert b[i].id == id;
  }

  lemma {:induction false} StepOnlyGrows(s: State, e: Event)
    ensures var t := if Enabled(s, e) then Step(s, e) else s; s.archive <= t.archive && s.summaries <= t.summaries
    ensures Enabled(s, e) && e.ArchiveOne? ==> Archived(Step(s, e).archive, e.message.id)
    ensures Enabled(s, e) && e.ArchiveOne? && (forall i :: 0 <= i < |s.archive| ==> s.archive[i].id != e.message.id) ==>
      Step(s, e).archive == s.archive + [e.message]
  {
    if Enabled(s, e) && e.ArchiveOne? && !Archived(s.archive, e.message.id) {
      assert (s.archive + [e.message])[|s.archive|].id == e.message.id;
    }
  }
}
