/**
  The remote memory inventory: per memory a locator record, a key under its namespace and a vector,
  written and deleted by separate calls. A call may fail after any of them, and a bulk deletion may
  have removed any part of its keys.
*/
module MemoryInventory {
  import opened Prelude

  const DELETE_CHUNK: nat := 100

  type MemoryId = string

  /** The digest of tenant and user, taken as injective. */
  datatype Namespace = Namespace(tenant: string, user: string)

  datatype Key = Key(ns: Namespace, id: MemoryId)

  datatype Memory = Memory(ns: Namespace, kind: string, content: string)

  datatype State = State(records: map<MemoryId, Memory>, keys: map<Key, Memory>, vectors: map<MemoryId, Memory>)

  const EMPTY := State(map[], map[], map[])

  datatype Write =
    | PutRecord(id: MemoryId, memory: Memory)
    | PutKey(id: MemoryId, memory: Memory)
    | Upsert(id: MemoryId, memory: Memory)
    | DropVectors(ids: set<MemoryId>)
    | DropKeys(keys: set<Key>)
    | DropRecords(ids: set<MemoryId>)

  function Apply(s: State, w: Write): State {
    match w
    case PutRecord(id, m) => s.(records := s.records[id := m])
    case PutKey(id, m) => s.(keys := s.keys[Key(m.ns, id) := m])
    case Upsert(id, m) => s.(vectors := s.vectors[id := m])
    case DropVectors(ids) => s.(vectors := s.vectors - ids)
    case DropKeys(keys) => s.(keys := s.keys - keys)
    case DropRecords(ids) => s.(records := s.records - ids)
  }

  /** Where a call stops: after `done` writes and whatever part of the next bulk deletion. */
  datatype Stop = Stop(done: nat, ids: set<MemoryId>, keys: set<Key>)

  /** The part of an interrupted write that took effect: some of a bulk deletion, none of a put. */
  function Part(w: Write, stop: Stop): Write {
    match w
    case DropVectors(ids) => DropVectors(ids * stop.ids)
    case DropKeys(keys) => DropKeys(keys * stop.keys)
    case DropRecords(ids) => DropRecords(ids * stop.ids)
    case _ => DropKeys({})
  }

  function Commit(s: State, ws: seq<Write>, stop: Stop): State
    decreases |ws|
  {
    if ws == [] then s
    else if stop.done == 0 then Apply(s, Part(ws[0], stop))
    else Commit(Apply(s, ws[0]), ws[1..], stop.(done := stop.done - 1))
  }

  // ---------------------------------------------------------------- the calls

  /** The namespace keys a deletion goes for: the locator's namespace and the caller's hint. */
  function KeysOf(s: State, ids: set<MemoryId>, hints: map<MemoryId, Namespace>): set<Key> {
    (set id | id in ids && id in s.records :: Key(s.records[id].ns, id)) + (set id | id in ids && id in hints :: Key(hints[id], id))
  }

  /** One chunk of deleteMemoriesByIds. */
  function DeleteWrites(s: State, ids: set<MemoryId>, hints: map<MemoryId, Namespace>): seq<Write> {
    [DropVectors(ids), DropKeys(KeysOf(s, ids, hints)), DropRecords(ids)]
  }

  function Deleted(s: State, ids: set<MemoryId>, hints: map<MemoryId, Namespace>, stop: Stop): State {
    Commit(s, DeleteWrites(s, ids, hints), stop)
  }

  /** writeMemory after the embedding: `valid` and `stillValid` are its two checks. */
  function PutWrites(id: MemoryId, m: Memory, stillValid: bool): seq<Write> {
    [PutRecord(id, m), PutKey(id, m)] + if stillValid then [Upsert(id, m)] else []
  }

  function Written(s: State, id: MemoryId, m: Memory, valid: bool, stillValid: bool, deferred: bool, stop: Stop): State {
    if !valid then s
    else
      var t := Commit(s, PutWrites(id, m, stillValid), stop);
      if stillValid || deferred || stop.done < 2 then t
      else Deleted(t, {id}, map[], stop.(done := stop.done - 2))
  }

  datatype Event =
    | Put(id: MemoryId, memory: Memory, valid: bool, stillValid: bool, deferred: bool, stop: Stop)
    | Delete(ids: set<MemoryId>, hints: map<MemoryId, Namespace>, stop: Stop)

  function Step(s: State, e: Event): State {
    match e
    case Put(id, m, valid, stillValid, deferred, stop) => Written(s, id, m, valid, stillValid, deferred, stop)
    case Delete(ids, hints, stop) => Deleted(s, ids, hints, stop)
  }

  function Run(s: State, es: seq<Event>): State {
    if es == [] then s else Step(Run(s, es[..|es| - 1]), es[|es| - 1])
  }

  // ---------------------------------------------------------------- the invariant

  /** Every vector can be found under its namespace, and every namespace key has its locator. */
  ghost predicate Traceable(s: State) {
    && (forall id :: id in s.vectors ==> Key(s.vectors[id].ns, id) in s.keys)
    && (forall k :: k in s.keys ==> k.id in s.records)
  }

  /** Keys hold what they are named for. */
  ghost predicate KeysMatch(s: State) {
    forall k :: k in s.keys ==> s.keys[k].ns == k.ns
  }

  /** The locator of an id names the namespace of each of its keys. */
  ghost predicate OneHome(s: State, home: MemoryId -> Namespace) {
    && (forall id :: id in s.records ==> s.records[id].ns == home(id))
    && (forall k :: k in s.keys ==> k.ns == home(k.id))
  }

  /** Every key of the ids is one the deletion goes for. */
  ghost predicate Covered(s: State, ids: set<MemoryId>, hints: map<MemoryId, Namespace>) {
    forall k :: k in s.keys && k.id in ids ==>
      (k.id in s.records && s.records[k.id].ns == k.ns) || (k.id in hints && hints[k.id] == k.ns)
  }

  /** One write of a call, and the rest of them. */
  lemma {:induction false} CommitNext(s: State, w: Write, rest: seq<Write>, stop: Stop)
    ensures Commit(s, [w] + rest, stop) ==
      if stop.done == 0 then Apply(s, Part(w, stop)) else Commit(Apply(s, w), rest, stop.(done := stop.done - 1))
  {
    assert ([w] + rest)[1..] == rest;
  }

  lemma {:induction false} CommitPuts(s: State, id: MemoryId, m: Memory, stillValid: bool, stop: Stop)
    ensures var t := Commit(s, PutWrites(id, m, stillValid), stop);
      && t.records == (if stop.done >= 1 then s.records[id := m] else s.records)
      && t.keys == (if stop.done >= 2 then s.keys[Key(m.ns, id) := m] else s.keys)
      && t.vectors == (if stop.done >= 3 && stillValid then s.vectors[id := m] else s.vectors)
  {
    var last := if stillValid then [Upsert(id, m)] else [];
    var s1 := Apply(s, PutRecord(id, m));
    var s2 := Apply(s1, PutKey(id, m));
    assert PutWrites(id, m, stillValid) == [PutRecord(id, m)] + ([PutKey(id, m)] + last);
    CommitNext(s, PutRecord(id, m), [PutKey(id, m)] + last, stop);
    assert s.keys - {} == s.keys && s2.keys - {} == s2.keys;
    if stop.done >= 1 { CommitNext(s1, PutKey(id, m), last, stop.(done := stop.done - 1)); }
    if stop.done >= 2 && stillValid {
      CommitNext(s2, Upsert(id, m), [], stop.(done := stop.done - 2));
      assert [Upsert(id, m)] + [] == last;
    }
  }

  function VectorsLeft(s: State, ids: set<MemoryId>, stop: Stop): map<MemoryId, Memory> {
    s.vectors - if stop.done == 0 then ids * stop.ids else ids
  }

  function KeysLeft(s: State, ids: set<MemoryId>, hints: map<MemoryId, Namespace>, stop: Stop): map<Key, Memory> {
    s.keys - if stop.done == 0 then {} else if stop.done == 1 then KeysOf(s, ids, hints) * stop.keys else KeysOf(s, ids, hints)
  }

  function RecordsLeft(s: State, ids: set<MemoryId>, stop: Stop): map<MemoryId, Memory> {
    s.records - if stop.done < 2 then {} else if stop.done == 2 then ids * stop.ids else ids
  }

  lemma {:induction false} CommitDelete(s: State, ids: set<MemoryId>, hints: map<MemoryId, Namespace>, stop: Stop)
    ensures Deleted(s, ids, hints, stop) == State(RecordsLeft(s, ids, stop), KeysLeft(s, ids, hints, stop), VectorsLeft(s, ids, stop))
  {
    var vectors, keys, records := DropVectors(ids), DropKeys(KeysOf(s, ids, hints)), DropRecords(ids);
    var s1 := Apply(s, vectors);
    var s2 := Apply(s1, keys);
    assert DeleteWrites(s, ids, hints) == [vectors] + ([keys] + [records]);
    CommitNext(s, vectors, [keys] + [records], stop);
    assert s.keys - {} == s.keys && s.records - {} == s.records;
    if stop.done >= 1 { CommitNext(s1, keys, [records], stop.(done := stop.done - 1)); }
    if stop.done >= 2 { CommitNext(s2, records, [], stop.(done := stop.done - 2)); assert [records] + [] == [records]; }
  }

  /** A covered deletion leaves everything traceable wherever it stops, and only a covered one does:
      if an id has a key under a namespace that neither its locator nor the hints name, completing the
      deletion strands that key. */
  lemma {:induction false} DeleteStaysTraceableIff(s: State, ids: set<MemoryId>, hints: map<MemoryId, Namespace>)
    requires Traceable(s)
    ensures (forall stop :: Traceable(Deleted(s, ids, hints, stop))) <==> Covered(s, ids, hints)
  {
    if Covered(s, ids, hints) {
      forall stop ensures Traceable(Deleted(s, ids, hints, stop)) { CoveredDelete(s, ids, hints, stop); }
    } else {
      var k :| k in s.keys && k.id in ids && !((k.id in s.records && s.records[k.id].ns == k.ns) || (k.id in hints && hints[k.id] == k.ns));
      CommitDelete(s, ids, hints, ALL);
      assert k !in KeysOf(s, ids, hints);
      var t := Deleted(s, ids, hints, ALL);
      assert k in t.keys && k.id !in t.records;
      assert !Traceable(t);
    }
  }

  lemma {:induction false} CoveredDelete(s: State, ids: set<MemoryId>, hints: map<MemoryId, Namespace>, stop: Stop)
    requires Traceable(s) && Covered(s, ids, hints)
    ensures Traceable(Deleted(s, ids, hints, stop))
  {
    CommitDelete(s, ids, hints, stop);
    var t := Deleted(s, ids, hints, stop);
    forall id | id in t.vectors ensures Key(t.vectors[id].ns, id) in t.keys {
      if stop.done > 0 { assert Key(s.vectors[id].ns, id) !in KeysOf(s, ids, hints); }
    }
    assert forall k :: k in s.keys && k.id in ids ==> k in KeysOf(s, ids, hints);
  }

  ghost predicate Good(s: State, home: MemoryId -> Namespace) { Traceable(s) && KeysMatch(s) && OneHome(s, home) }

  lemma {:induction false} PutStaysGood(s: State, id: MemoryId, m: Memory, stillValid: bool, stop: Stop, home: MemoryId -> Namespace)
    requires Good(s, home) && m.ns == home(id)
    ensures Good(Commit(s, PutWrites(id, m, stillValid), stop), home)
    ensures stop.done >= 2 ==> Key(m.ns, id) in Commit(s, PutWrites(id, m, stillValid), stop).keys
  {
    CommitPuts(s, id, m, stillValid, stop);
  }

  lemma {:induction false} DeleteStaysGood(s: State, ids: set<MemoryId>, hints: map<MemoryId, Namespace>, stop: Stop, home: MemoryId -> Namespace)
    requires Good(s, home)
    ensures Good(Deleted(s, ids, hints, stop), home)
  {
    CommitDelete(s, ids, hints, stop);
    CoveredDelete(s, ids, hints, stop);
  }

  lemma {:induction false} PutEventStaysGood(s: State, e: Event, home: MemoryId -> Namespace)
    requires Good(s, home) && e.Put? && e.memory.ns == home(e.id)
    ensures Good(Step(s, e), home)
  {
    PutStaysGood(s, e.id, e.memory, e.stillValid, e.stop, home);
    if e.stop.done >= 2 {
      var put := Commit(s, PutWrites(e.id, e.memory, e.stillValid), e.stop);
      DeleteStaysGood(put, {e.id}, map[], e.stop.(done := e.stop.done - 2), home);
    }
  }

  lemma {:induction false} StepStaysGood(s: State, e: Event, home: MemoryId -> Namespace)
    requires Good(s, home) && (e.Put? ==> e.memory.ns == home(e.id))
    ensures Good(Step(s, e), home)
  {
    if e.Put? {
      PutEventStaysGood(s, e, home);
    } else {
      DeleteStaysGood(s, e.ids, e.hints, e.stop, home);
    }
  }

  /** Every write of an id goes to the namespace `home` gives it. */
  ghost predicate WritesAtHome(es: seq<Event>, home: MemoryId -> Namespace) {
    forall k :: 0 <= k < |es| && es[k].Put? ==> es[k].memory.ns == home(es[k].id)
  }

  /** At every crash point of every sequence of writes and deletes in which an id keeps its namespace,
      a vector has its namespace key and the key its locator. */
  lemma {:induction false} AlwaysTraceable(es: seq<Event>, home: MemoryId -> Namespace)
    requires WritesAtHome(es, home)
    ensures Good(Run(EMPTY, es), home)
  {
    if es != [] {
      var fewer := es[..|es| - 1];
      assert WritesAtHome(fewer, home) by {
        forall k | 0 <= k < |fewer| && fewer[k].Put? ensures fewer[k].memory.ns == home(fewer[k].id) { assert fewer[k] == es[k]; }
      }
      AlwaysTraceable(fewer, home);
      StepStaysGood(Run(EMPTY, fewer), es[|es| - 1], home);
    }
  }

  const ALL := Stop(3, {}, {})

  /** An id written under two namespaces and deleted without a hint leaves a key nothing points to. */
  lemma {:induction false} TwoHomesStrandAKey(id: MemoryId, a: Namespace, b: Namespace, kind: string, text: string)
    requires a != b
    ensures var s1 := Step(EMPTY, Put(id, Memory(a, kind, text), true, true, false, ALL));
      var s2 := Step(s1, Put(id, Memory(b, kind, text), true, true, false, ALL));
      var s3 := Step(s2, Delete({id}, map[], ALL));
      Key(a, id) in s3.keys && id !in s3.records && id !in s3.vectors
  {
    CommitPuts(EMPTY, id, Memory(a, kind, text), true, ALL);
    var s1 := Step(EMPTY, Put(id, Memory(a, kind, text), true, true, false, ALL));
    CommitPuts(s1, id, Memory(b, kind, text), true, ALL);
    var s2 := Step(s1, Put(id, Memory(b, kind, text), true, true, false, ALL));
    CommitDelete(s2, {id}, map[], ALL);
    assert Key(a, id) !in KeysOf(s2, {id}, map[]);
  }

  // ---------------------------------------------------------------- reads

  /** What the index returns: any id, with any namespace and kind in its metadata. */
  datatype Hit = Hit(id: MemoryId, ns: Namespace, kind: string)

  datatype Match = Match(id: MemoryId, memory: Memory)

  function Live(s: State, h: Hit): Option<Match> {
    if Key(h.ns, h.id) in s.keys && s.keys[Key(h.ns, h.id)].ns == h.ns then Some(Match(h.id, s.keys[Key(h.ns, h.id)])) else None
  }

  function Active(s: State, hits: seq<Hit>): seq<Match> {
    if hits == [] then []
    else Active(s, hits[..|hits| - 1]) + match Live(s, hits[|hits| - 1]) case Some(m) => [m] case None => []
  }

  /** What queryMemory wants of a hit; no kinds means any kind. */
  predicate Wanted(h: Hit, ns: Namespace, kinds: set<string>) { h.ns == ns && (kinds == {} || h.kind in kinds) }

  /** queryMemory's own filter before the inventory is consulted. */
  function Asked(hits: seq<Hit>, ns: Namespace, kinds: set<string>): seq<Hit> {
    if hits == [] then []
    else Asked(hits[..|hits| - 1], ns, kinds) + if Wanted(hits[|hits| - 1], ns, kinds) then [hits[|hits| - 1]] else []
  }

  lemma {:induction false} AskedIff(hits: seq<Hit>, ns: Namespace, kinds: set<string>, h: Hit)
    ensures h in Asked(hits, ns, kinds) <==> h in hits && Wanted(h, ns, kinds)
  {
    if hits != [] {
      AskedIff(hits[..|hits| - 1], ns, kinds, h);
      assert hits == hits[..|hits| - 1] + [hits[|hits| - 1]];
    }
  }

  lemma {:induction false} ActiveAreStored(s: State, hits: seq<Hit>, m: Match)
    requires m in Active(s, hits)
    ensures exists h :: h in hits && Live(s, h) == Some(m)
  {
    if m in Active(s, hits[..|hits| - 1]) {
      ActiveAreStored(s, hits[..|hits| - 1], m);
    } else {
      assert hits[|hits| - 1] in hits && Live(s, hits[|hits| - 1]) == Some(m);
    }
  }

  lemma {:induction false} StoredAreActive(s: State, hits: seq<Hit>, h: Hit, m: Match)
    requires h in hits && Live(s, h) == Some(m)
    ensures m in Active(s, hits)
  {
    if h in hits[..|hits| - 1] { StoredAreActive(s, hits[..|hits| - 1], h, m); }
  }

  /** The index named the memory, under the caller's namespace and with a kind the caller asked for. */
  ghost predicate Named(hits: seq<Hit>, ns: Namespace, kinds: set<string>, id: MemoryId) {
    exists h :: h in hits && h.id == id && Wanted(h, ns, kinds)
  }

  /** Whatever the index answers, a query returns a memory if and only if the index named it as asked and the
      caller's namespace holds it now, and returns it with the content stored there. */
  lemma {:induction false} QueriesReadTheInventory(s: State, hits: seq<Hit>, ns: Namespace, kinds: set<string>, m: Match)
    requires KeysMatch(s)
    ensures m in Active(s, Asked(hits, ns, kinds)) <==>
      Named(hits, ns, kinds, m.id) && Key(ns, m.id) in s.keys && s.keys[Key(ns, m.id)] == m.memory
  {
    var asked := Asked(hits, ns, kinds);
    if m in Active(s, asked) {
      ActiveAreStored(s, asked, m);
      var h :| h in asked && Live(s, h) == Some(m);
      AskedIff(hits, ns, kinds, h);
    }
    if Named(hits, ns, kinds, m.id) && Key(ns, m.id) in s.keys && s.keys[Key(ns, m.id)] == m.memory {
      var h :| h in hits && h.id == m.id && Wanted(h, ns, kinds);
      AskedIff(hits, ns, kinds, h);
      assert Live(s, h) == Some(m);
      StoredAreActive(s, asked, h, m);
    }
  }

  /** The index agrees with the inventory about the kind of every live memory of the namespace it names. */
  predicate KindsAgree(s: State, hits: seq<Hit>, ns: Namespace) {
    forall i :: 0 <= i < |hits| && hits[i].ns == ns && Key(ns, hits[i].id) in s.keys ==> s.keys[Key(ns, hits[i].id)].kind == hits[i].kind
  }

  ghost predicate OnlyAskedKinds(s: State, hits: seq<Hit>, ns: Namespace) {
    forall kinds, m :: kinds != {} && m in Active(s, Asked(hits, ns, kinds)) ==> m.memory.kind in kinds
  }

  /** The kinds asked for are compared with the index's metadata only: every filtered query returns memories
      of those kinds alone if and only if the index agrees with the inventory. */
  lemma {:induction false} KindsAreRespectedIff(s: State, hits: seq<Hit>, ns: Namespace)
    requires KeysMatch(s)
    ensures OnlyAskedKinds(s, hits, ns) <==> KindsAgree(s, hits, ns)
  {
    if KindsAgree(s, hits, ns) {
      forall kinds, m | kinds != {} && m in Active(s, Asked(hits, ns, kinds)) ensures m.memory.kind in kinds {
        QueriesReadTheInventory(s, hits, ns, kinds, m);
      }
    } else {
      var i :| 0 <= i < |hits| && hits[i].ns == ns && Key(ns, hits[i].id) in s.keys && s.keys[Key(ns, hits[i].id)].kind != hits[i].kind;
      var kinds, m := {hits[i].kind}, Match(hits[i].id, s.keys[Key(ns, hits[i].id)]);
      assert hits[i] in hits && Wanted(hits[i], ns, kinds);
      QueriesReadTheInventory(s, hits, ns, kinds, m);
      assert m in Active(s, Asked(hits, ns, kinds)) && m.memory.kind !in kinds;
    }
  }

  /** Once a deletion has completed, no query in any namespace returns the memory, however stale the
      index is. */
  lemma {:induction false} DeletedIsUnreadable(es: seq<Event>, home: MemoryId -> Namespace, ids: set<MemoryId>, hints: map<MemoryId, Namespace>,
                            hits: seq<Hit>, ns: Namespace, kinds: set<string>, m: Match)
    requires WritesAtHome(es, home) && m.id in ids
    ensures m !in Active(Deleted(Run(EMPTY, es), ids, hints, ALL), Asked(hits, ns, kinds))
  {
    var s := Run(EMPTY, es);
    AlwaysTraceable(es, home);
    CommitDelete(s, ids, hints, ALL);
    var t := Deleted(s, ids, hints, ALL);
    assert KeysMatch(t);
    QueriesReadTheInventory(t, hits, ns, kinds, m);
    assert Key(ns, m.id) in s.keys ==> Key(ns, m.id) in KeysOf(s, ids, hints);
  }

  // ---------------------------------------------------------------- the calls in place

  class Inventory {
    var records: map<MemoryId, Memory>
    var keys: map<Key, Memory>
    var vectors: map<MemoryId, Memory>

    function View(): State
      reads this
    {
      State(records, keys, vectors)
    }

    constructor ()
      ensures View() == EMPTY
    {
      records, keys, vectors := map[], map[], map[];
    }

    /** deleteMemoriesByIds without a failure, chunk by chunk. */
    method DeleteByIds(ids: seq<MemoryId>, hints: map<MemoryId, Namespace>)
      modifies this
      ensures View() == Without(old(View()), Among(ids), hints)
    {
      var i := 0;
      assert View() == Without(old(View()), Among(ids[..0]), hints);
      while i < |ids|
        invariant 0 <= i <= |ids|
        invariant View() == Without(old(View()), Among(ids[..i]), hints)
      {
        var end := if i + DELETE_CHUNK <= |ids| then i + DELETE_CHUNK else |ids|;
        var chunk := set k | i <= k < end :: ids[k];
        var found := KeysOf(View(), chunk, hints);
        vectors := vectors - chunk;
        keys := keys - found;
        records := records - chunk;
        AmongGrows(ids, i, end, chunk);
        ChunkDone(old(View()), Among(ids[..i]), chunk, hints);
        i := end;
      }
      assert ids[..i] == ids;
    }

    /** activeInventoryMatches. */
    method ActiveMatches(hits: seq<Hit>) returns (active: seq<Match>)
      ensures active == Active(View(), hits)
    {
      active := [];
      for i := 0 to |hits|
        invariant active == Active(View(), hits[..i])
      {
        assert hits[..i + 1][..i] == hits[..i];
        var key := Key(hits[i].ns, hits[i].id);
        if key in keys && keys[key].ns == hits[i].ns { active := active + [Match(hits[i].id, keys[key])]; }
      }
      assert hits[..|hits|] == hits;
    }
  }

  /** The state without the memories `ids`, as one deletion would leave it. */
  function Without(s: State, ids: set<MemoryId>, hints: map<MemoryId, Namespace>): State {
    State(s.records - ids, s.keys - KeysOf(s, ids, hints), s.vectors - ids)
  }

  /** Deleting chunk after chunk, each by the locators still there, is deleting them all at once. */
  lemma {:induction false} ChunkDone(s: State, done: set<MemoryId>, chunk: set<MemoryId>, hints: map<MemoryId, Namespace>)
    ensures Without(Without(s, done, hints), chunk, hints) == Without(s, done + chunk, hints)
  {
    SplitKeys(s, done, chunk, KeysOf(Without(s, done, hints), chunk, hints), hints);
    assert s.records - done - chunk == s.records - (done + chunk) && s.vectors - done - chunk == s.vectors - (done + chunk);
  }

  function Among(ids: seq<MemoryId>): set<MemoryId> { set id | id in ids }

  lemma {:induction false} AmongGrows(ids: seq<MemoryId>, i: nat, end: nat, chunk: set<MemoryId>)
    requires i <= end <= |ids| && chunk == set k | i <= k < end :: ids[k]
    ensures Among(ids[..end]) == Among(ids[..i]) + chunk
  {
    assert ids[..end] == ids[..i] + ids[i..end];
    forall id ensures id in ids[i..end] <==> id in chunk {
      if id in ids[i..end] { var k :| 0 <= k < |ids[i..end]| && ids[i..end][k] == id; assert ids[i + k] == id; }
      if id in chunk { var k :| i <= k < end && ids[k] == id; assert ids[i..end][k - i] == id; }
    }
  }

  /** The keys found chunk by chunk are those found at once. */
  lemma {:induction false} SplitKeys(s: State, done: set<MemoryId>, chunk: set<MemoryId>, found: set<Key>, hints: map<MemoryId, Namespace>)
    requires found == KeysOf(Without(s, done, hints), chunk, hints)
    ensures KeysOf(s, done + chunk, hints) == KeysOf(s, done, hints) + found
  {
    forall k ensures k in KeysOf(s, done + chunk, hints) <==> k in KeysOf(s, done, hints) + found {
    }
  }
}
