/** Fixed-window rate limiting over several keys at once, all or nothing. */
module RateLimiter {
  import opened Prelude

  type Key = string
  datatype Counter = Counter(count: nat, resetAt: nat)
  type Table = map<Key, Counter>

  function Pruned(t: Table, now: nat): Table {
    map k | k in t && t[k].resetAt > now :: t[k]
  }

  predicate Blocked(t: Table, keys: seq<Key>, maximum: nat) {
    exists i :: 0 <= i < |keys| && keys[i] in t && t[keys[i]].count >= maximum
  }

  function Bump(t: Table, key: Key, resetAt: nat): Table {
    if key in t then t[key := t[key].(count := t[key].count + 1)] else t[key := Counter(1, resetAt)]
  }

  function BumpAll(t: Table, keys: seq<Key>, resetAt: nat): Table {
    if keys == [] then t else Bump(BumpAll(t, keys[..|keys| - 1], resetAt), keys[|keys| - 1], resetAt)
  }

  function Consumed(t: Table, keys: seq<Key>, maximum: nat, windowMs: nat, now: nat): Table {
    var p := Pruned(t, now);
    if Blocked(p, keys, maximum) then p else BumpAll(p, keys, now + windowMs)
  }

  class Limiter {
    var table: Table

    constructor ()
      ensures table == map[]
    {
      table := map[];
    }

    /** One transaction: drop what has run out, look at every key, then count every key. */
    method Consume(keys: seq<Key>, maximum: nat, windowMs: nat, now: nat) returns (admitted: bool)
      modifies this
      ensures admitted <==> !Blocked(Pruned(old(table), now), keys, maximum)
      ensures table == Consumed(old(table), keys, maximum, windowMs, now)
    {
      table := table - (set k | k in table && table[k].resetAt <= now);
      assert table == Pruned(old(table), now);
      for i := 0 to |keys|
        invariant table == Pruned(old(table), now)
        invariant forall j :: 0 <= j < i ==> !(keys[j] in table && table[keys[j]].count >= maximum)
      {
        if keys[i] in table && table[keys[i]].count >= maximum { return false; }
      }
      ghost var p := table;
      for i := 0 to |keys|
        invariant table == BumpAll(p, keys[..i], now + windowMs)
      {
        assert keys[..i + 1][..i] == keys[..i];
        if keys[i] in table {
          table := table[keys[i] := table[keys[i]].(count := table[keys[i]].count + 1)];
        } else {
          table := table[keys[i] := Counter(1, now + windowMs)];
        }
      }
      assert keys[..|keys|] == keys;
      return true;
    }
  }

  // ---------------------------------------------------------------- one call

  function Occurrences(keys: seq<Key>, key: Key): nat {
    if keys == [] then 0 else Occurrences(keys[..|keys| - 1], key) + if keys[|keys| - 1] == key then 1 else 0
  }

  function CountOf(t: Table, key: Key): nat { if key in t then t[key].count else 0 }

  lemma {:induction false} BumpAllCounts(t: Table, keys: seq<Key>, resetAt: nat, key: Key)
    ensures CountOf(BumpAll(t, keys, resetAt), key) == CountOf(t, key) + Occurrences(keys, key)
    ensures key in BumpAll(t, keys, resetAt) <==> key in t || key in keys
    ensures key in BumpAll(t, keys, resetAt) ==>
      BumpAll(t, keys, resetAt)[key].resetAt == if key in t then t[key].resetAt else resetAt
  {
    if keys != [] {
      BumpAllCounts(t, keys[..|keys| - 1], resetAt, key);
      assert keys == keys[..|keys| - 1] + [keys[|keys| - 1]];
    }
  }

  lemma {:induction false} OccursOnce(keys: seq<Key>, key: Key)
    ensures Occurrences(keys, key) >= 1 <==> key in keys
    ensures Distinct(keys) ==> Occurrences(keys, key) <= 1
  {
    if keys != [] {
      var init := keys[..|keys| - 1];
      OccursOnce(init, key);
      assert keys == init + [keys[|keys| - 1]];
      if Distinct(keys) && keys[|keys| - 1] == key { assert key !in init; }
    }
  }

  lemma {:induction false} OccursTwice(keys: seq<Key>, i: nat, j: nat)
    requires i < j < |keys| && keys[i] == keys[j]
    ensures Occurrences(keys, keys[i]) >= 2
  {
    var init := keys[..|keys| - 1];
    if j == |keys| - 1 {
      OccursOnce(init, keys[i]);
      assert init[i] == keys[i];
    } else {
      OccursTwice(init, i, j);
    }
  }

  predicate Capped(t: Table, maximum: nat) {
    forall k :: k in t ==> t[k].count <= maximum
  }

  ghost predicate NeverOverruns(keys: seq<Key>, maximum: nat) {
    forall t: Table, windowMs: nat, now: nat :: Capped(t, maximum) ==> Capped(Consumed(t, keys, maximum, windowMs, now), maximum)
  }

  /** From every table whose counters are within the maximum, a call leaves them so exactly when it names
      no key twice and, unless it names none, its maximum is not zero. */
  lemma {:induction false} CappedIffKeysDistinct(keys: seq<Key>, maximum: nat)
    ensures NeverOverruns(keys, maximum) <==> Distinct(keys) && (maximum > 0 || keys == [])
  {
    if Distinct(keys) && (maximum > 0 || keys == []) {
      forall t: Table, windowMs: nat, now: nat | Capped(t, maximum) ensures Capped(Consumed(t, keys, maximum, windowMs, now), maximum) {
        DistinctKeysStayCapped(t, keys, maximum, windowMs, now);
      }
    } else if Distinct(keys) {
      ZeroMaximumAdmitsOne(keys, 0, 0, keys[0]);
      assert Capped(map[], 0) && !Capped(Consumed(map[], keys, 0, 0, 0), 0);
    } else {
      var i, j :| 0 <= i < j < |keys| && keys[i] == keys[j];
      RepeatedKeyOverruns(keys, maximum, i, j);
    }
  }

  /** A maximum of zero lets the first call of a window in: only a row that exists can block. */
  lemma {:induction false} ZeroMaximumAdmitsOne(keys: seq<Key>, windowMs: nat, now: nat, key: Key)
    requires key in keys
    ensures key in Consumed(map[], keys, 0, windowMs, now) && Consumed(map[], keys, 0, windowMs, now)[key].count >= 1
  {
    var empty: Table := map[];
    assert Pruned(empty, now) == empty;
    BumpAllCounts(empty, keys, now + windowMs, key);
    OccursOnce(keys, key);
  }

  lemma {:induction false} DistinctKeysStayCapped(t: Table, keys: seq<Key>, maximum: nat, windowMs: nat, now: nat)
    requires Capped(t, maximum) && Distinct(keys) && (maximum > 0 || keys == [])
    ensures Capped(Consumed(t, keys, maximum, windowMs, now), maximum)
  {
    var p := Pruned(t, now);
    if !Blocked(p, keys, maximum) {
      var after := BumpAll(p, keys, now + windowMs);
      forall k | k in after ensures after[k].count <= maximum {
        BumpAllCounts(p, keys, now + windowMs, k);
        OccursOnce(keys, k);
        if k in keys && k in p {
          var i :| 0 <= i < |keys| && keys[i] == k;
          assert p[keys[i]].count < maximum;
        }
      }
    }
  }

  lemma {:induction false} RepeatedKeyOverruns(keys: seq<Key>, maximum: nat, i: nat, j: nat)
    requires i < j < |keys| && keys[i] == keys[j]
    ensures !NeverOverruns(keys, maximum)
  {
    var key := keys[i];
    var t: Table := if maximum <= 1 then map[] else map[key := Counter(maximum - 1, 1)];
    assert Pruned(t, 0) == t;
    assert !Blocked(t, keys, maximum);
    BumpAllCounts(t, keys, 0, key);
    OccursTwice(keys, i, j);
    assert Capped(t, maximum) && !Capped(Consumed(t, keys, maximum, 0, 0), maximum);
  }

  // ---------------------------------------------------------------- the two keys of the identity service

  const MAX_ADDRESS: nat := 64

  function Address(ip: string): string { if |ip| > MAX_ADDRESS then ip[..MAX_ADDRESS] else ip }

  function LimitKeys(category: string, ip: string): seq<Key> {
    [category + ":ip:" + Address(ip), category + ":owner"]
  }

  lemma {:induction false} LimitKeysDistinct(category: string, ip: string)
    ensures Distinct(LimitKeys(category, ip))
  {
    var a, b := category + ":ip:" + Address(ip), category + ":owner";
    assert a[|category| + 1] == 'i' && b[|category| + 1] == 'o';
  }

  datatype Category = Bootstrap | Password | Verification | Settings | Read {
    function Name(): string {
      match this
      case Bootstrap => "bootstrap"
      case Password => "password"
      case Verification => "verification"
      case Settings => "settings"
      case Read => "read"
    }

    function Maximum(): nat {
      match this
      case Bootstrap => 10
      case Password => 10
      case Verification => 30
      case Settings => 30
      case Read => 120
    }
  }

  /** Two requests share an address key exactly if their category and the first 64 characters of their addresses are
      the same, the owner key exactly if their category is, and never one with the other. */
  lemma {:induction false} LimitKeysSeparate(c: Category, ip: string, d: Category, jp: string)
    ensures var k, l := LimitKeys(c.Name(), ip), LimitKeys(d.Name(), jp);
      && |k| == |l| == 2
      && (k[0] == l[0] <==> c == d && (if |ip| > 64 then ip[..64] else ip) == if |jp| > 64 then jp[..64] else jp)
      && (k[1] == l[1] <==> c == d)
      && k[0] != l[1]
  {
    var k, l := LimitKeys(c.Name(), ip), LimitKeys(d.Name(), jp);
    assert k[0][0] == k[1][0] == c.Name()[0] && l[0][0] == l[1][0] == d.Name()[0];
    if c == d {
      var head := c.Name() + ":ip:";
      assert k[0][|head|..] == Address(ip) && l[0][|head|..] == Address(jp);
      LimitKeysDistinct(c.Name(), ip);
    }
  }

  /** The maximum a key of the service is counted against: its category is its first word. */
  function ServiceLimit(key: Key): nat {
    if "read:" <= key then Read.Maximum()
    else if "settings:" <= key then Settings.Maximum()
    else if "verification:" <= key then Verification.Maximum()
    else if "password:" <= key then Password.Maximum()
    else Bootstrap.Maximum()
  }

  lemma {:induction false} ServiceKeysFit(category: Category, ip: string, i: nat)
    requires i < 2
    ensures ServiceLimit(LimitKeys(category.Name(), ip)[i]) == category.Maximum()
  {
    var key := LimitKeys(category.Name(), ip)[i];
    assert category.Name() + ":" <= key;
    assert key[0] == category.Name()[0];
  }

  // ---------------------------------------------------------------- runs

  /** One admission of a key, in the window that began at `start`. */
  datatype Admission = Admission(key: Key, time: nat, start: nat)

  datatype State = State(now: nat, table: Table, log: seq<Admission>)

  const INIT := State(0, map[], [])

  /** A call, after `wait` more milliseconds. All callers share one table and one window. */
  datatype Call = Call(wait: nat, keys: seq<Key>, maximum: nat)

  type Limits = Key -> nat

  /** The call counts each of its keys against that key's own maximum, and none twice. */
  predicate Fits(c: Call, limit: Limits) {
    Distinct(c.keys) && forall k :: k in c.keys ==> limit(k) == c.maximum
  }

  predicate AllFit(cs: seq<Call>, limit: Limits) {
    forall i :: 0 <= i < |cs| ==> Fits(cs[i], limit)
  }

  /** What one window admits of a key: its maximum, or one call if that is zero. */
  function Cap(maximum: nat): nat { if maximum == 0 then 1 else maximum }

  function Admissions(t: Table, keys: seq<Key>, windowMs: nat, now: nat): seq<Admission>
    requires forall k :: k in t ==> t[k].resetAt >= windowMs
  {
    seq(|keys|, i requires 0 <= i < |keys| => Admission(keys[i], now, if keys[i] in t then t[keys[i]].resetAt - windowMs else now))
  }

  predicate Sound(t: Table, windowMs: nat) {
    forall k :: k in t ==> t[k].resetAt >= windowMs
  }

  function Waited(s: State, wait: nat): State { State(s.now + wait, Pruned(s.table, s.now + wait), s.log) }

  function Admitted(s: State, keys: seq<Key>, windowMs: nat): State
    requires Sound(s.table, windowMs)
  {
    State(s.now, BumpAll(s.table, keys, s.now + windowMs), s.log + Admissions(s.table, keys, windowMs, s.now))
  }

  /** One call: time passes, what has run out goes, then the call is refused or counted. */
  function Step(s: State, c: Call, windowMs: nat): (t: State)
    requires Sound(s.table, windowMs)
    ensures t.table == Consumed(s.table, c.keys, c.maximum, windowMs, s.now + c.wait)
  {
    var p := Waited(s, c.wait);
    if Blocked(p.table, c.keys, c.maximum) then p else Admitted(p, c.keys, windowMs)
  }

  function Run(cs: seq<Call>, windowMs: nat): (s: State)
    ensures Sound(s.table, windowMs)
  {
    if cs == [] then INIT
    else var s1 := Run(cs[..|cs| - 1], windowMs);
         SoundStep(s1, cs[|cs| - 1], windowMs);
         Step(s1, cs[|cs| - 1], windowMs)
  }

  lemma {:induction false} SoundStep(s: State, c: Call, windowMs: nat)
    requires Sound(s.table, windowMs)
    ensures Sound(Step(s, c, windowMs).table, windowMs)
  {
    var t := Step(s, c, windowMs).table;
    var p := Pruned(s.table, s.now + c.wait);
    forall k | k in t ensures t[k].resetAt >= windowMs { BumpAllCounts(p, c.keys, s.now + c.wait + windowMs, k); }
  }

  function InWindow(log: seq<Admission>, key: Key, start: nat): nat {
    if log == [] then 0
    else InWindow(log[..|log| - 1], key, start) + if log[|log| - 1].key == key && log[|log| - 1].start == start then 1 else 0
  }

  /** Admissions of a key between two moments, both included. */
  function Between(log: seq<Admission>, key: Key, from: nat, to: nat): nat {
    if log == [] then 0
    else Between(log[..|log| - 1], key, from, to)
         + if log[|log| - 1].key == key && from <= log[|log| - 1].time <= to then 1 else 0
  }

  predicate Logged(a: Admission, windowMs: nat, now: nat) {
    a.start <= a.time <= now && a.time < a.start + windowMs
  }

  /** Windows of one key never overlap. */
  predicate Apart(a: Admission, b: Admission, windowMs: nat) {
    a.key == b.key && a.start < b.start ==> a.start + windowMs <= b.start
  }

  /** The window a counter stands for, or one that is over. */
  predicate Current(t: Table, a: Admission, windowMs: nat, now: nat) {
    a.start + windowMs <= now || (a.key in t && t[a.key].resetAt == a.start + windowMs)
  }

  ghost predicate LogFits(t: Table, log: seq<Admission>, windowMs: nat, now: nat) {
    forall i :: 0 <= i < |log| ==> Logged(log[i], windowMs, now) && Current(t, log[i], windowMs, now)
  }

  ghost predicate WindowsApart(log: seq<Admission>, windowMs: nat) {
    forall i, j :: 0 <= i < |log| && 0 <= j < |log| ==> Apart(log[i], log[j], windowMs)
  }

  ghost predicate WindowsCapped(log: seq<Admission>, limit: Limits) {
    forall k, start :: InWindow(log, k, start) <= Cap(limit(k))
  }

  ghost predicate CountersFit(t: Table, log: seq<Admission>, windowMs: nat, now: nat)
    requires Sound(t, windowMs)
  {
    forall k :: k in t ==> 1 <= t[k].count == InWindow(log, k, t[k].resetAt - windowMs) && t[k].resetAt - windowMs <= now
  }

  ghost predicate Inv(s: State, limit: Limits, windowMs: nat) {
    && Sound(s.table, windowMs)
    && LogFits(s.table, s.log, windowMs, s.now)
    && WindowsApart(s.log, windowMs)
    && WindowsCapped(s.log, limit)
    && CountersFit(s.table, s.log, windowMs, s.now)
  }

  lemma {:induction false} InWindowConcat(log: seq<Admission>, more: seq<Admission>, key: Key, start: nat)
    ensures InWindow(log + more, key, start) == InWindow(log, key, start) + InWindow(more, key, start)
  {
    if more == [] {
      assert log + more == log;
    } else {
      InWindowConcat(log, more[..|more| - 1], key, start);
      assert (log + more)[..|log + more| - 1] == log + more[..|more| - 1];
    }
  }

  /** The window an admitted call counts a key in. */
  function StartOf(p: Table, key: Key, windowMs: nat, now: nat): nat
    requires Sound(p, windowMs)
  {
    if key in p then p[key].resetAt - windowMs else now
  }

  lemma {:induction false} AdmissionsCount(p: Table, keys: seq<Key>, windowMs: nat, now: nat, key: Key, start: nat)
    requires Sound(p, windowMs)
    ensures InWindow(Admissions(p, keys, windowMs, now), key, start)
      == if start == StartOf(p, key, windowMs, now) then Occurrences(keys, key) else 0
  {
    if keys != [] {
      var init := keys[..|keys| - 1];
      AdmissionsCount(p, init, windowMs, now, key, start);
      assert Admissions(p, keys, windowMs, now)[..|keys| - 1] == Admissions(p, init, windowMs, now);
    }
  }

  /** Nothing in the table has run out. */
  predicate Running(t: Table, now: nat) { forall k :: k in t ==> t[k].resetAt > now }

  lemma {:induction false} PruneKeepsInv(s: State, wait: nat, limit: Limits, windowMs: nat)
    requires Inv(s, limit, windowMs)
    ensures Inv(Waited(s, wait), limit, windowMs) && Running(Waited(s, wait).table, s.now + wait)
  {
    var now := s.now + wait;
    var p := Pruned(s.table, now);
    forall i | 0 <= i < |s.log| ensures Logged(s.log[i], windowMs, now) && Current(p, s.log[i], windowMs, now) {
      assert Logged(s.log[i], windowMs, s.now) && Current(s.table, s.log[i], windowMs, s.now);
    }
  }

  /** No admission was ever counted in a window that begins now, unless that window's counter is there. */
  lemma {:induction false} NewWindowIsEmpty(s: State, windowMs: nat, key: Key)
    requires LogFits(s.table, s.log, windowMs, s.now) && windowMs > 0 && key !in s.table
    ensures forall i :: 0 <= i < |s.log| && s.log[i].key == key ==> s.log[i].start + windowMs <= s.now
    ensures InWindow(s.log, key, s.now) == 0
  {
    forall i | 0 <= i < |s.log| && s.log[i].key == key ensures s.log[i].start + windowMs <= s.now {
      assert Current(s.table, s.log[i], windowMs, s.now);
    }
    NoneInWindow(s.log, key, s.now);
  }

  lemma {:induction false} NoneInWindow(log: seq<Admission>, key: Key, start: nat)
    requires forall i :: 0 <= i < |log| && log[i].key == key ==> log[i].start != start
    ensures InWindow(log, key, start) == 0
  {
    if log != [] { NoneInWindow(log[..|log| - 1], key, start); }
  }

  /** How an admitted call adds to the count of a window. */
  lemma {:induction false} WindowGrows(s: State, keys: seq<Key>, windowMs: nat, k: Key, start: nat)
    requires Sound(s.table, windowMs) && Distinct(keys)
    ensures InWindow(s.log + Admissions(s.table, keys, windowMs, s.now), k, start)
      == InWindow(s.log, k, start) + if k in keys && start == StartOf(s.table, k, windowMs, s.now) then 1 else 0
  {
    InWindowConcat(s.log, Admissions(s.table, keys, windowMs, s.now), k, start);
    AdmissionsCount(s.table, keys, windowMs, s.now, k, start);
    OccursOnce(keys, k);
  }

  lemma {:induction false} WindowStaysCapped(s: State, c: Call, limit: Limits, windowMs: nat, k: Key, start: nat)
    requires Inv(s, limit, windowMs) && windowMs > 0 && Fits(c, limit) && !Blocked(s.table, c.keys, c.maximum)
    ensures InWindow(s.log + Admissions(s.table, c.keys, windowMs, s.now), k, start) <= Cap(limit(k))
  {
    WindowGrows(s, c.keys, windowMs, k, start);
    assert InWindow(s.log, k, start) <= Cap(limit(k));
    if k in c.keys && start == StartOf(s.table, k, windowMs, s.now) {
      if k in s.table {
        var i :| 0 <= i < |c.keys| && c.keys[i] == k;
        assert s.table[c.keys[i]].count < c.maximum;
      } else {
        NewWindowIsEmpty(s, windowMs, k);
      }
    }
  }

  lemma {:induction false} NewAdmissionsFit(s: State, keys: seq<Key>, windowMs: nat, i: nat)
    requires Sound(s.table, windowMs) && LogFits(s.table, s.log, windowMs, s.now) && CountersFit(s.table, s.log, windowMs, s.now)
    requires windowMs > 0 && i < |keys| && Running(s.table, s.now)
    ensures var a := Admissions(s.table, keys, windowMs, s.now)[i];
      Logged(a, windowMs, s.now) && Current(BumpAll(s.table, keys, s.now + windowMs), a, windowMs, s.now)
  {
    BumpAllCounts(s.table, keys, s.now + windowMs, keys[i]);
  }

  lemma {:induction false} NewAdmissionsApart(s: State, keys: seq<Key>, limit: Limits, windowMs: nat, i: nat, j: nat)
    requires Inv(s, limit, windowMs) && windowMs > 0 && i < |keys| && j < |s.log| && Running(s.table, s.now)
    ensures var a := Admissions(s.table, keys, windowMs, s.now)[i]; Apart(s.log[j], a, windowMs) && Apart(a, s.log[j], windowMs)
  {
    var a := Admissions(s.table, keys, windowMs, s.now)[i];
    assert Logged(s.log[j], windowMs, s.now) && Current(s.table, s.log[j], windowMs, s.now);
    if keys[i] in s.table {
      var b := EntryOfWindow(s.log, keys[i], a.start);
      assert Apart(s.log[j], s.log[b], windowMs) && Apart(s.log[b], s.log[j], windowMs);
    } else {
      NewWindowIsEmpty(s, windowMs, keys[i]);
    }
  }

  lemma {:induction false} EntryOfWindow(log: seq<Admission>, key: Key, start: nat) returns (i: nat)
    requires InWindow(log, key, start) >= 1
    ensures i < |log| && log[i].key == key && log[i].start == start
  {
    var last := |log| - 1;
    if log[last].key == key && log[last].start == start { i := last; } else { i := EntryOfWindow(log[..last], key, start); }
  }

  lemma {:induction false} AdmittedEntry(s: State, keys: seq<Key>, windowMs: nat, i: nat)
    requires Sound(s.table, windowMs) && LogFits(s.table, s.log, windowMs, s.now) && CountersFit(s.table, s.log, windowMs, s.now)
    requires windowMs > 0 && Running(s.table, s.now) && i < |s.log| + |keys|
    ensures var log := s.log + Admissions(s.table, keys, windowMs, s.now);
      Logged(log[i], windowMs, s.now) && Current(BumpAll(s.table, keys, s.now + windowMs), log[i], windowMs, s.now)
  {
    if i < |s.log| {
      assert Logged(s.log[i], windowMs, s.now) && Current(s.table, s.log[i], windowMs, s.now);
      BumpAllCounts(s.table, keys, s.now + windowMs, s.log[i].key);
    } else {
      NewAdmissionsFit(s, keys, windowMs, i - |s.log|);
    }
  }

  lemma {:induction false} AdmittedApart(s: State, keys: seq<Key>, limit: Limits, windowMs: nat, i: nat, j: nat)
    requires Inv(s, limit, windowMs) && windowMs > 0 && Running(s.table, s.now)
    requires i < |s.log| + |keys| && j < |s.log| + |keys|
    ensures var log := s.log + Admissions(s.table, keys, windowMs, s.now); Apart(log[i], log[j], windowMs)
  {
    if i < |s.log| && j < |s.log| {
      assert Apart(s.log[i], s.log[j], windowMs);
    } else if i < |s.log| {
      NewAdmissionsApart(s, keys, limit, windowMs, j - |s.log|, i);
    } else if j < |s.log| {
      NewAdmissionsApart(s, keys, limit, windowMs, i - |s.log|, j);
    }
  }

  lemma {:induction false} AdmittedCounter(s: State, keys: seq<Key>, windowMs: nat, k: Key)
    requires Sound(s.table, windowMs) && LogFits(s.table, s.log, windowMs, s.now) && CountersFit(s.table, s.log, windowMs, s.now)
    requires windowMs > 0 && Distinct(keys) && k in BumpAll(s.table, keys, s.now + windowMs)
    ensures var c := BumpAll(s.table, keys, s.now + windowMs)[k];
      && c.resetAt >= windowMs && c.resetAt - windowMs <= s.now
      && 1 <= c.count == InWindow(s.log + Admissions(s.table, keys, windowMs, s.now), k, c.resetAt - windowMs)
  {
    BumpAllCounts(s.table, keys, s.now + windowMs, k);
    OccursOnce(keys, k);
    WindowGrows(s, keys, windowMs, k, StartOf(s.table, k, windowMs, s.now));
    if k !in s.table { NewWindowIsEmpty(s, windowMs, k); }
  }

  lemma {:induction false} AdmittedCounters(s: State, keys: seq<Key>, windowMs: nat)
    requires Sound(s.table, windowMs) && LogFits(s.table, s.log, windowMs, s.now) && CountersFit(s.table, s.log, windowMs, s.now)
    requires windowMs > 0 && Distinct(keys)
    ensures var t := Admitted(s, keys, windowMs); Sound(t.table, windowMs) && CountersFit(t.table, t.log, windowMs, t.now)
  {
    var t := Admitted(s, keys, windowMs);
    forall k | k in t.table ensures t.table[k].resetAt >= windowMs { AdmittedCounter(s, keys, windowMs, k); }
    forall k | k in t.table
      ensures 1 <= t.table[k].count == InWindow(t.log, k, t.table[k].resetAt - windowMs) && t.table[k].resetAt - windowMs <= t.now
    {
      AdmittedCounter(s, keys, windowMs, k);
    }
  }

  lemma {:induction false} AdmittedLog(s: State, keys: seq<Key>, limit: Limits, windowMs: nat)
    requires Inv(s, limit, windowMs) && windowMs > 0 && Running(s.table, s.now)
    ensures var t := Admitted(s, keys, windowMs); LogFits(t.table, t.log, windowMs, t.now) && WindowsApart(t.log, windowMs)
  {
    var t := Admitted(s, keys, windowMs);
    forall i, j | 0 <= i < |t.log| && 0 <= j < |t.log| ensures Apart(t.log[i], t.log[j], windowMs) {
      AdmittedApart(s, keys, limit, windowMs, i, j);
    }
    forall i | 0 <= i < |t.log| ensures Logged(t.log[i], windowMs, t.now) && Current(t.table, t.log[i], windowMs, t.now) {
      AdmittedEntry(s, keys, windowMs, i);
    }
  }

  lemma {:induction false} AdmitKeepsInv(s: State, c: Call, limit: Limits, windowMs: nat)
    requires Inv(s, limit, windowMs) && windowMs > 0 && Fits(c, limit) && !Blocked(s.table, c.keys, c.maximum) && Running(s.table, s.now)
    ensures Inv(Admitted(s, c.keys, windowMs), limit, windowMs)
  {
    AdmittedCounters(s, c.keys, windowMs);
    AdmittedLog(s, c.keys, limit, windowMs);
    var log := Admitted(s, c.keys, windowMs).log;
    forall k, start ensures InWindow(log, k, start) <= Cap(limit(k)) { WindowStaysCapped(s, c, limit, windowMs, k, start); }
  }

  lemma {:induction false} StepKeepsInv(s: State, c: Call, limit: Limits, windowMs: nat)
    requires Inv(s, limit, windowMs) && windowMs > 0 && Fits(c, limit)
    ensures Inv(Step(s, c, windowMs), limit, windowMs)
  {
    PruneKeepsInv(s, c.wait, limit, windowMs);
    var p := Waited(s, c.wait);
    if !Blocked(p.table, c.keys, c.maximum) { AdmitKeepsInv(p, c, limit, windowMs); }
  }

  lemma {:induction false} RunKeepsInv(cs: seq<Call>, limit: Limits, windowMs: nat)
    requires windowMs > 0 && AllFit(cs, limit)
    ensures Inv(Run(cs, windowMs), limit, windowMs)
  {
    if cs != [] {
      RunKeepsInv(cs[..|cs| - 1], limit, windowMs);
      StepKeepsInv(Run(cs[..|cs| - 1], windowMs), cs[|cs| - 1], limit, windowMs);
    }
  }

  // ---------------------------------------------------------------- main theorems

  /** An interval of one window's length meets at most two windows of a key. */
  lemma {:induction false} ThirdWindow(a: Admission, b: Admission, c: Admission, windowMs: nat, now: nat, from: nat)
    requires Logged(a, windowMs, now) && Logged(b, windowMs, now) && Logged(c, windowMs, now)
    requires a.key == b.key == c.key
    requires Apart(a, b, windowMs) && Apart(b, a, windowMs) && Apart(a, c, windowMs) && Apart(c, a, windowMs)
    requires Apart(b, c, windowMs) && Apart(c, b, windowMs)
    requires from <= a.time <= from + windowMs && from <= b.time <= from + windowMs && from <= c.time <= from + windowMs
    ensures a.start == b.start || a.start == c.start || b.start == c.start
  {
  }

  predicate InInterval(a: Admission, key: Key, from: nat, to: nat) { a.key == key && from <= a.time <= to }

  lemma {:induction false} BetweenTwoWindows(log: seq<Admission>, key: Key, from: nat, to: nat, s1: nat, s2: nat)
    requires forall i :: 0 <= i < |log| && InInterval(log[i], key, from, to) ==> log[i].start == s1 || log[i].start == s2
    ensures Between(log, key, from, to) <= InWindow(log, key, s1) + InWindow(log, key, s2)
  {
    if log != [] {
      assert InInterval(log[|log| - 1], key, from, to) ==> log[|log| - 1].start == s1 || log[|log| - 1].start == s2;
      BetweenTwoWindows(log[..|log| - 1], key, from, to, s1, s2);
    }
  }

  lemma {:induction false} TwoWindows(s: State, windowMs: nat, key: Key, from: nat) returns (s1: nat, s2: nat)
    requires LogFits(s.table, s.log, windowMs, s.now) && WindowsApart(s.log, windowMs)
    ensures forall i :: 0 <= i < |s.log| && InInterval(s.log[i], key, from, from + windowMs) ==> s.log[i].start == s1 || s.log[i].start == s2
  {
    s1, s2 := 0, 0;
    if i :| 0 <= i < |s.log| && InInterval(s.log[i], key, from, from + windowMs) {
      s1, s2 := s.log[i].start, s.log[i].start;
      if j :| 0 <= j < |s.log| && InInterval(s.log[j], key, from, from + windowMs) && s.log[j].start != s1 {
        s2 := s.log[j].start;
        forall k | 0 <= k < |s.log| && InInterval(s.log[k], key, from, from + windowMs) ensures s.log[k].start == s1 || s.log[k].start == s2 {
          ThirdWindow(s.log[i], s.log[j], s.log[k], windowMs, s.now, from);
        }
      }
    }
  }

  lemma {:induction false} IntervalIsBounded(s: State, limit: Limits, windowMs: nat, key: Key, from: nat)
    requires LogFits(s.table, s.log, windowMs, s.now) && WindowsApart(s.log, windowMs) && WindowsCapped(s.log, limit)
    ensures Between(s.log, key, from, from + windowMs) <= 2 * Cap(limit(key))
  {
    var s1, s2 := TwoWindows(s, windowMs, key, from);
    BetweenTwoWindows(s.log, key, from, from + windowMs, s1, s2);
    assert InWindow(s.log, key, s1) <= Cap(limit(key)) && InWindow(s.log, key, s2) <= Cap(limit(key));
  }

  /** In any stretch of one window's length, whatever else is counted in the table, a key is admitted at
      most twice its own maximum, or twice if that maximum is zero. */
  lemma {:induction false} AdmissionsAreBounded(cs: seq<Call>, limit: Limits, windowMs: nat, key: Key, from: nat)
    requires windowMs > 0 && AllFit(cs, limit)
    ensures Between(Run(cs, windowMs).log, key, from, from + windowMs) <= if limit(key) == 0 then 2 else 2 * limit(key)
  {
    RunKeepsInv(cs, limit, windowMs);
    IntervalIsBounded(Run(cs, windowMs), limit, windowMs, key, from);
  }

  /** The counter of `key` is the number of admissions of its window, and exceeds the key's maximum only as
      the single admission of a maximum of zero. */
  predicate ExactCounter(s: State, limit: Limits, windowMs: nat, key: Key) {
    key in s.table ==>
      && s.table[key].resetAt >= windowMs
      && s.table[key].count == InWindow(s.log, key, s.table[key].resetAt - windowMs)
      && s.table[key].count <= if limit(key) == 0 then 1 else limit(key)
  }

  lemma {:induction false} CounterIsExact(s: State, limit: Limits, windowMs: nat, key: Key)
    requires Sound(s.table, windowMs) && CountersFit(s.table, s.log, windowMs, s.now) && WindowsCapped(s.log, limit)
    ensures ExactCounter(s, limit, windowMs, key)
  {
  }

  lemma {:induction false} KeptCounterIsExact(s: State, limit: Limits, windowMs: nat, key: Key)
    requires Inv(s, limit, windowMs)
    ensures ExactCounter(s, limit, windowMs, key)
  {
    CounterIsExact(s, limit, windowMs, key);
  }

  /** Within every run every counter is exact. */
  lemma {:induction false} CountersAreExact(cs: seq<Call>, limit: Limits, windowMs: nat, key: Key)
    requires windowMs > 0 && AllFit(cs, limit)
    ensures ExactCounter(Run(cs, windowMs), limit, windowMs, key)
  {
    RunKeepsInv(cs, limit, windowMs);
    KeptCounterIsExact(Run(cs, windowMs), limit, windowMs, key);
  }

  lemma {:induction false} RunSnoc(cs: seq<Call>, c: Call, windowMs: nat)
    ensures Run(cs + [c], windowMs) == Step(Run(cs, windowMs), c, windowMs)
  {
    assert (cs + [c])[..|cs|] == cs;
  }

  lemma {:induction false} WaitedTwice(s: State, wait: nat, c: Call, windowMs: nat)
    requires Sound(s.table, windowMs)
    ensures Sound(Waited(s, wait).table, windowMs)
    ensures Step(Waited(s, wait), c, windowMs) == Step(s, c.(wait := wait + c.wait), windowMs)
  {
    assert Waited(Waited(s, wait), c.wait) == Waited(s, wait + c.wait);
  }

  lemma {:induction false} SameContinuation(a: seq<Call>, b: seq<Call>, more: seq<Call>, windowMs: nat)
    requires Run(a, windowMs) == Run(b, windowMs)
    ensures Run(a + more, windowMs) == Run(b + more, windowMs)
    decreases |more|
  {
    if more == [] {
      assert a + more == a && b + more == b;
    } else {
      var init, last := more[..|more| - 1], more[|more| - 1];
      assert a + more == a + init + [last] && b + more == b + init + [last];
      SameContinuation(a, b, init, windowMs);
      RunSnoc(a + init, last, windowMs);
      RunSnoc(b + init, last, windowMs);
    }
  }

  predicate Refused(s: State, c: Call) { Blocked(Pruned(s.table, s.now + c.wait), c.keys, c.maximum) }

  lemma {:induction false} NextAfterRefusal(cs: seq<Call>, c: Call, next: Call, windowMs: nat)
    requires Refused(Run(cs, windowMs), c)
    ensures Run(cs + [c] + [next], windowMs) == Run(cs + [next.(wait := c.wait + next.wait)], windowMs)
  {
    RunSnoc(cs + [c], next, windowMs);
    RunSnoc(cs, c, windowMs);
    WaitedTwice(Run(cs, windowMs), c.wait, next, windowMs);
    RunSnoc(cs, next.(wait := c.wait + next.wait), windowMs);
  }

  /** A refused call leaves no trace: every run goes on as if its next call had come that much later. */
  lemma {:induction false} RefusalLeavesNoTrace(cs: seq<Call>, c: Call, next: Call, rest: seq<Call>, windowMs: nat)
    requires Refused(Run(cs, windowMs), c)
    ensures Run(cs + [c] + [next] + rest, windowMs) == Run(cs + [next.(wait := c.wait + next.wait)] + rest, windowMs)
  {
    NextAfterRefusal(cs, c, next, windowMs);
    SameContinuation(cs + [c] + [next], cs + [next.(wait := c.wait + next.wait)], rest, windowMs);
  }

  // ---------------------------------------------------------------- when a run overruns

  /** Calls with one maximum, all of which, but for those that name `keys`, name no key twice. */
  predicate Among(cs: seq<Call>, keys: seq<Key>, maximum: nat) {
    forall i :: 0 <= i < |cs| ==> cs[i].maximum == maximum && (cs[i].keys == keys || Distinct(cs[i].keys))
  }

  ghost predicate RunsStayCapped(keys: seq<Key>, maximum: nat, windowMs: nat) {
    forall cs :: Among(cs, keys, maximum) ==> Capped(Run(cs, windowMs).table, maximum)
  }

  /** Over whole runs from the empty table: no counter ever passes the maximum if and only if the call names
      no key twice and the maximum is not zero. */
  lemma {:induction false} RunsStayCappedIff(keys: seq<Key>, maximum: nat, windowMs: nat)
    requires windowMs > 0
    ensures RunsStayCapped(keys, maximum, windowMs) <==> Distinct(keys) && maximum > 0
  {
    if Distinct(keys) && maximum > 0 {
      forall cs | Among(cs, keys, maximum) ensures Capped(Run(cs, windowMs).table, maximum) {
        DistinctRunsAreCapped(cs, maximum, windowMs);
      }
    } else if maximum == 0 {
      var cs := [Call(0, ["k"], 0)];
      assert cs[..0] == [] && Run([], windowMs) == INIT && Pruned(INIT.table, 0) == INIT.table;
      ZeroMaximumAdmitsOne(["k"], windowMs, 0, "k");
      assert Among(cs, keys, 0) && !Capped(Run(cs, windowMs).table, 0);
    } else {
      var i, j :| 0 <= i < j < |keys| && keys[i] == keys[j];
      RepeatedKeyRunOverruns(keys, maximum, windowMs, i, j);
      assert Among(Singles(keys[i], maximum, maximum - 1) + [Call(0, keys, maximum)], keys, maximum);
    }
  }

  lemma {:induction false} DistinctRunsAreCapped(cs: seq<Call>, maximum: nat, windowMs: nat)
    requires windowMs > 0 && maximum > 0 && forall i :: 0 <= i < |cs| ==> cs[i].maximum == maximum && Distinct(cs[i].keys)
    ensures Capped(Run(cs, windowMs).table, maximum)
  {
    var limit := (_: Key) => maximum;
    assert AllFit(cs, limit);
    forall k | k in Run(cs, windowMs).table ensures Run(cs, windowMs).table[k].count <= maximum {
      CountersAreExact(cs, limit, windowMs, k);
    }
  }

  /** `n` calls in one instant that name `key` alone. */
  function Singles(key: Key, maximum: nat, n: nat): seq<Call> { seq(n, i => Call(0, [key], maximum)) }

  /** Only `key` has been counted, `n` times, at the start of its window. */
  predicate OnlyCounted(s: State, key: Key, n: nat, windowMs: nat) {
    s.now == 0 && s.table == if n == 0 then map[] else map[key := Counter(n, windowMs)]
  }

  lemma {:induction false} SingleCall(s: State, key: Key, maximum: nat, windowMs: nat, n: nat)
    requires OnlyCounted(s, key, n, windowMs) && n < maximum && windowMs > 0 && Sound(s.table, windowMs)
    ensures OnlyCounted(Step(s, Call(0, [key], maximum), windowMs), key, n + 1, windowMs)
  {
    assert Pruned(s.table, 0) == s.table;
    assert !Blocked(s.table, [key], maximum);
    assert [key][..0] == [];
    assert BumpAll(s.table, [key], windowMs) == Bump(s.table, key, windowMs);
  }

  lemma {:induction false} SinglesCount(key: Key, maximum: nat, windowMs: nat, n: nat)
    requires windowMs > 0 && n <= maximum
    ensures OnlyCounted(Run(Singles(key, maximum, n), windowMs), key, n, windowMs)
  {
    if n > 0 {
      SinglesCount(key, maximum, windowMs, n - 1);
      assert Singles(key, maximum, n) == Singles(key, maximum, n - 1) + [Call(0, [key], maximum)];
      RunSnoc(Singles(key, maximum, n - 1), Call(0, [key], maximum), windowMs);
      SingleCall(Run(Singles(key, maximum, n - 1), windowMs), key, maximum, windowMs, n - 1);
    }
  }

  lemma {:induction false} OverrunStep(s: State, keys: seq<Key>, maximum: nat, windowMs: nat, i: nat, j: nat)
    requires i < j < |keys| && keys[i] == keys[j] && windowMs > 0 && maximum > 0
    requires OnlyCounted(s, keys[i], maximum - 1, windowMs) && Sound(s.table, windowMs)
    ensures CountOf(Step(s, Call(0, keys, maximum), windowMs).table, keys[i]) > maximum
  {
    assert Pruned(s.table, 0) == s.table && !Blocked(s.table, keys, maximum);
    BumpAllCounts(s.table, keys, windowMs, keys[i]);
    OccursTwice(keys, i, j);
  }

  /** A run from the empty table in which a call that names a key twice takes its counter past the maximum. */
  lemma {:induction false} RepeatedKeyRunOverruns(keys: seq<Key>, maximum: nat, windowMs: nat, i: nat, j: nat)
    requires i < j < |keys| && keys[i] == keys[j] && windowMs > 0 && maximum > 0
    ensures CountOf(Run(Singles(keys[i], maximum, maximum - 1) + [Call(0, keys, maximum)], windowMs).table, keys[i]) > maximum
  {
    var before := Singles(keys[i], maximum, maximum - 1);
    SinglesCount(keys[i], maximum, windowMs, maximum - 1);
    RunSnoc(before, Call(0, keys, maximum), windowMs);
    OverrunStep(Run(before, windowMs), keys, maximum, windowMs, i, j);
  }

  // ---------------------------------------------------------------- the identity service

  const SERVICE_WINDOW_MS: nat := 300_000

  /** A request of some category, `wait` milliseconds after the last. */
  datatype Request = Request(wait: nat, category: Category, ip: string)

  function ServiceCalls(rs: seq<Request>): (cs: seq<Call>)
    ensures |cs| == |rs|
  {
    seq(|rs|, i requires 0 <= i < |rs| =>
      Call(rs[i].wait, LimitKeys(rs[i].category.Name(), rs[i].ip), rs[i].category.Maximum()))
  }

  /** Whatever requests of whatever categories arrive: each key's counter stays within its category's maximum,
      and in any five minutes the key is admitted at most twice that often. */
  lemma {:induction false} ServiceIsLimited(rs: seq<Request>, key: Key, from: nat)
    ensures var s := Run(ServiceCalls(rs), SERVICE_WINDOW_MS);
      && CountOf(s.table, key) <= ServiceLimit(key)
      && Between(s.log, key, from, from + SERVICE_WINDOW_MS) <= 2 * ServiceLimit(key)
  {
    ServiceCallsFit(rs);
    AdmissionsAreBounded(ServiceCalls(rs), ServiceLimit, SERVICE_WINDOW_MS, key, from);
    CountersAreExact(ServiceCalls(rs), ServiceLimit, SERVICE_WINDOW_MS, key);
    ServiceLimitIsPositive(key);
    CountIsWithin(Run(ServiceCalls(rs), SERVICE_WINDOW_MS), ServiceLimit, SERVICE_WINDOW_MS, key);
  }

  /** The same in numbers, for the two keys of every request. */
  lemma {:induction false} ServiceMaxima(rs: seq<Request>, category: Category, ip: string, i: nat, from: nat)
    requires i < 2
    ensures var s, key := Run(ServiceCalls(rs), SERVICE_WINDOW_MS), LimitKeys(category.Name(), ip)[i];
      var maximum := match category case Bootstrap => 10 case Password => 10 case Verification => 30 case Settings => 30 case Read => 120;
      CountOf(s.table, key) <= maximum && Between(s.log, key, from, from + 300_000) <= 2 * maximum
  {
    ServiceIsLimited(rs, LimitKeys(category.Name(), ip)[i], from);
    ServiceKeysFit(category, ip, i);
  }

  lemma {:induction false} ServiceLimitIsPositive(key: Key)
    ensures ServiceLimit(key) > 0
  {
  }

  lemma {:induction false} CountIsWithin(s: State, limit: Limits, windowMs: nat, key: Key)
    requires ExactCounter(s, limit, windowMs, key) && limit(key) > 0
    ensures CountOf(s.table, key) <= limit(key)
  {
  }

  lemma {:induction false} ServiceCallsFit(rs: seq<Request>)
    ensures AllFit(ServiceCalls(rs), ServiceLimit)
  {
    var cs := ServiceCalls(rs);
    forall i | 0 <= i < |cs| ensures Fits(cs[i], ServiceLimit) {
      LimitKeysDistinct(rs[i].category.Name(), rs[i].ip);
      ServiceKeysFit(rs[i].category, rs[i].ip, 0);
      ServiceKeysFit(rs[i].category, rs[i].ip, 1);
    }
  }
}
