/**
  Authentication of signed device requests: the timestamp window, the nonce table and its purge.
  A handler keeps the clock value it read while others run; `stall` bounds how long it takes from
  that read to the insertion of its nonce.
*/
module DeviceRequests {
  import opened Prelude

  const CLOCK_SKEW_MS: nat := 60_000
  const MAX_NONCES: nat := 500

  type DeviceId = nat
  type HandlerId = nat

  /** A request whose signature verified; the signature covers every field. */
  datatype Signed = Signed(device: DeviceId, nonce: string, timestamp: nat, body: string)
  datatype NonceKey = NonceKey(device: DeviceId, nonce: string)
  datatype Handler = Handler(request: Signed, clock: nat)

  datatype State = State(
    now: nat,
    stall: nat,
    devices: map<DeviceId, bool>,            // whether the device is revoked
    nonces: map<NonceKey, nat>,              // expires_at
    handlers: map<HandlerId, Handler>,
    latest: map<Signed, nat>,                // history: when each request was last presented
    accepted: seq<Signed>)                   // history

  function Init(stall: nat): State { State(0, stall, map[], map[], map[], map[], []) }

  datatype Event =
    | Tick(ms: nat)
    | Enroll(device: DeviceId)
    | Revoke(device: DeviceId)
    | Present(h: HandlerId, request: Signed)
    | Purge(clock: nat)
    | Insert(h: HandlerId)
    | Lost(h: HandlerId)

  predicate Fresh(timestamp: nat, clock: nat) {
    -(CLOCK_SKEW_MS as int) <= clock - timestamp <= CLOCK_SKEW_MS
  }

  predicate Active(s: State, d: DeviceId) { d in s.devices && !s.devices[d] }

  function NoncesOf(nonces: map<NonceKey, nat>, d: DeviceId): set<NonceKey> {
    set k | k in nonces && k.device == d
  }

  function KeyOf(r: Signed): NonceKey { NonceKey(r.device, r.nonce) }

  function Expiry(r: Signed): nat { r.timestamp + CLOCK_SKEW_MS + 1 }

  function Purged(nonces: map<NonceKey, nat>, clock: nat): map<NonceKey, nat> {
    map k | k in nonces && nonces[k] >= clock :: nonces[k]
  }

  predicate Enabled(s: State, e: Event) {
    match e
    case Enroll(d) => d !in s.devices
    case Revoke(d) => d in s.devices
    case Present(h, r) => h !in s.handlers && Fresh(r.timestamp, s.now) && Active(s, r.device)
    case Purge(clock) => clock <= s.now
    case Insert(h) => h in s.handlers && s.now - s.handlers[h].clock <= s.stall
    case _ => true
  }

  /** The guarded INSERT: unrevoked device, fewer than 500 nonces, no conflict. */
  predicate CanInsert(s: State, r: Signed) {
    Active(s, r.device) && Insertable(s.nonces, r)
  }

  predicate Insertable(nonces: map<NonceKey, nat>, r: Signed) {
    |NoncesOf(nonces, r.device)| < MAX_NONCES && KeyOf(r) !in nonces
  }

  function Step(s: State, e: Event): State
    requires Enabled(s, e)
  {
    match e
    case Tick(ms) => s.(now := s.now + ms)
    case Enroll(d) => s.(devices := s.devices[d := false])
    case Revoke(d) =>
      s.(devices := s.devices[d := true], nonces := map k | k in s.nonces && k.device != d :: s.nonces[k])
    case Present(h, r) => s.(handlers := s.handlers[h := Handler(r, s.now)], latest := s.latest[r := s.now])
    case Purge(clock) => s.(nonces := Purged(s.nonces, clock))
    case Insert(h) =>
      var r := s.handlers[h].request;
      var t := s.(handlers := s.handlers - {h});
      if CanInsert(s, r) then t.(nonces := s.nonces[KeyOf(r) := Expiry(r)], accepted := s.accepted + [r]) else t
    case Lost(h) => s.(handlers := s.handlers - {h})
  }

  /** authenticateDevice with nobody in between: check, purge, insert. */
  class DeviceGate {
    var devices: map<DeviceId, bool>
    var nonces: map<NonceKey, nat>

    constructor ()
      ensures devices == map[] && nonces == map[]
    {
      devices, nonces := map[], map[];
    }

    method Authenticate(r: Signed, clock: nat) returns (accepted: bool)
      modifies this`nonces
      ensures accepted <==> Fresh(r.timestamp, clock) && r.device in devices && !devices[r.device]
                            && Insertable(Purged(old(nonces), clock), r)
      ensures nonces ==
        if accepted then Purged(old(nonces), clock)[KeyOf(r) := Expiry(r)]
        else if Fresh(r.timestamp, clock) && r.device in devices && !devices[r.device] then Purged(old(nonces), clock)
        else old(nonces)
    {
      if clock - r.timestamp > CLOCK_SKEW_MS || r.timestamp - clock > CLOCK_SKEW_MS { return false; }
      if r.device !in devices || devices[r.device] { return false; }
      nonces := nonces - (set k | k in nonces && nonces[k] < clock);
      assert nonces == Purged(old(nonces), clock);
      accepted := |NoncesOf(nonces, r.device)| < MAX_NONCES && KeyOf(r) !in nonces;
      if accepted { nonces := nonces[KeyOf(r) := Expiry(r)]; }
    }

    method Revoke(d: DeviceId) returns (found: bool)
      modifies this
      ensures found <==> d in devices
      ensures found ==> devices == old(devices)[d := true] && nonces == map k | k in old(nonces) && k.device != d :: old(nonces)[k]
      ensures !found ==> devices == old(devices) && nonces == old(nonces)
    {
      found := d in devices;
      if found {
        devices := devices[d := true];
        nonces := nonces - (set k | k in nonces && k.device == d);
      }
    }
  }

  function Run(s: State, es: seq<Event>): State {
    if es == [] then s
    else var s1 := Run(s, es[..|es| - 1]);
         var e := es[|es| - 1];
         if Enabled(s1, e) then Step(s1, e) else s1
  }

  // ---------------------------------------------------------------- what every step keeps

  /** An accepted request of a live device keeps its nonce until no timestamp check can let it in again. */
  predicate Remembered(s: State, r: Signed) {
    && r.device in s.devices
    && (s.devices[r.device] || (KeyOf(r) in s.nonces && s.nonces[KeyOf(r)] == Expiry(r)) || Expiry(r) < s.now)
  }

  ghost predicate NoncesCapped(nonces: map<NonceKey, nat>) {
    forall d :: |NoncesOf(nonces, d)| <= MAX_NONCES
  }

  predicate Pending(s: State, h: Handler) {
    Fresh(h.request.timestamp, h.clock) && h.request in s.latest && h.clock <= s.latest[h.request] <= s.now
  }

  predicate PresentedBy(s: State, r: Signed, last: int) { r in s.latest ==> s.latest[r] <= last }

  predicate Once(accepted: seq<Signed>, r: Signed) {
    forall i, j :: 0 <= i < j < |accepted| && accepted[i] == r ==> accepted[j] != r
  }

  /** Requests whose handlers all insert, if at all, before the nonce can be purged. */
  ghost predicate OnceInTime(s: State) {
    forall r :: PresentedBy(s, r, Expiry(r) - s.stall) ==> Once(s.accepted, r)
  }

  ghost predicate Inv(s: State) {
    && (forall i :: 0 <= i < |s.accepted| ==> Remembered(s, s.accepted[i]))
    && (forall h :: h in s.handlers ==> Pending(s, s.handlers[h]))
    && (forall r :: r in s.latest ==> s.latest[r] <= s.now)
    && NoncesCapped(s.nonces)
    && OnceInTime(s)
  }

  lemma {:induction false} FewerNonces(s: State, t: State)
    requires Inv(s) && forall k :: k in t.nonces ==> k in s.nonces
    ensures NoncesCapped(t.nonces)
  {
    forall d ensures |NoncesOf(t.nonces, d)| <= MAX_NONCES { SubsetSize(NoncesOf(t.nonces, d), NoncesOf(s.nonces, d)); }
  }

  lemma {:induction false} OneMoreNonce(nonces: map<NonceKey, nat>, r: Signed)
    requires NoncesCapped(nonces) && |NoncesOf(nonces, r.device)| < MAX_NONCES && KeyOf(r) !in nonces
    ensures NoncesCapped(nonces[KeyOf(r) := Expiry(r)])
  {
    var more := nonces[KeyOf(r) := Expiry(r)];
    forall d ensures |NoncesOf(more, d)| <= MAX_NONCES {
      assert NoncesOf(more, d) == NoncesOf(nonces, d) + if d == r.device then {KeyOf(r)} else {};
    }
  }

  /** The arithmetic: a request that is remembered no more is too old for a handler in time. */
  lemma {:induction false} NotAcceptedBefore(s: State, h: HandlerId, i: nat)
    requires Inv(s) && Enabled(s, Insert(h)) && CanInsert(s, s.handlers[h].request) && i < |s.accepted|
    requires var r := s.handlers[h].request; PresentedBy(s, r, Expiry(r) - s.stall)
    ensures s.accepted[i] != s.handlers[h].request
  {
    assert Remembered(s, s.accepted[i]) && Pending(s, s.handlers[h]);
  }

  lemma {:induction false} InsertOnceInTime(s: State, h: HandlerId, t: State)
    requires Inv(s) && Enabled(s, Insert(h)) && CanInsert(s, s.handlers[h].request)
    requires t.latest == s.latest && t.stall == s.stall && t.accepted == s.accepted + [s.handlers[h].request]
    ensures OnceInTime(t)
  {
    forall r | PresentedBy(t, r, Expiry(r) - t.stall) ensures Once(t.accepted, r) {
      assert PresentedBy(s, r, Expiry(r) - s.stall);
      if r == s.handlers[h].request {
        forall i | 0 <= i < |s.accepted| ensures s.accepted[i] != r { NotAcceptedBefore(s, h, i); }
      }
    }
  }

  lemma {:induction false} InsertKeepsInv(s: State, h: HandlerId)
    requires Inv(s) && Enabled(s, Insert(h)) && CanInsert(s, s.handlers[h].request)
    ensures var r := s.handlers[h].request;
      Inv(s.(handlers := s.handlers - {h}, nonces := s.nonces[KeyOf(r) := Expiry(r)], accepted := s.accepted + [r]))
  {
    var r := s.handlers[h].request;
    var t := s.(handlers := s.handlers - {h}, nonces := s.nonces[KeyOf(r) := Expiry(r)], accepted := s.accepted + [r]);
    OneMoreNonce(s.nonces, r);
    InsertOnceInTime(s, h, t);
    forall i | 0 <= i < |t.accepted| ensures Remembered(t, t.accepted[i]) {
      if i < |s.accepted| { assert Remembered(s, s.accepted[i]); }
    }
    forall g | g in t.handlers ensures Pending(t, t.handlers[g]) { assert Pending(s, s.handlers[g]); }
  }

  lemma {:induction false} FewerKeepInv(s: State, e: Event)
    requires Inv(s) && Enabled(s, e) && (e.Insert? ==> !CanInsert(s, s.handlers[e.h].request))
    ensures Inv(Step(s, e))
  {
    var t := Step(s, e);
    FewerNonces(s, t);
    forall h | h in t.handlers ensures Pending(t, t.handlers[h]) {
      if h in s.handlers { assert Pending(s, s.handlers[h]); }
    }
    forall r | PresentedBy(t, r, Expiry(r) - t.stall) ensures Once(t.accepted, r) {
      assert PresentedBy(s, r, Expiry(r) - s.stall);
    }
    forall i | 0 <= i < |t.accepted| ensures Remembered(t, t.accepted[i]) { assert Remembered(s, s.accepted[i]); }
  }

  lemma {:induction false} StepKeepsInv(s: State, e: Event)
    requires Inv(s) && Enabled(s, e)
    ensures Inv(Step(s, e))
  {
    if e.Insert? && CanInsert(s, s.handlers[e.h].request) {
      InsertKeepsInv(s, e.h);
    } else {
      FewerKeepInv(s, e);
    }
  }

  lemma {:induction false} RunKeepsInv(stall: nat, es: seq<Event>)
    ensures Inv(Run(Init(stall), es)) && Run(Init(stall), es).stall == stall
  {
    if es == [] {
      forall d ensures |NoncesOf(Init(stall).nonces, d)| == 0 { assert NoncesOf(Init(stall).nonces, d) == {}; }
    } else {
      RunKeepsInv(stall, es[..|es| - 1]);
      var s := Run(Init(stall), es[..|es| - 1]);
      if Enabled(s, es[|es| - 1]) { StepKeepsInv(s, es[|es| - 1]); }
    }
  }

  // ---------------------------------------------------------------- main theorems

  /** Purging never reopens the door: whatever the stall, a request whose handlers all read the clock early
      enough to insert before its nonce can be purged is accepted at most once, ever. */
  lemma {:induction false} AcceptedOnceInTime(stall: nat, es: seq<Event>, r: Signed)
    requires PresentedBy(Run(Init(stall), es), r, Expiry(r) - stall)
    ensures Once(Run(Init(stall), es).accepted, r)
  {
    RunKeepsInv(stall, es);
  }

  predicate Prompt(stall: nat) { stall <= 1 }

  /** With clock read and insertion in the same millisecond or the next, that is every signed request. */
  lemma {:induction false} AcceptedAtMostOnce(stall: nat, es: seq<Event>)
    requires Prompt(stall)
    ensures Distinct(Run(Init(stall), es).accepted)
  {
    var s := Run(Init(stall), es);
    forall i, j | 0 <= i < j < |s.accepted| ensures s.accepted[i] != s.accepted[j] {
      PresentedFresh(stall, es, s.accepted[i]);
      AcceptedOnceInTime(stall, es, s.accepted[i]);
    }
  }

  lemma {:induction false} PresentedFresh(stall: nat, es: seq<Event>, r: Signed)
    ensures PresentedBy(Run(Init(stall), es), r, r.timestamp + CLOCK_SKEW_MS)
  {
    if es != [] { PresentedFresh(stall, es[..|es| - 1], r); }
  }

  /** The nonce table of a device is bounded. */
  lemma {:induction false} NoncesAreCapped(stall: nat, es: seq<Event>, d: DeviceId)
    ensures |NoncesOf(Run(Init(stall), es).nonces, d)| <= MAX_NONCES
  {
    RunKeepsInv(stall, es);
  }

  ghost predicate OnceBy(stall: nat, r: Signed, last: nat) {
    forall es: seq<Event> :: PresentedBy(Run(Init(stall), es), r, last) ==> Once(Run(Init(stall), es).accepted, r)
  }

  /** The bound is exact for every request, every stall and every last moment at which it may be presented. */
  lemma {:induction false} OnceByIff(stall: nat, r: Signed, last: nat)
    requires Fresh(r.timestamp, last)
    ensures OnceBy(stall, r, last) <==> last + stall <= Expiry(r)
  {
    if last + stall <= Expiry(r) {
      forall es: seq<Event> | PresentedBy(Run(Init(stall), es), r, last) ensures Once(Run(Init(stall), es).accepted, r) {
        AcceptedOnceInTime(stall, es, r);
      }
    } else {
      ReplayAfterStall(stall, r, last);
      var t := Run(Init(stall), StallRun(r, last));
      assert PresentedBy(t, r, last) && t.accepted[0] == t.accepted[1] == r;
    }
  }

  ghost predicate OnceForAll(stall: nat) {
    forall es: seq<Event> :: Distinct(Run(Init(stall), es).accepted)
  }

  /** Over all requests: a handler that takes two milliseconds or more can accept a replay. */
  lemma {:induction false} OnceIffPrompt(stall: nat)
    ensures OnceForAll(stall) <==> Prompt(stall)
  {
    if Prompt(stall) {
      forall es: seq<Event> ensures Distinct(Run(Init(stall), es).accepted) { AcceptedAtMostOnce(stall, es); }
    } else {
      var r := Signed(0, "n", 0, "{}");
      ReplayAfterStall(stall, r, CLOCK_SKEW_MS);
      var accepted := Run(Init(stall), StallRun(r, CLOCK_SKEW_MS)).accepted;
      assert accepted[0] == accepted[1];
    }
  }

  /** A request whose handler nothing disturbs is accepted if and only if its timestamp is within a minute of the clock,
      its device is enrolled and not revoked, has fewer than 500 nonces stored, and not this one. */
  lemma {:induction false} AcceptedAloneIff(stall: nat, es: seq<Event>, h: HandlerId, r: Signed)
    requires h !in Run(Init(stall), es).handlers
    ensures var s, t := Run(Init(stall), es), Run(Run(Init(stall), es), [Present(h, r), Insert(h)]);
      t.accepted ==
        if -60_000 <= s.now - r.timestamp <= 60_000 && r.device in s.devices && !s.devices[r.device]
           && |NoncesOf(s.nonces, r.device)| < 500 && NonceKey(r.device, r.nonce) !in s.nonces
        then s.accepted + [r] else s.accepted
  {
    RunKeepsInv(stall, es);
    var s := Run(Init(stall), es);
    assert [Present(h, r), Insert(h)][..1] == [Present(h, r)] && [Present(h, r)][..0] == [];
    assert Run(s, [Present(h, r)]) == if Enabled(s, Present(h, r)) then Step(s, Present(h, r)) else s;
  }

  /** Out: revoked, without nonces, and nothing accepted beyond what was. */
  ghost predicate Out(t: State, d: DeviceId, before: seq<Signed>) {
    && d in t.devices && t.devices[d] && (forall k :: k in t.nonces ==> k.device != d)
    && before <= t.accepted && (forall i :: |before| <= i < |t.accepted| ==> t.accepted[i].device != d)
  }

  lemma {:induction false} StepStaysOut(t: State, e: Event, d: DeviceId, before: seq<Signed>)
    requires Out(t, d, before) && Enabled(t, e)
    ensures Out(Step(t, e), d, before)
  {
  }

  /** A revocation is final: from then on no nonce of the device is stored and no request of it is accepted. */
  lemma {:induction false} RevokedStaysOut(stall: nat, es: seq<Event>, d: DeviceId, more: seq<Event>)
    requires d in Run(Init(stall), es).devices
    ensures Out(Run(Init(stall), es + [Revoke(d)] + more), d, Run(Init(stall), es).accepted)
  {
    if more == [] {
      assert es + [Revoke(d)] + more == es + [Revoke(d)] && (es + [Revoke(d)])[..|es|] == es;
    } else {
      var init, e := more[..|more| - 1], more[|more| - 1];
      RevokedStaysOut(stall, es, d, init);
      ButLast(es + [Revoke(d)], more);
      var t := Run(Init(stall), es + [Revoke(d)] + init);
      if Enabled(t, e) { StepStaysOut(t, e, d, Run(Init(stall), es).accepted); }
    }
  }

  // ---------------------------------------------------------------- the run that shows the bound is exact

  /** Both handlers check the timestamp at the last moment. The second one is overtaken by the purge of
      another request, in the first millisecond in which the nonce has expired. */
  function StallRun(r: Signed, last: nat): seq<Event>
    requires Fresh(r.timestamp, last)
  {
    ([Enroll(r.device), Tick(last)] + [Present(0, r), Present(1, r)])
    + ([Insert(0), Tick(Expiry(r) + 1 - last)] + [Purge(Expiry(r) + 1), Insert(1)])
  }

  lemma {:induction false} RunTwo(s: State, a: Event, b: Event)
    requires Enabled(s, a) && Enabled(Step(s, a), b)
    ensures Run(s, [a, b]) == Step(Step(s, a), b)
  {
    assert [a, b][..1] == [a] && [a][..0] == [];
    assert Run(s, [a]) == Step(s, a);
  }

  lemma {:induction false} RunConcat(s: State, es: seq<Event>, fs: seq<Event>)
    ensures Run(s, es + fs) == Run(Run(s, es), fs)
    decreases |fs|
  {
    if fs == [] {
      assert es + fs == es;
    } else {
      RunConcat(s, es, fs[..|fs| - 1]);
      assert (es + fs)[..|es + fs| - 1] == es + fs[..|fs| - 1];
    }
  }

  lemma {:induction false} BothPresent(s: State, t: State, r: Signed, last: nat)
    requires s == Init(s.stall) && Fresh(r.timestamp, last)
    requires t == s.(devices := map[r.device := false], now := last, latest := map[r := last],
                     handlers := map[0 := Handler(r, last), 1 := Handler(r, last)])
    ensures Run(s, [Enroll(r.device), Tick(last)] + [Present(0, r), Present(1, r)]) == t
  {
    var s1 := s.(devices := map[r.device := false], now := last);
    RunTwo(s, Enroll(r.device), Tick(last));
    RunTwo(s1, Present(0, r), Present(1, r));
    RunConcat(s, [Enroll(r.device), Tick(last)], [Present(0, r), Present(1, r)]);
  }

  lemma {:induction false} FirstInserts(s: State, t: State, r: Signed, last: nat)
    requires s.now == last && Fresh(r.timestamp, last) && s.devices == map[r.device := false] && s.nonces == map[] && s.accepted == []
    requires s.handlers == map[0 := Handler(r, last), 1 := Handler(r, last)]
    requires t == s.(handlers := map[1 := Handler(r, last)], nonces := map[KeyOf(r) := Expiry(r)], accepted := [r],
                     now := Expiry(r) + 1)
    ensures Run(s, [Insert(0), Tick(Expiry(r) + 1 - last)]) == t
  {
    assert NoncesOf(map[], r.device) == {};
    assert s.handlers - {0} == map[1 := Handler(r, last)];
    assert Step(s, Insert(0)) == t.(now := last);
    RunTwo(s, Insert(0), Tick(Expiry(r) + 1 - last));
  }

  lemma {:induction false} SecondInserts(s: State, r: Signed, last: nat)
    requires s.now == Expiry(r) + 1 && last + s.stall > Expiry(r) && s.devices == map[r.device := false] && s.accepted == [r]
    requires s.handlers == map[1 := Handler(r, last)] && s.nonces == map[KeyOf(r) := Expiry(r)]
    ensures var t := Run(s, [Purge(Expiry(r) + 1), Insert(1)]); t.accepted == [r, r] && t.latest == s.latest
  {
    var t := s.(nonces := map[]);
    assert Step(s, Purge(Expiry(r) + 1)) == t;
    assert NoncesOf(map[], r.device) == {};
    assert Step(t, Insert(1)).accepted == [r, r];
    RunTwo(s, Purge(Expiry(r) + 1), Insert(1));
  }

  lemma {:induction false} ReplayAfterStall(stall: nat, r: Signed, last: nat)
    requires Fresh(r.timestamp, last) && last + stall > Expiry(r)
    ensures var t := Run(Init(stall), StallRun(r, last)); t.accepted == [r, r] && t.latest == map[r := last]
  {
    var s := Init(stall);
    var s2 := s.(devices := map[r.device := false], now := last, latest := map[r := last],
                 handlers := map[0 := Handler(r, last), 1 := Handler(r, last)]);
    BothPresent(s, s2, r, last);
    var s3 := s2.(handlers := map[1 := Handler(r, last)], nonces := map[KeyOf(r) := Expiry(r)], accepted := [r], now := Expiry(r) + 1);
    FirstInserts(s2, s3, r, last);
    SecondInserts(s3, r, last);
    RunConcat(s2, [Insert(0), Tick(Expiry(r) + 1 - last)], [Purge(Expiry(r) + 1), Insert(1)]);
    RunConcat(s, [Enroll(r.device), Tick(last)] + [Present(0, r), Present(1, r)],
              [Insert(0), Tick(Expiry(r) + 1 - last)] + [Purge(Expiry(r) + 1), Insert(1)]);
  }
}
