/** The runs of the messaging bridge in which a claim is pruned while a stalled handler still means to make it. */
module MessagingRuns {
  import opened Prelude
  import opened MessagingDelivery

  // ---------------------------------------------------------------- an event dispatched twice

  const LINK := Link(0, 0, "sender", "chat", 0)
  const EVENT := Inbound(0, "1")

  /** The event is dated five minutes ahead of the first handler. The second handler reads the clock in
      the last instant of its acceptance window, stalls until the first claim has been pruned, and claims again. */
  function LongStallRun(): seq<Event> { FirstDelivery() + (LateReceipt() + (Expiry() + SecondDelivery())) }

  const RECEIVE_AT_FIRST := Deliver(Receive(0, EVENT, MAX_EVENT_LEAD_MS, 0))
  const RECEIVE_LATE := Deliver(Receive(1, EVENT, MAX_EVENT_LEAD_MS, 0))

  function FirstDelivery(): seq<Event> {
    [World(AddLink(0, LINK)), RECEIVE_AT_FIRST] + [Deliver(ClaimEvent(0)), Deliver(Act(0))]
  }

  function LateReceipt(): seq<Event> { [World(Tick(MAX_EVENT_LEAD_MS + MAX_EVENT_AGE_MS)), RECEIVE_LATE] }

  function Expiry(): seq<Event> {
    [World(Tick(DELIVERY_TTL_MS - MAX_EVENT_LEAD_MS - MAX_EVENT_AGE_MS)), Deliver(PruneRows(DELIVERY_TTL_MS))]
  }

  function SecondDelivery(): seq<Event> { [Deliver(ClaimEvent(1)), Deliver(Act(1))] }

  lemma {:induction false} RunTwo(s: State, a: Event, b: Event)
    requires Enabled(s, a) && Enabled(Step(s, a), b)
    ensures Run(s, [a, b]) == Step(Step(s, a), b)
  {
    assert [a, b][..1] == [a] && [a][..0] == [];
    assert Run(s, [a]) == Step(s, a);
  }

  lemma {:induction false} RunConcat(s: State, es: seq<Event>, fs: seq<Event>)
    ensures Run(s, es + fs) == Run(Run(s, es), fs)
    decreases |fs|
  {
    if fs == [] {
      assert es + fs == es;
    } else {
      RunConcat(s, es, fs[..|fs| - 1]);
      assert (es + fs)[..|es + fs| - 1] == es + fs[..|fs| - 1];
    }
  }

  lemma {:induction false} ReceiveFirst(s: State, t: State)
    requires s == Init(s.stall)
    requires t == s.(links := map[0 := LINK], known := map[0 := LINK], occurred := map[EVENT := MAX_EVENT_LEAD_MS],
                     handlers := map[0 := Received(EVENT, 0, 0, 0)])
    ensures Run(s, [World(AddLink(0, LINK)), RECEIVE_AT_FIRST]) == t
  {
    var s1 := s.(links := map[0 := LINK], known := map[0 := LINK]);
    assert Step(s, World(AddLink(0, LINK))) == s1;
    assert DeliveryStep(s1, Receive(0, EVENT, MAX_EVENT_LEAD_MS, 0)) == t;
    RunTwo(s, World(AddLink(0, LINK)), RECEIVE_AT_FIRST);
  }

  /** A handler that has read the clock in time claims and dispatches, if the claim's row is not there. */
  lemma {:induction false} ClaimAndAct(s: State, h: HandlerId, clock: nat)
    requires s.deliveries == map[] && s.links == map[0 := LINK] && h in s.handlers
    requires s.handlers[h] == Received(EVENT, clock, 0, 0) && s.now - clock <= s.stall
    ensures Run(s, [Deliver(ClaimEvent(h)), Deliver(Act(h))])
      == s.(deliveries := map[EVENT := Delivery(0, 0, Processing, clock, clock + DELIVERY_TTL_MS)], won := s.won[EVENT := clock],
            handlers := s.handlers[h := Working(EVENT)], acted := s.acted + [EVENT])
  {
    assert OwnerRows(map[], 0) == {};
    var row := Delivery(0, 0, Processing, clock, clock + DELIVERY_TTL_MS);
    var s1 := s.(deliveries := map[EVENT := row], won := s.won[EVENT := clock], handlers := s.handlers[h := Claimed(EVENT)]);
    assert TryClaim(s, h, EVENT, clock, Processing, 0, 0) == s1;
    assert ActOn(s1, h) == s1.(handlers := s.handlers[h := Working(EVENT)], acted := s.acted + [EVENT]);
    RunTwo(s, Deliver(ClaimEvent(h)), Deliver(Act(h)));
  }

  lemma {:induction false} ReceiveLate(s: State, t: State)
    requires s.now == 0 && s.links == map[0 := LINK] && s.occurred == map[EVENT := MAX_EVENT_LEAD_MS] && 1 !in s.handlers
    requires t == s.(now := MAX_EVENT_LEAD_MS + MAX_EVENT_AGE_MS,
                     handlers := s.handlers[1 := Received(EVENT, MAX_EVENT_LEAD_MS + MAX_EVENT_AGE_MS, 0, 0)])
    ensures Run(s, LateReceipt()) == t
  {
    var s1 := s.(now := MAX_EVENT_LEAD_MS + MAX_EVENT_AGE_MS);
    assert Step(s, LateReceipt()[0]) == s1;
    assert s1.occurred[EVENT := MAX_EVENT_LEAD_MS] == s1.occurred;
    assert DeliveryStep(s1, Receive(1, EVENT, MAX_EVENT_LEAD_MS, 0)) == t;
    RunTwo(s, LateReceipt()[0], RECEIVE_LATE);
  }

  lemma {:induction false} Expire(s: State, t: State)
    requires s.now == MAX_EVENT_LEAD_MS + MAX_EVENT_AGE_MS
    requires s.deliveries == map[EVENT := Delivery(0, 0, Processing, 0, DELIVERY_TTL_MS)]
    requires t == s.(now := DELIVERY_TTL_MS, deliveries := map[])
    ensures Run(s, Expiry()) == t
  {
    var s1 := s.(now := DELIVERY_TTL_MS);
    assert Step(s, Expiry()[0]) == s1;
    assert PruneDeliveries(s1.deliveries, DELIVERY_TTL_MS) == map[];
    RunTwo(s, Expiry()[0], Expiry()[1]);
  }

  lemma {:induction false} FirstDispatch(s: State, t: State)
    requires s == Init(s.stall)
    requires t == s.(links := map[0 := LINK], known := map[0 := LINK], occurred := map[EVENT := MAX_EVENT_LEAD_MS],
                     deliveries := map[EVENT := Delivery(0, 0, Processing, 0, DELIVERY_TTL_MS)], won := map[EVENT := 0],
                     handlers := map[0 := Working(EVENT)], acted := [EVENT])
    ensures Run(s, FirstDelivery()) == t
  {
    var s1 := s.(links := map[0 := LINK], known := map[0 := LINK], occurred := map[EVENT := MAX_EVENT_LEAD_MS],
                 handlers := map[0 := Received(EVENT, 0, 0, 0)]);
    ReceiveFirst(s, s1);
    ClaimAndAct(s1, 0, 0);
    assert s1.won[EVENT := 0] == map[EVENT := 0] && s1.handlers[0 := Working(EVENT)] == map[0 := Working(EVENT)];
    assert s1.acted + [EVENT] == [EVENT];
    RunConcat(s, [World(AddLink(0, LINK)), RECEIVE_AT_FIRST], [Deliver(ClaimEvent(0)), Deliver(Act(0))]);
  }

  lemma {:induction false} SecondDispatch(s: State)
    requires s.stall >= DELIVERY_TTL_MS - MAX_EVENT_AGE_MS - MAX_EVENT_LEAD_MS
    requires s.now == 0 && s.links == map[0 := LINK] && s.occurred == map[EVENT := MAX_EVENT_LEAD_MS]
    requires s.deliveries == map[EVENT := Delivery(0, 0, Processing, 0, DELIVERY_TTL_MS)] && 1 !in s.handlers
    ensures Run(s, LateReceipt() + (Expiry() + SecondDelivery())).acted == s.acted + [EVENT]
  {
    var clock := MAX_EVENT_LEAD_MS + MAX_EVENT_AGE_MS;
    var s1 := s.(now := clock, handlers := s.handlers[1 := Received(EVENT, clock, 0, 0)]);
    var s2 := s1.(now := DELIVERY_TTL_MS, deliveries := map[]);
    ReceiveLate(s, s1);
    Expire(s1, s2);
    ClaimAndAct(s2, 1, clock);
    RunConcat(s1, Expiry(), SecondDelivery());
    RunConcat(s, LateReceipt(), Expiry() + SecondDelivery());
  }

  lemma {:induction false} TwiceAfterLongStall(stall: nat)
    requires stall >= DELIVERY_TTL_MS - MAX_EVENT_AGE_MS - MAX_EVENT_LEAD_MS
    ensures Run(Init(stall), LongStallRun()).acted == [EVENT, EVENT]
  {
    var s := Init(stall);
    var t := Run(s, FirstDelivery());
    FirstDispatch(s, s.(links := map[0 := LINK], known := map[0 := LINK], occurred := map[EVENT := MAX_EVENT_LEAD_MS],
                        deliveries := map[EVENT := Delivery(0, 0, Processing, 0, DELIVERY_TTL_MS)], won := map[EVENT := 0],
                        handlers := map[0 := Working(EVENT)], acted := [EVENT]));
    SecondDispatch(t);
    RunConcat(s, FirstDelivery(), LateReceipt() + (Expiry() + SecondDelivery()));
  }

  // ---------------------------------------------------------------- a reply sent twice

  const REPLY := Reply(EVENT, "1")
  const AGAIN: nat := REPLY_JOB_LIFE_MS

  /** The request has been dispatched and its job is posted in the same instant; the first reply is claimed and
      sent at once. An hour later a second handler of the job begins, and the event itself is received again.
      Both stall until the first claims have been pruned; then the event is claimed anew, so that the reply still
      has a linked request, and the reply is claimed and sent again. */
  function StalledReplyRun(): seq<Event> {
    FirstDelivery() + (FirstReply() + (SecondHandlers() + (ReplyExpiry() + SecondReply())))
  }

  function Opened(h: HandlerId): seq<Event> { [Deliver(BeginReply(h, REPLY)), Deliver(PrepareReply(h))] }

  function ClaimAndSend(h: HandlerId): seq<Event> { [Deliver(ClaimReply(h)), Deliver(Act(h))] }

  function FirstReply(): seq<Event> {
    [Deliver(Settle(0, DispatchUnknown)), World(PostReply(REPLY))] + (Opened(1) + ClaimAndSend(1))
  }

  function SecondHandlers(): seq<Event> {
    [World(Tick(AGAIN)), Deliver(Receive(3, EVENT, MAX_EVENT_LEAD_MS, 0))] + Opened(2)
  }

  function ReplyExpiry(): seq<Event> {
    [World(Tick(DELIVERY_TTL_MS - AGAIN)), Deliver(PruneRows(DELIVERY_TTL_MS))]
  }

  function SecondReply(): seq<Event> { [Deliver(ClaimEvent(3)), Deliver(Act(3))] + ClaimAndSend(2) }

  /** The request row a reply needs: on its link, live, and no longer waiting for its acknowledgment. */
  predicate Answerable(row: Delivery, now: nat) {
    row.owner == 0 && row.link == 0 && row.expiresAt > now && row.status.DispatchUnknown?
  }

  lemma {:induction false} ReadyReply(s: State, h: HandlerId, hs: map<HandlerId, Handler>)
    requires s.links == map[0 := LINK] && s.handlers == hs[h := ReplyBegun(REPLY, s.now)]
    requires EVENT in s.deliveries && Answerable(s.deliveries[EVENT], s.now)
    ensures Prepare(s, h) == s.(handlers := hs[h := ReplyReady(REPLY, s.now, s.now, 0, 0)])
  {
    assert s.handlers[h := ReplyReady(REPLY, s.now, s.now, 0, 0)] == hs[h := ReplyReady(REPLY, s.now, s.now, 0, 0)];
  }

  lemma {:induction false} OpenReply(s: State, h: HandlerId)
    requires s.links == map[0 := LINK] && h !in s.handlers && REPLY in s.jobs && s.now - s.jobs[REPLY] <= REPLY_JOB_LIFE_MS
    requires EVENT in s.deliveries && Answerable(s.deliveries[EVENT], s.now)
    ensures Run(s, Opened(h)) == s.(handlers := s.handlers[h := ReplyReady(REPLY, s.now, s.now, 0, 0)])
  {
    var s1 := s.(handlers := s.handlers[h := ReplyBegun(REPLY, s.now)]);
    assert Step(s, Opened(h)[0]) == s1;
    ReadyReply(s1, h, s.handlers);
    RunTwo(s, Opened(h)[0], Opened(h)[1]);
  }

  lemma {:induction false} ClaimsReply(s: State, h: HandlerId, clock: nat, request: Delivery, row: Delivery)
    requires s.links == map[0 := LINK] && s.deliveries == map[EVENT := request] && row == Delivery(0, 0, Sending, clock, clock + DELIVERY_TTL_MS)
    ensures TryClaim(s, h, REPLY, clock, Sending, 0, 0)
      == s.(deliveries := map[EVENT := request, REPLY := row], won := s.won[REPLY := clock], handlers := s.handlers[h := Claimed(REPLY)])
  {
    SubsetSize(OwnerRows(s.deliveries, 0), {EVENT});
  }

  /** A handler of the reply job that is ready claims and sends, if only the request's row is there. */
  lemma {:induction false} SendReply(s: State, h: HandlerId, clock: nat, request: Delivery)
    requires s.links == map[0 := LINK] && s.deliveries == map[EVENT := request]
    requires request.owner == 0 && request.link == 0 && request.expiresAt > s.now
    requires h in s.handlers && s.handlers[h] == ReplyReady(REPLY, clock, clock, 0, 0) && s.now - clock <= s.stall
    ensures Run(s, ClaimAndSend(h))
      == s.(deliveries := map[EVENT := request, REPLY := Delivery(0, 0, Sending, clock, clock + DELIVERY_TTL_MS)],
            won := s.won[REPLY := clock], handlers := s.handlers[h := Working(REPLY)], acted := s.acted + [REPLY])
  {
    var row := Delivery(0, 0, Sending, clock, clock + DELIVERY_TTL_MS);
    var s1 := s.(deliveries := map[EVENT := request, REPLY := row], won := s.won[REPLY := clock], handlers := s.handlers[h := Claimed(REPLY)]);
    ClaimsReply(s, h, clock, request, row);
    SendsReply(s1, h, s.handlers);
    RunTwo(s, ClaimAndSend(h)[0], ClaimAndSend(h)[1]);
  }

  lemma {:induction false} SendsReply(s: State, h: HandlerId, hs: map<HandlerId, Handler>)
    requires s.handlers == hs[h := Claimed(REPLY)] && RequestLinked(s, EVENT)
    ensures ActOn(s, h) == s.(handlers := hs[h := Working(REPLY)], acted := s.acted + [REPLY])
  {
    assert s.handlers[h := Working(REPLY)] == hs[h := Working(REPLY)];
  }

  const ANSWERED := Delivery(0, 0, DispatchUnknown, 0, DELIVERY_TTL_MS)
  const FIRST_SENT := Delivery(0, 0, Sending, 0, DELIVERY_TTL_MS)

  lemma {:induction false} PostFirstReply(s: State, t: State)
    requires s.now == 0 && s.deliveries == map[EVENT := Delivery(0, 0, Processing, 0, DELIVERY_TTL_MS)]
    requires s.jobs == map[] && s.handlers == map[0 := Working(EVENT)]
    requires t == s.(deliveries := map[EVENT := ANSWERED], handlers := map[], jobs := map[REPLY := 0])
    ensures Run(s, [Deliver(Settle(0, DispatchUnknown)), World(PostReply(REPLY))]) == t
  {
    assert SetStatus(s.deliveries, EVENT, DispatchUnknown, 0) == map[EVENT := ANSWERED];
    assert Step(s, Deliver(Settle(0, DispatchUnknown))) == t.(jobs := map[]);
    RunTwo(s, Deliver(Settle(0, DispatchUnknown)), World(PostReply(REPLY)));
  }

  lemma {:induction false} OpenFirst(s: State)
    requires s.now == 0 && s.links == map[0 := LINK] && s.jobs == map[REPLY := 0] && s.handlers == map[]
    requires s.deliveries == map[EVENT := ANSWERED]
    ensures Run(s, Opened(1)) == s.(handlers := map[1 := ReplyReady(REPLY, 0, 0, 0, 0)])
  {
    OpenReply(s, 1);
  }

  lemma {:induction false} SendFirst(s: State)
    requires s.now == 0 && s.links == map[0 := LINK] && s.deliveries == map[EVENT := ANSWERED]
    requires s.handlers == map[1 := ReplyReady(REPLY, 0, 0, 0, 0)]
    ensures Run(s, ClaimAndSend(1)) == s.(deliveries := map[EVENT := ANSWERED, REPLY := FIRST_SENT], won := s.won[REPLY := 0],
                                  handlers := map[1 := Working(REPLY)], acted := s.acted + [REPLY])
  {
    SendReply(s, 1, 0, ANSWERED);
    assert s.handlers[1 := Working(REPLY)] == map[1 := Working(REPLY)];
  }

  lemma {:induction false} OpenAndSend(s: State, t: State)
    requires s.now == 0 && s.links == map[0 := LINK] && s.jobs == map[REPLY := 0] && s.handlers == map[]
    requires s.deliveries == map[EVENT := ANSWERED]
    requires t == s.(deliveries := map[EVENT := ANSWERED, REPLY := FIRST_SENT], won := s.won[REPLY := 0],
                     handlers := map[1 := Working(REPLY)], acted := s.acted + [REPLY])
    ensures Run(s, Opened(1) + ClaimAndSend(1)) == t
  {
    OpenFirst(s);
    SendFirst(s.(handlers := map[1 := ReplyReady(REPLY, 0, 0, 0, 0)]));
    RunConcat(s, Opened(1), ClaimAndSend(1));
  }

  lemma {:induction false} FirstSend(s: State, t: State)
    requires s.now == 0 && s.deliveries == map[EVENT := Delivery(0, 0, Processing, 0, DELIVERY_TTL_MS)]
    requires s.links == map[0 := LINK] && s.jobs == map[] && s.handlers == map[0 := Working(EVENT)]
    requires t == s.(deliveries := map[EVENT := ANSWERED, REPLY := FIRST_SENT], won := s.won[REPLY := 0], jobs := map[REPLY := 0],
                     handlers := map[1 := Working(REPLY)], acted := s.acted + [REPLY])
    ensures Run(s, FirstReply()) == t
  {
    var s1 := s.(deliveries := map[EVENT := ANSWERED], handlers := map[], jobs := map[REPLY := 0]);
    PostFirstReply(s, s1);
    OpenAndSend(s1, t);
    RunConcat(s, [Deliver(Settle(0, DispatchUnknown)), World(PostReply(REPLY))], Opened(1) + ClaimAndSend(1));
  }

  lemma {:induction false} ReceiveAgain(s: State, t: State)
    requires s.now == 0 && s.links == map[0 := LINK] && s.occurred == map[EVENT := MAX_EVENT_LEAD_MS] && 3 !in s.handlers
    requires t == s.(now := AGAIN, handlers := s.handlers[3 := Received(EVENT, AGAIN, 0, 0)])
    ensures Run(s, [World(Tick(AGAIN)), Deliver(Receive(3, EVENT, MAX_EVENT_LEAD_MS, 0))]) == t
  {
    var s1 := s.(now := AGAIN);
    assert Step(s, World(Tick(AGAIN))) == s1;
    assert s1.occurred[EVENT := MAX_EVENT_LEAD_MS] == s1.occurred;
    assert DeliveryStep(s1, Receive(3, EVENT, MAX_EVENT_LEAD_MS, 0)) == t;
    RunTwo(s, World(Tick(AGAIN)), Deliver(Receive(3, EVENT, MAX_EVENT_LEAD_MS, 0)));
  }

  lemma {:induction false} OpenSecond(s: State, t: State)
    requires s.now == 0 && s.links == map[0 := LINK] && s.occurred == map[EVENT := MAX_EVENT_LEAD_MS]
    requires s.jobs == map[REPLY := 0] && 3 !in s.handlers && 2 !in s.handlers
    requires s.deliveries == map[EVENT := ANSWERED, REPLY := FIRST_SENT]
    requires t == s.(now := AGAIN, handlers := s.handlers[3 := Received(EVENT, AGAIN, 0, 0)][2 := ReplyReady(REPLY, AGAIN, AGAIN, 0, 0)])
    ensures Run(s, SecondHandlers()) == t
  {
    var s1 := s.(now := AGAIN, handlers := s.handlers[3 := Received(EVENT, AGAIN, 0, 0)]);
    ReceiveAgain(s, s1);
    OpenReply(s1, 2);
    RunConcat(s, [World(Tick(AGAIN)), Deliver(Receive(3, EVENT, MAX_EVENT_LEAD_MS, 0))], Opened(2));
  }

  lemma {:induction false} ExpireReply(s: State, t: State)
    requires s.now == AGAIN && s.deliveries == map[EVENT := ANSWERED, REPLY := FIRST_SENT]
    requires t == s.(now := DELIVERY_TTL_MS, deliveries := map[])
    ensures Run(s, ReplyExpiry()) == t
  {
    var s1 := s.(now := DELIVERY_TTL_MS);
    assert Step(s, ReplyExpiry()[0]) == s1;
    assert PruneDeliveries(s1.deliveries, DELIVERY_TTL_MS) == map[];
    RunTwo(s, ReplyExpiry()[0], ReplyExpiry()[1]);
  }

  lemma {:induction false} SecondSend(s: State)
    requires s.stall >= DELIVERY_TTL_MS - REPLY_JOB_LIFE_MS && s.now == DELIVERY_TTL_MS
    requires s.links == map[0 := LINK] && s.deliveries == map[]
    requires 2 in s.handlers && s.handlers[2] == ReplyReady(REPLY, AGAIN, AGAIN, 0, 0)
    requires 3 in s.handlers && s.handlers[3] == Received(EVENT, AGAIN, 0, 0)
    ensures Run(s, SecondReply()).acted == s.acted + [EVENT] + [REPLY]
  {
    var request := Delivery(0, 0, Processing, AGAIN, AGAIN + DELIVERY_TTL_MS);
    var s1 := s.(deliveries := map[EVENT := request], won := s.won[EVENT := AGAIN],
                 handlers := s.handlers[3 := Working(EVENT)], acted := s.acted + [EVENT]);
    ClaimAndAct(s, 3, AGAIN);
    SendReply(s1, 2, AGAIN, request);
    RunConcat(s, [Deliver(ClaimEvent(3)), Deliver(Act(3))], ClaimAndSend(2));
  }

  lemma {:induction false} StalledSend(s: State)
    requires s.stall >= DELIVERY_TTL_MS - REPLY_JOB_LIFE_MS
    requires s.now == 0 && s.links == map[0 := LINK] && s.occurred == map[EVENT := MAX_EVENT_LEAD_MS]
    requires s.jobs == map[REPLY := 0] && 3 !in s.handlers && 2 !in s.handlers
    requires s.deliveries == map[EVENT := ANSWERED, REPLY := FIRST_SENT]
    ensures Run(s, SecondHandlers() + (ReplyExpiry() + SecondReply())).acted == s.acted + [EVENT] + [REPLY]
  {
    var s1 := s.(now := AGAIN, handlers := s.handlers[3 := Received(EVENT, AGAIN, 0, 0)][2 := ReplyReady(REPLY, AGAIN, AGAIN, 0, 0)]);
    var s2 := s1.(now := DELIVERY_TTL_MS, deliveries := map[]);
    OpenSecond(s, s1);
    ExpireReply(s1, s2);
    SecondSend(s2);
    RunConcat(s1, ReplyExpiry(), SecondReply());
    RunConcat(s, SecondHandlers(), ReplyExpiry() + SecondReply());
  }

  lemma {:induction false} RepliesTwice(stall: nat)
    requires stall >= DELIVERY_TTL_MS - REPLY_JOB_LIFE_MS
    ensures Run(Init(stall), StalledReplyRun()).acted == [EVENT, REPLY, EVENT, REPLY]
  {
    var s := Init(stall);
    var s1 := s.(links := map[0 := LINK], known := map[0 := LINK], occurred := map[EVENT := MAX_EVENT_LEAD_MS],
                 deliveries := map[EVENT := Delivery(0, 0, Processing, 0, DELIVERY_TTL_MS)], won := map[EVENT := 0],
                 handlers := map[0 := Working(EVENT)], acted := [EVENT]);
    var s2 := s1.(deliveries := map[EVENT := ANSWERED, REPLY := FIRST_SENT], won := s1.won[REPLY := 0], jobs := map[REPLY := 0],
                  handlers := map[1 := Working(REPLY)], acted := [EVENT] + [REPLY]);
    FirstDispatch(s, s1);
    FirstSend(s1, s2);
    StalledSend(s2);
    RunConcat(s1, FirstReply(), SecondHandlers() + (ReplyExpiry() + SecondReply()));
    RunConcat(s, FirstDelivery(), FirstReply() + (SecondHandlers() + (ReplyExpiry() + SecondReply())));
  }

  // ---------------------------------------------------------------- two cards for one confirmation

  const CARD := CardKey(0, 0)
  const LAST: nat := APPROVAL_TTL_MS - 1

  /** The second handler reads the clock in the last millisecond of the confirmation and stalls until the first
      card's row has been pruned. */
  function StalledCardRun(): seq<Event> { FirstCard() + (LateOffer() + (CardExpiry() + ClaimAndShow(1))) }

  function FirstCard(): seq<Event> {
    [World(AddLink(0, LINK)), World(IssueConfirmation(0))] + ([Approve(BeginCard(0, 0, 0))] + ClaimAndShow(0))
  }

  function LateOffer(): seq<Event> { [World(Tick(LAST)), Approve(BeginCard(1, 0, 0))] }

  function CardExpiry(): seq<Event> { [World(Tick(RETENTION_MS - LAST)), Approve(PruneCards({0}, RETENTION_MS))] }

  function ClaimAndShow(h: HandlerId): seq<Event> { [Approve(ClaimCard(h, h)), Approve(SendCard(h, CardUnknown, None))] }

  lemma {:induction false} RunOne(s: State, a: Event)
    requires Enabled(s, a)
    ensures Run(s, [a]) == Step(s, a)
  {
    assert [a][..0] == [];
  }

  /** A handler that has begun claims its card and hands it over, if no row is there. */
  lemma {:induction false} ShowCard(s: State, h: HandlerId, clock: nat)
    requires s.links == map[0 := LINK] && s.approvals == map[] && h !in s.minted
    requires h in s.handlers && s.handlers[h] == CardBegun(0, APPROVAL_TTL_MS, clock, 0) && s.now - clock <= s.stall
    ensures Run(s, ClaimAndShow(h))
      == s.(approvals := map[h := NewCard(0, APPROVAL_TTL_MS, clock, 0, LINK)], minted := s.minted + {h},
            cardWon := s.cardWon[CARD := CardClaim(h, clock)],
            handlers := s.handlers[h := CardWorking(h, CardUnknown, None)], cards := s.cards + [CARD])
  {
    assert OwnerCards(map[], 0) == {};
    var row := NewCard(0, APPROVAL_TTL_MS, clock, 0, LINK);
    var s1 := s.(approvals := map[h := row], minted := s.minted + {h}, cardWon := s.cardWon[CARD := CardClaim(h, clock)],
                 handlers := s.handlers[h := CardClaimed(h, 0, 0)]);
    assert CardToClaim(s, s.handlers[h], h) == Some(row);
    assert MintCard(s, h, h) == s1;
    assert CardStep(s1, SendCard(h, CardUnknown, None))
      == s1.(handlers := s.handlers[h := CardWorking(h, CardUnknown, None)], cards := s.cards + [CARD]);
    RunTwo(s, ClaimAndShow(h)[0], ClaimAndShow(h)[1]);
  }

  const SHOWN := Approval(0, 0, LINK, None, CardSending, APPROVAL_TTL_MS, RETENTION_MS)

  lemma {:induction false} IssueAndBegin(s: State, t: State)
    requires s == Init(s.stall)
    requires t == s.(links := map[0 := LINK], known := map[0 := LINK], issued := map[0 := 0])
    ensures Run(s, [World(AddLink(0, LINK)), World(IssueConfirmation(0))]) == t
    ensures Run(t, [Approve(BeginCard(0, 0, 0))]) == t.(handlers := map[0 := CardBegun(0, APPROVAL_TTL_MS, 0, 0)])
  {
    assert Step(s, World(AddLink(0, LINK))) == t.(issued := map[]);
    RunTwo(s, World(AddLink(0, LINK)), World(IssueConfirmation(0)));
    RunOne(t, Approve(BeginCard(0, 0, 0)));
  }

  lemma {:induction false} ShowFirst(s: State, t: State)
    requires s == Init(s.stall)
    requires t == s.(links := map[0 := LINK], known := map[0 := LINK], issued := map[0 := 0], approvals := map[0 := SHOWN],
                     minted := {0}, cardWon := map[CARD := CardClaim(0, 0)],
                     handlers := map[0 := CardWorking(0, CardUnknown, None)], cards := [CARD])
    ensures Run(s, FirstCard()) == t
  {
    var s1 := s.(links := map[0 := LINK], known := map[0 := LINK], issued := map[0 := 0]);
    var s2 := s1.(handlers := map[0 := CardBegun(0, APPROVAL_TTL_MS, 0, 0)]);
    IssueAndBegin(s, s1);
    ShowCard(s2, 0, 0);
    assert s2.minted + {0} == {0} && s2.cards + [CARD] == [CARD];
    RunConcat(s1, [Approve(BeginCard(0, 0, 0))], ClaimAndShow(0));
    RunConcat(s, [World(AddLink(0, LINK)), World(IssueConfirmation(0))], [Approve(BeginCard(0, 0, 0))] + ClaimAndShow(0));
  }

  lemma {:induction false} OfferLate(s: State, t: State)
    requires s.now == 0 && s.issued == map[0 := 0] && 1 !in s.handlers
    requires t == s.(now := LAST, handlers := s.handlers[1 := CardBegun(0, APPROVAL_TTL_MS, LAST, 0)])
    ensures Run(s, LateOffer()) == t
  {
    var s1 := s.(now := LAST);
    assert Step(s, LateOffer()[0]) == s1;
    assert CardStep(s1, BeginCard(1, 0, 0)) == t;
    RunTwo(s, LateOffer()[0], LateOffer()[1]);
  }

  lemma {:induction false} ExpireCard(s: State, t: State)
    requires s.now == LAST && s.approvals == map[0 := SHOWN] && t == s.(now := RETENTION_MS, approvals := map[])
    ensures Run(s, CardExpiry()) == t
  {
    assert |{0}| == 1;
    assert Step(s, CardExpiry()[0]) == s.(now := RETENTION_MS);
    RunTwo(s, CardExpiry()[0], CardExpiry()[1]);
  }

  lemma {:induction false} ShowSecond(s: State)
    requires s.stall > RETENTION_MS - APPROVAL_TTL_MS
    requires s.now == 0 && s.links == map[0 := LINK] && s.issued == map[0 := 0] && s.approvals == map[0 := SHOWN]
    requires s.minted == {0} && 1 !in s.handlers
    ensures Run(s, LateOffer() + (CardExpiry() + ClaimAndShow(1))).cards == s.cards + [CARD]
  {
    var s1 := s.(now := LAST, handlers := s.handlers[1 := CardBegun(0, APPROVAL_TTL_MS, LAST, 0)]);
    var s2 := s1.(now := RETENTION_MS, approvals := map[]);
    OfferLate(s, s1);
    ExpireCard(s1, s2);
    ShowCard(s2, 1, LAST);
    RunConcat(s1, CardExpiry(), ClaimAndShow(1));
    RunConcat(s, LateOffer(), CardExpiry() + ClaimAndShow(1));
  }

  lemma {:induction false} CardsTwice(stall: nat)
    requires stall > RETENTION_MS - APPROVAL_TTL_MS
    ensures Run(Init(stall), StalledCardRun()).cards == [CARD, CARD]
  {
    var s := Init(stall);
    var s1 := s.(links := map[0 := LINK], known := map[0 := LINK], issued := map[0 := 0], approvals := map[0 := SHOWN],
                 minted := {0}, cardWon := map[CARD := CardClaim(0, 0)],
                 handlers := map[0 := CardWorking(0, CardUnknown, None)], cards := [CARD]);
    ShowFirst(s, s1);
    ShowSecond(s1);
    RunConcat(s, FirstCard(), LateOffer() + (CardExpiry() + ClaimAndShow(1)));
  }
}
