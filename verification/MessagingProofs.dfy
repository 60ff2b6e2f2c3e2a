/**
  The invariant of the messaging bridge, kept by every event: claims outlive every second chance to
  make them. For each key that was ever won the history knows when, and either its row is still
  there or the clock has passed the last moment at which another handler could try it. Cards and
  tokens are tied to the confirmations they were minted for in the same way. Lemmas about single
  tables come first, then those about the handlers that hold claims, then the steps by kind of event.
*/
module MessagingProofs {
  import opened Prelude
  import opened MessagingDelivery

  type Handlers = map<HandlerId, Handler>

  /** Keys whose claim cannot be won twice when handlers take at most `stall` to claim. */
  predicate Guarded(stall: nat, key: Key) {
    match key
    case Inbound(_, _) => stall < DELIVERY_TTL_MS - MAX_EVENT_AGE_MS - MAX_EVENT_LEAD_MS
    case Reply(_, _) => stall < DELIVERY_TTL_MS - REPLY_JOB_LIFE_MS
    case Click(_) => true
    case Notice(_, _, _) => false
  }

  /** A won claim has its row until 48 hours after the clock value it was made with. */
  ghost predicate ClaimsKept(d: Deliveries, won: map<Key, nat>, now: nat) {
    && (forall k :: k in d ==> k in won && d[k].expiresAt == won[k] + DELIVERY_TTL_MS)
    && (forall k :: k in won && !k.Notice? && k !in d ==> won[k] + DELIVERY_TTL_MS <= now)
  }

  ghost predicate WonInTime(won: map<Key, nat>, occurred: map<Key, int>, jobs: map<Key, nat>) {
    && (forall k :: k in won && k.Inbound? ==> k in occurred && InWindow(occurred[k], won[k]))
    && (forall k :: k in won && k.Reply? ==> k in jobs && jobs[k] <= won[k])
  }

  predicate Timely(h: Handler, occurred: map<Key, int>, jobs: map<Key, nat>, issued: map<ConfirmationId, nat>, now: nat) {
    match h
    case Received(k, clock, _, _) => k.Inbound? && k in occurred && InWindow(occurred[k], clock) && clock <= now
    case ReplyBegun(k, began) => k.Reply? && k in jobs && jobs[k] <= began <= jobs[k] + REPLY_JOB_LIFE_MS && began <= now
    case ReplyReady(k, began, clock, _, _) =>
      k.Reply? && k in jobs && jobs[k] <= began <= jobs[k] + REPLY_JOB_LIFE_MS && began <= clock <= now
    case CardBegun(c, deadline, clock, _) =>
      c in issued && deadline == issued[c] + APPROVAL_TTL_MS && issued[c] <= clock < deadline && clock <= now
    case CardWorking(_, outcome, _) => outcome.CardSent? || outcome.CardUnknown? || outcome.CardUnlinked?
    case _ => true
  }

  ghost predicate AllTimely(hs: Handlers, occurred: map<Key, int>, jobs: map<Key, nat>, issued: map<ConfirmationId, nat>, now: nat) {
    && (forall h :: h in hs ==> Timely(hs[h], occurred, jobs, issued, now))
    && (forall k :: k in jobs ==> k.Reply? && jobs[k] <= now)
    && (forall c :: c in issued ==> issued[c] <= now)
  }

  predicate Holds(handlers: Handlers, h: HandlerId, k: Key) {
    h in handlers && handlers[h] == Claimed(k)
  }

  /** A claim is held by one handler at a time, and only until it acts. */
  ghost predicate HeldOnce(stall: nat, handlers: Handlers, won: map<Key, nat>, acted: seq<Key>) {
    && (forall h, k :: Holds(handlers, h, k) ==> k in won)
    && (forall h, k :: Holds(handlers, h, k) && Guarded(stall, k) ==> k !in acted)
    && (forall g, h, k :: Holds(handlers, g, k) && Holds(handlers, h, k) && Guarded(stall, k) ==> g == h)
  }

  ghost predicate ActedOnce(stall: nat, won: map<Key, nat>, acted: seq<Key>) {
    && (forall i :: 0 <= i < |acted| ==> acted[i] in won)
    && (forall i, j :: 0 <= i < j < |acted| && Guarded(stall, acted[i]) ==> acted[i] != acted[j])
  }

  predicate Decided(decisions: seq<Decision>, t: Token) {
    exists i :: 0 <= i < |decisions| && decisions[i].token == t
  }

  ghost predicate ClicksDecided(won: map<Key, nat>, a: Approvals, minted: set<Token>, decisions: seq<Decision>) {
    && a.Keys <= minted
    && (forall t :: Click(t) in won <==> Decided(decisions, t))
    && (forall t :: Click(t) in won ==> t in minted)
    && (forall t :: t in a && Click(t) in won ==> a[t].status.Consumed?)
    && (forall i, j :: 0 <= i < j < |decisions| ==> decisions[i].token != decisions[j].token)
  }

  ghost predicate RowsCapped(d: Deliveries) {
    forall o :: |OwnerRows(d, o)| <= MAX_RETAINED_DELIVERIES
  }

  ghost predicate CardsCapped(a: Approvals) {
    forall o :: |OwnerCards(a, o)| <= MAX_APPROVALS
  }

  ghost predicate LinksKnown(links: Links, known: Links, a: Approvals) {
    && (forall l :: l in links ==> l in known && known[l] == links[l])
    && (forall t :: t in a ==> a[t].linkId in known && known[a[t].linkId] == a[t].link)
  }

  predicate CardStall(stall: nat) { stall <= RETENTION_MS - APPROVAL_TTL_MS }

  ghost predicate CardsKept(cardWon: map<CardKey, CardClaim>, a: Approvals, issued: map<ConfirmationId, nat>, now: nat) {
    forall p :: p in cardWon ==>
      && p.confirmation in issued && issued[p.confirmation] <= cardWon[p].clock
      && (cardWon[p].clock + RETENTION_MS <= now || CardRow(a, cardWon[p].token, p, cardWon[p].clock))
  }

  predicate CardRow(a: Approvals, t: Token, p: CardKey, clock: nat) {
    t in a && a[t].linkId == p.link && a[t].confirmation == p.confirmation && a[t].retainUntil == clock + RETENTION_MS
  }

  predicate HoldsCard(handlers: Handlers, h: HandlerId, p: CardKey) {
    h in handlers && handlers[h].CardClaimed? && handlers[h].linkId == p.link && handlers[h].confirmation == p.confirmation
  }

  ghost predicate CardsOnce(handlers: Handlers, cardWon: map<CardKey, CardClaim>,
                            cards: seq<CardKey>) {
    && (forall h, p :: HoldsCard(handlers, h, p) ==> p in cardWon && p !in cards)
    && (forall g, h, p :: HoldsCard(handlers, g, p) && HoldsCard(handlers, h, p) ==> g == h)
    && (forall i :: 0 <= i < |cards| ==> cards[i] in cardWon)
    && (forall i, j :: 0 <= i < j < |cards| ==> cards[i] != cards[j])
  }

  ghost predicate Inv(s: State) {
    && ClaimsKept(s.deliveries, s.won, s.now)
    && WonInTime(s.won, s.occurred, s.jobs)
    && AllTimely(s.handlers, s.occurred, s.jobs, s.issued, s.now)
    && HeldOnce(s.stall, s.handlers, s.won, s.acted)
    && ActedOnce(s.stall, s.won, s.acted)
    && ClicksDecided(s.won, s.approvals, s.minted, s.decisions)
    && RowsCapped(s.deliveries)
    && CardsCapped(s.approvals)
    && LinksKnown(s.links, s.known, s.approvals)
    && CardsKept(s.cardWon, s.approvals, s.issued, s.now)
    && (CardStall(s.stall) ==> CardsOnce(s.handlers, s.cardWon, s.cards))
  }

  // ---------------------------------------------------------------- the arithmetic that makes pruning safe

  /** A guarded claim that was won before still has its row when anybody else can try it again. */
  lemma {:induction false} SecondClaimFails(s: State, h: HandlerId)
    requires Inv(s) && h in s.handlers && (s.handlers[h].Received? || s.handlers[h].ReplyReady?)
    requires Guarded(s.stall, s.handlers[h].key) && s.handlers[h].key in s.won
    requires s.handlers[h].Received? ==> DeliveryEnabled(s, ClaimEvent(h))
    requires s.handlers[h].ReplyReady? ==> DeliveryEnabled(s, ClaimReply(h))
    ensures s.handlers[h].key in s.deliveries
  {
    assert Timely(s.handlers[h], s.occurred, s.jobs, s.issued, s.now);
  }

  lemma {:induction false} SecondCardFails(s: State, h: HandlerId, token: Token)
    requires Inv(s) && CardEnabled(s, ClaimCard(h, token)) && CardStall(s.stall)
    requires CardKey(s.handlers[h].linkId, s.handlers[h].confirmation) in s.cardWon
    ensures var p := CardKey(s.handlers[h].linkId, s.handlers[h].confirmation);
      CardRow(s.approvals, s.cardWon[p].token, p, s.cardWon[p].clock)
  {
    assert Timely(s.handlers[h], s.occurred, s.jobs, s.issued, s.now);
  }

  // ---------------------------------------------------------------- caps

  lemma {:induction false} InsertCapped(d: Deliveries, key: Key, row: Delivery)
    requires RowsCapped(d) && key !in d && |OwnerRows(d, row.owner)| < MAX_RETAINED_DELIVERIES
    ensures RowsCapped(d[key := row])
  {
    var e := d[key := row];
    forall o ensures |OwnerRows(e, o)| <= MAX_RETAINED_DELIVERIES {
      assert OwnerRows(e, o) == OwnerRows(d, o) + if o == row.owner then {key} else {};
    }
  }

  lemma {:induction false} FewerRows(d: Deliveries, e: Deliveries)
    requires RowsCapped(d) && forall k :: k in e ==> k in d && e[k].owner == d[k].owner
    ensures RowsCapped(e)
  {
    forall o ensures |OwnerRows(e, o)| <= MAX_RETAINED_DELIVERIES { SubsetSize(OwnerRows(e, o), OwnerRows(d, o)); }
  }

  lemma {:induction false} FewerCards(a: Approvals, b: Approvals)
    requires CardsCapped(a) && forall t :: t in b ==> t in a && b[t].link.owner == a[t].link.owner
    ensures CardsCapped(b)
  {
    forall o ensures |OwnerCards(b, o)| <= MAX_APPROVALS { SubsetSize(OwnerCards(b, o), OwnerCards(a, o)); }
  }

  lemma {:induction false} MintCapped(a: Approvals, token: Token, row: Approval)
    requires CardsCapped(a) && token !in a && |OwnerCards(a, row.link.owner)| < MAX_APPROVALS
    ensures CardsCapped(a[token := row])
  {
    var b := a[token := row];
    forall o ensures |OwnerCards(b, o)| <= MAX_APPROVALS {
      assert OwnerCards(b, o) == OwnerCards(a, o) + if o == row.link.owner then {token} else {};
    }
  }

  // ---------------------------------------------------------------- who holds what

  /** Handlers that let go of claims, or never had one, upset nothing. */
  lemma {:induction false} FewerHolders(stall: nat, hs: Handlers, less: Handlers, won: map<Key, nat>, acted: seq<Key>,
                     cardWon: map<CardKey, CardClaim>, cards: seq<CardKey>)
    requires forall h :: h in less && (less[h].Claimed? || less[h].CardClaimed?) ==> h in hs && hs[h] == less[h]
    ensures HeldOnce(stall, hs, won, acted) ==> HeldOnce(stall, less, won, acted)
    ensures CardsOnce(hs, cardWon, cards) ==> CardsOnce(less, cardWon, cards)
  {
    forall h, k | Holds(less, h, k) ensures Holds(hs, h, k) {}
    forall h, p | HoldsCard(less, h, p) ensures HoldsCard(hs, h, p) {}
  }

  lemma {:induction false} ClaimHeld(stall: nat, hs: Handlers, won: map<Key, nat>, acted: seq<Key>, h: HandlerId, key: Key, clock: nat)
    requires HeldOnce(stall, hs, won, acted) && ActedOnce(stall, won, acted)
    requires Guarded(stall, key) ==> key !in won
    ensures HeldOnce(stall, hs[h := Claimed(key)], won[key := clock], acted)
    ensures ActedOnce(stall, won[key := clock], acted)
  {
    var after := hs[h := Claimed(key)];
    forall g, k | Holds(after, g, k) ensures Holds(hs, g, k) || (g == h && k == key) {}
  }

  lemma {:induction false} ClaimLeavesCards(hs: Handlers, h: HandlerId, key: Key, cardWon: map<CardKey, CardClaim>, cards: seq<CardKey>)
    requires CardsOnce(hs, cardWon, cards)
    ensures CardsOnce(hs[h := Claimed(key)], cardWon, cards)
  {
    var after := hs[h := Claimed(key)];
    forall g, p | HoldsCard(after, g, p) ensures HoldsCard(hs, g, p) {}
  }

  lemma {:induction false} ActHeld(stall: nat, hs: Handlers, won: map<Key, nat>, acted: seq<Key>, h: HandlerId, key: Key)
    requires HeldOnce(stall, hs, won, acted) && ActedOnce(stall, won, acted) && Holds(hs, h, key)
    ensures HeldOnce(stall, hs[h := Working(key)], won, acted + [key])
    ensures ActedOnce(stall, won, acted + [key])
  {
    var after := hs[h := Working(key)];
    forall g, k | Holds(after, g, k) ensures Holds(hs, g, k) && g != h {}
    forall g | Holds(hs, g, key) && Guarded(stall, key) ensures g == h {}
    forall g, k | Holds(after, g, k) && Guarded(stall, k) ensures k != key {}
  }

  lemma {:induction false} ClaimKept(d: Deliveries, won: map<Key, nat>, now: nat, key: Key, row: Delivery, clock: nat)
    requires ClaimsKept(d, won, now) && row.expiresAt == clock + DELIVERY_TTL_MS
    ensures ClaimsKept(d[key := row], won[key := clock], now)
  {
  }

  // ---------------------------------------------------------------- steps

  lemma {:induction false} DropKeepsInv(s: State, h: HandlerId)
    requires Inv(s)
    ensures Inv(Drop(s, h))
  {
    FewerHolders(s.stall, s.handlers, s.handlers - {h}, s.won, s.acted, s.cardWon, s.cards);
  }

  lemma {:induction false} ClaimKeepsInv(s: State, h: HandlerId, key: Key, clock: nat, row: Delivery)
    requires Inv(s) && clock <= s.now && !key.Click? && row.expiresAt == clock + DELIVERY_TTL_MS
    requires key !in s.deliveries && |OwnerRows(s.deliveries, row.owner)| < MAX_RETAINED_DELIVERIES
    requires Guarded(s.stall, key) ==> key !in s.won
    requires key.Inbound? ==> key in s.occurred && InWindow(s.occurred[key], clock)
    requires key.Reply? ==> key in s.jobs && s.jobs[key] <= clock
    ensures Inv(s.(deliveries := s.deliveries[key := row], won := s.won[key := clock], handlers := s.handlers[h := Claimed(key)]))
  {
    ClaimedTables(s, h, key, clock, row);
    ClaimDecides(s.won, s.approvals, s.minted, s.decisions, key, clock);
  }

  lemma {:induction false} ClaimTimely(hs: Handlers, occurred: map<Key, int>, jobs: map<Key, nat>, issued: map<ConfirmationId, nat>, now: nat, h: HandlerId, key: Key)
    requires AllTimely(hs, occurred, jobs, issued, now)
    ensures AllTimely(hs[h := Claimed(key)], occurred, jobs, issued, now)
  {
  }

  lemma {:induction false} TryClaimKeepsInv(s: State, h: HandlerId, key: Key, clock: nat, status: DeliveryStatus, link: LinkId, owner: OwnerId)
    requires Inv(s) && clock <= s.now && !key.Click?
    requires Guarded(s.stall, key) && key in s.won ==> key in s.deliveries
    requires key.Inbound? ==> key in s.occurred && InWindow(s.occurred[key], clock)
    requires key.Reply? ==> key in s.jobs && s.jobs[key] <= clock
    ensures Inv(TryClaim(s, h, key, clock, status, link, owner))
  {
    var row := Delivery(owner, link, status, clock, clock + DELIVERY_TTL_MS);
    if CanClaim(s.deliveries, s.links, key, row) {
      ClaimKeepsInv(s, h, key, clock, row);
    } else {
      DropKeepsInv(s, h);
    }
  }

  lemma {:induction false} ClaimDecides(won: map<Key, nat>, a: Approvals, minted: set<Token>, decisions: seq<Decision>, key: Key, clock: nat)
    requires ClicksDecided(won, a, minted, decisions) && !key.Click?
    ensures ClicksDecided(won[key := clock], a, minted, decisions)
  {
  }

  lemma {:induction false} ActKeepsInv(s: State, h: HandlerId, key: Key)
    requires Inv(s) && Holds(s.handlers, h, key)
    ensures Inv(s.(handlers := s.handlers[h := Working(key)]))
    ensures Inv(s.(handlers := s.handlers[h := Working(key)], acted := s.acted + [key]))
  {
    var hs := s.handlers[h := Working(key)];
    FewerHolders(s.stall, s.handlers, hs, s.won, s.acted, s.cardWon, s.cards);
    ActHeld(s.stall, s.handlers, s.won, s.acted, h, key);
    assert AllTimely(hs, s.occurred, s.jobs, s.issued, s.now);
  }

  lemma {:induction false} ActStep(s: State, h: HandlerId)
    requires DeliveryEnabled(s, Act(h))
    ensures var key := s.handlers[h].key;
      var t := s.(handlers := s.handlers[h := Working(key)]);
      Holds(s.handlers, h, key) && (ActOn(s, h) == t || ActOn(s, h) == t.(acted := s.acted + [key]))
  {
  }

  lemma {:induction false} RowsKeepInv(s: State, d: Deliveries)
    requires Inv(s) && ClaimsKept(d, s.won, s.now)
    requires forall k :: k in d ==> k in s.deliveries && d[k].owner == s.deliveries[k].owner
    ensures Inv(s.(deliveries := d))
  {
    FewerRows(s.deliveries, d);
  }

  /** Opening or advancing a handler that owns nothing. */
  lemma {:induction false} OpenKeepsInv(s: State, h: HandlerId, next: Handler)
    requires Inv(s) && Timely(next, s.occurred, s.jobs, s.issued, s.now)
    requires !next.Claimed? && !next.CardClaimed?
    ensures Inv(s.(handlers := s.handlers[h := next]))
  {
    FewerHolders(s.stall, s.handlers, s.handlers[h := next], s.won, s.acted, s.cardWon, s.cards);
  }

  lemma {:induction false} ReceiveKeepsInv(s: State, h: HandlerId, key: Key, at: int, link: LinkId)
    requires Inv(s) && DeliveryEnabled(s, Receive(h, key, at, link))
    ensures Inv(DeliveryStep(s, Receive(h, key, at, link)))
  {
    var occurred := s.occurred[key := at];
    assert AllTimely(s.handlers, occurred, s.jobs, s.issued, s.now);
    assert WonInTime(s.won, occurred, s.jobs);
    OpenKeepsInv(s.(occurred := occurred), h, Received(key, s.now, link, s.links[link].owner));
  }

  lemma {:induction false} PrepareKeepsInv(s: State, h: HandlerId)
    requires Inv(s) && DeliveryEnabled(s, PrepareReply(h))
    ensures Inv(Prepare(s, h))
  {
    var ReplyBegun(key, began) := s.handlers[h];
    assert Timely(s.handlers[h], s.occurred, s.jobs, s.issued, s.now);
    if RequestLinked(s, key.request) && !AcknowledgmentPending(s, key.request) {
      var row := s.deliveries[key.request];
      OpenKeepsInv(s, h, ReplyReady(key, began, s.now, row.link, row.owner));
    } else {
      DropKeepsInv(s, h);
    }
  }

  // ---------------------------------------------------------------- cards and buttons

  /** Replacing approval rows by rows of the same card that are further along. */
  lemma {:induction false} CardsKeepInv(s: State, a: Approvals)
    requires Inv(s)
    requires forall t :: t in a ==> t in s.approvals && SameCard(a[t], s.approvals[t]) && (s.approvals[t].status.Consumed? ==> a[t].status.Consumed?)
    requires forall t :: t in s.approvals && t !in a ==> s.approvals[t].retainUntil <= s.now
    ensures Inv(s.(approvals := a))
  {
    FewerCards(s.approvals, a);
    assert ClicksDecided(s.won, a, s.minted, s.decisions);
    assert LinksKnown(s.links, s.known, a);
    assert CardsKept(s.cardWon, a, s.issued, s.now);
  }

  predicate SameCard(x: Approval, y: Approval) {
    x.linkId == y.linkId && x.link == y.link && x.confirmation == y.confirmation && x.retainUntil == y.retainUntil
  }

  lemma {:induction false} MintKeepsInv(s: State, h: HandlerId, token: Token)
    requires Inv(s) && CardEnabled(s, ClaimCard(h, token))
    ensures Inv(MintCard(s, h, token))
  {
    match CardToClaim(s, s.handlers[h], token)
    case Some(row) => MintWonKeepsInv(s, h, token, row);
    case None => MintLostKeepsInv(s, h, token);
  }

  lemma {:induction false} MintLostKeepsInv(s: State, h: HandlerId, token: Token)
    requires Inv(s)
    ensures Inv(MintLost(s, h, token))
  {
    DropKeepsInv(s, h);
    assert ClicksDecided(s.won, s.approvals, s.minted + {token}, s.decisions);
  }

  lemma {:induction false} MintWonKeepsInv(s: State, h: HandlerId, token: Token, row: Approval)
    requires Inv(s) && CardEnabled(s, ClaimCard(h, token)) && CanClaimCard(s.approvals, s.links, token, row)
    requires row == NewCard(s.handlers[h].confirmation, s.handlers[h].deadline, s.handlers[h].clock, s.handlers[h].linkId, row.link)
    ensures Inv(Minted(s, h, token, row, s.handlers[h].clock))
  {
    var clock := s.handlers[h].clock;
    assert Timely(s.handlers[h], s.occurred, s.jobs, s.issued, s.now);
    MintedTables(s, token, row, clock);
    MintLeavesClaims(s.stall, s.handlers, s.won, s.acted, h, CardClaimed(token, row.confirmation, row.linkId));
    MintTimely(s.handlers, s.occurred, s.jobs, s.issued, s.now, h, CardClaimed(token, row.confirmation, row.linkId));
    if CardStall(s.stall) {
      FirstCard(s, h, token, row);
      CardHeld(s.handlers, s.cardWon, s.cards, h, token, row, clock);
    }
  }

  lemma {:induction false} MintTimely(hs: Handlers, occurred: map<Key, int>, jobs: map<Key, nat>, issued: map<ConfirmationId, nat>, now: nat, h: HandlerId, next: Handler)
    requires AllTimely(hs, occurred, jobs, issued, now) && next.CardClaimed?
    ensures AllTimely(hs[h := next], occurred, jobs, issued, now)
  {
  }

  lemma {:induction false} MintedTables(s: State, token: Token, row: Approval, clock: nat)
    requires Inv(s) && token !in s.minted && CanClaimCard(s.approvals, s.links, token, row)
    requires row.confirmation in s.issued && s.issued[row.confirmation] <= clock && row.retainUntil == clock + RETENTION_MS
    requires row.status.CardSending?
    ensures CardsCapped(s.approvals[token := row])
    ensures ClicksDecided(s.won, s.approvals[token := row], s.minted + {token}, s.decisions)
    ensures LinksKnown(s.links, s.known, s.approvals[token := row])
    ensures CardsKept(s.cardWon[CardKey(row.linkId, row.confirmation) := CardClaim(token, clock)], s.approvals[token := row], s.issued, s.now)
  {
    MintCapped(s.approvals, token, row);
    CardKept(s.cardWon, s.approvals, s.issued, s.now, token, row, clock);
  }

  lemma {:induction false} MintLeavesClaims(stall: nat, hs: Handlers, won: map<Key, nat>, acted: seq<Key>, h: HandlerId, next: Handler)
    requires HeldOnce(stall, hs, won, acted) && next.CardClaimed?
    ensures HeldOnce(stall, hs[h := next], won, acted)
  {
    var after := hs[h := next];
    forall g, k | Holds(after, g, k) ensures Holds(hs, g, k) {}
  }

  lemma {:induction false} CardKept(cardWon: map<CardKey, CardClaim>, a: Approvals, issued: map<ConfirmationId, nat>, now: nat,
                 token: Token, row: Approval, clock: nat)
    requires CardsKept(cardWon, a, issued, now) && token !in a
    requires row.confirmation in issued && issued[row.confirmation] <= clock && row.retainUntil == clock + RETENTION_MS
    ensures CardsKept(cardWon[CardKey(row.linkId, row.confirmation) := CardClaim(token, clock)], a[token := row], issued, now)
  {
  }

  lemma {:induction false} FirstCard(s: State, h: HandlerId, token: Token, row: Approval)
    requires Inv(s) && CardEnabled(s, ClaimCard(h, token)) && CardStall(s.stall)
    requires CanClaimCard(s.approvals, s.links, token, row)
    requires row.linkId == s.handlers[h].linkId && row.confirmation == s.handlers[h].confirmation
    ensures CardKey(row.linkId, row.confirmation) !in s.cardWon
  {
    var p := CardKey(row.linkId, row.confirmation);
    assert forall t :: t in s.approvals && s.approvals[t].linkId == row.linkId ==> s.approvals[t].link == s.known[row.linkId] == row.link;
    if p in s.cardWon { SecondCardFails(s, h, token); }
  }

  lemma {:induction false} CardHeld(hs: Handlers, cardWon: map<CardKey, CardClaim>, cards: seq<CardKey>,
                 h: HandlerId, token: Token, row: Approval, clock: nat)
    requires CardsOnce(hs, cardWon, cards) && CardKey(row.linkId, row.confirmation) !in cardWon
    ensures CardsOnce(hs[h := CardClaimed(token, row.confirmation, row.linkId)],
                      cardWon[CardKey(row.linkId, row.confirmation) := CardClaim(token, clock)], cards)
  {
    var p, next := CardKey(row.linkId, row.confirmation), hs[h := CardClaimed(token, row.confirmation, row.linkId)];
    forall g, q | HoldsCard(next, g, q) ensures HoldsCard(hs, g, q) || (g == h && q == p) {}
  }

  lemma {:induction false} SendCardKeepsInv(s: State, h: HandlerId, p: CardKey, next: Handler)
    requires Inv(s) && HoldsCard(s.handlers, h, p) && next.CardWorking? && Timely(next, s.occurred, s.jobs, s.issued, s.now)
    ensures Inv(s.(handlers := s.handlers[h := next], cards := s.cards + [p]))
  {
    var hs := s.handlers[h := next];
    FewerHolders(s.stall, s.handlers, hs, s.won, s.acted, s.cardWon, s.cards);
    assert AllTimely(hs, s.occurred, s.jobs, s.issued, s.now);
    if CardStall(s.stall) { CardSentOnce(s.handlers, s.cardWon, s.cards, h, p, next); }
  }

  lemma {:induction false} SendCardStepKeepsInv(s: State, h: HandlerId, outcome: ApprovalStatus, message: Option<string>)
    requires Inv(s) && CardEnabled(s, SendCard(h, outcome, message))
    ensures Inv(CardStep(s, SendCard(h, outcome, message)))
  {
    var CardClaimed(token, c, link) := s.handlers[h];
    var next := CardWorking(token, outcome, message);
    if outcome.CardUnlinked? {
      OpenKeepsInv(s, h, next);
      assert CardStep(s, SendCard(h, outcome, message)) == s.(handlers := s.handlers[h := next]);
    } else {
      SendCardKeepsInv(s, h, CardKey(link, c), next);
    }
  }

  lemma {:induction false} CardSentOnce(hs: Handlers, cardWon: map<CardKey, CardClaim>, cards: seq<CardKey>, h: HandlerId, p: CardKey, next: Handler)
    requires CardsOnce(hs, cardWon, cards) && HoldsCard(hs, h, p) && !next.CardClaimed?
    ensures CardsOnce(hs[h := next], cardWon, cards + [p])
  {
    var after := hs[h := next];
    forall g, q | HoldsCard(after, g, q) ensures HoldsCard(hs, g, q) && g != h {}
    forall g | HoldsCard(hs, g, p) ensures g == h {}
    forall g, q | HoldsCard(after, g, q) ensures q != p {}
  }

  /** In a run, the two statements of the consuming batch succeed or fail together, and only for a token never used before. */
  lemma {:induction false} BatchIsAllOrNothing(s: State, press: Press, clock: nat)
    requires Inv(s)
    ensures CanConsume(InsertClick(s.deliveries, s.approvals, s.links, press, clock), s.approvals, press.token, clock)
      <==> CanInsertClick(s.deliveries, s.approvals, s.links, press, clock)
    ensures CanInsertClick(s.deliveries, s.approvals, s.links, press, clock) ==> Click(press.token) !in s.won
  {
    assert Click(press.token) in s.deliveries ==> Click(press.token) in s.won;
  }

  lemma {:induction false} PressKeepsInv(s: State, h: HandlerId, press: Press, confirmed: bool, clock: nat)
    requires Inv(s) && CardEnabled(s, PressButton(h, press, confirmed, clock))
    ensures Inv(Pressed(s, h, press, confirmed, clock))
  {
    BatchIsAllOrNothing(s, press, clock);
    if CanInsertClick(s.deliveries, s.approvals, s.links, press, clock) {
      PressStep(s, h, press, confirmed, clock);
      PressWonKeepsInv(s, h, press.token, confirmed, clock);
    } else {
      PressIdle(s, h, press, confirmed, clock);
    }
  }

  lemma {:induction false} PressStep(s: State, h: HandlerId, press: Press, confirmed: bool, clock: nat)
    requires CanInsertClick(s.deliveries, s.approvals, s.links, press, clock)
    requires CanConsume(InsertClick(s.deliveries, s.approvals, s.links, press, clock), s.approvals, press.token, clock)
    ensures Pressed(s, h, press, confirmed, clock) == AfterPress(s, h, press.token, confirmed, clock)
  {
  }

  function ClickRow(a: Approval, clock: nat): Delivery {
    Delivery(a.link.owner, a.linkId, Processing, clock, clock + RETENTION_MS)
  }

  function AfterPress(s: State, h: HandlerId, token: Token, confirmed: bool, clock: nat): State
    requires token in s.approvals
  {
    var key := Click(token);
    s.(deliveries := s.deliveries[key := ClickRow(s.approvals[token], clock)], won := s.won[key := clock],
       approvals := s.approvals[token := s.approvals[token].(status := Consumed)],
       decisions := s.decisions + [Decision(token, confirmed)], handlers := s.handlers[h := Claimed(key)])
  }

  lemma {:induction false} PressWonKeepsInv(s: State, h: HandlerId, token: Token, confirmed: bool, clock: nat)
    requires Inv(s) && token in s.approvals && Click(token) !in s.won && Click(token) !in s.deliveries
    requires |OwnerRows(s.deliveries, s.approvals[token].link.owner)| < MAX_RETAINED_DELIVERIES
    ensures Inv(AfterPress(s, h, token, confirmed, clock))
  {
    var key, row := Click(token), ClickRow(s.approvals[token], clock);
    var a := s.approvals[token := s.approvals[token].(status := Consumed)];
    ClaimedTables(s, h, key, clock, row);
    FewerCards(s.approvals, a);
    PressDecides(s.won, s.approvals, s.minted, s.decisions, token, confirmed, clock);
    ConsumedKeepsCards(s, token);
  }

  /** The part of the invariant that a won claim of any key touches. */
  lemma {:induction false} ClaimedTables(s: State, h: HandlerId, key: Key, clock: nat, row: Delivery)
    requires Inv(s) && row.expiresAt == clock + DELIVERY_TTL_MS
    requires key !in s.deliveries && |OwnerRows(s.deliveries, row.owner)| < MAX_RETAINED_DELIVERIES
    requires Guarded(s.stall, key) ==> key !in s.won
    requires key.Inbound? ==> key in s.occurred && InWindow(s.occurred[key], clock)
    requires key.Reply? ==> key in s.jobs && s.jobs[key] <= clock
    ensures ClaimsKept(s.deliveries[key := row], s.won[key := clock], s.now)
    ensures HeldOnce(s.stall, s.handlers[h := Claimed(key)], s.won[key := clock], s.acted)
    ensures ActedOnce(s.stall, s.won[key := clock], s.acted)
    ensures CardStall(s.stall) ==> CardsOnce(s.handlers[h := Claimed(key)], s.cardWon, s.cards)
    ensures RowsCapped(s.deliveries[key := row])
    ensures AllTimely(s.handlers[h := Claimed(key)], s.occurred, s.jobs, s.issued, s.now)
    ensures WonInTime(s.won[key := clock], s.occurred, s.jobs)
  {
    ClaimKept(s.deliveries, s.won, s.now, key, row, clock);
    ClaimHeld(s.stall, s.handlers, s.won, s.acted, h, key, clock);
    if CardStall(s.stall) { ClaimLeavesCards(s.handlers, h, key, s.cardWon, s.cards); }
    InsertCapped(s.deliveries, key, row);
    ClaimTimely(s.handlers, s.occurred, s.jobs, s.issued, s.now, h, key);
  }

  lemma {:induction false} ConsumedKeepsCards(s: State, token: Token)
    requires token in s.approvals && CardsKept(s.cardWon, s.approvals, s.issued, s.now) && LinksKnown(s.links, s.known, s.approvals)
    ensures var a := s.approvals[token := s.approvals[token].(status := Consumed)];
      CardsKept(s.cardWon, a, s.issued, s.now) && LinksKnown(s.links, s.known, a)
  {
  }

  lemma {:induction false} PressDecides(won: map<Key, nat>, a: Approvals, minted: set<Token>, decisions: seq<Decision>, token: Token, confirmed: bool, clock: nat)
    requires ClicksDecided(won, a, minted, decisions) && token in a && Click(token) !in won
    ensures ClicksDecided(won[Click(token) := clock], a[token := a[token].(status := Consumed)], minted, decisions + [Decision(token, confirmed)])
  {
    var ds := decisions + [Decision(token, confirmed)];
    forall t ensures Decided(ds, t) <==> Decided(decisions, t) || t == token {
      if Decided(decisions, t) {
        var i :| 0 <= i < |decisions| && decisions[i].token == t;
        assert ds[i].token == t;
      }
      assert ds[|decisions|].token == token;
    }
    assert forall i :: 0 <= i < |decisions| ==> Decided(decisions, decisions[i].token);
  }

  // ---------------------------------------------------------------- every step

  lemma {:induction false} SettleCardKeepsInv(s: State, token: Token, outcome: ApprovalStatus, message: Option<string>)
    requires Inv(s)
    ensures Inv(s.(approvals := SettleApproval(s.approvals, token, outcome, message)))
  {
    CardsKeepInv(s, SettleApproval(s.approvals, token, outcome, message));
  }

  lemma {:induction false} AbortedRows(d: Deliveries, won: map<Key, nat>, now: nat, key: Key)
    requires ClaimsKept(d, won, now) && key.Notice?
    ensures ClaimsKept(WithoutSending(d, key), won, now)
    ensures forall k :: k in WithoutSending(d, key) ==> k in d && WithoutSending(d, key)[k].owner == d[k].owner
  {
  }

  lemma {:induction false} SettledRows(d: Deliveries, won: map<Key, nat>, key: Key, status: DeliveryStatus, now: nat)
    requires ClaimsKept(d, won, now)
    ensures ClaimsKept(SetStatus(d, key, status, now), won, now)
    ensures forall k :: k in SetStatus(d, key, status, now) ==> k in d && SetStatus(d, key, status, now)[k].owner == d[k].owner
  {
  }

  lemma {:induction false} TickKeepsInv(s: State, ms: nat)
    requires Inv(s)
    ensures Inv(s.(now := s.now + ms))
  {
    TimePasses(s.handlers, s.occurred, s.jobs, s.issued, s.now, ms);
    assert ClaimsKept(s.deliveries, s.won, s.now + ms);
    assert CardsKept(s.cardWon, s.approvals, s.issued, s.now + ms);
  }

  lemma {:induction false} TimePasses(hs: Handlers, occurred: map<Key, int>, jobs: map<Key, nat>, issued: map<ConfirmationId, nat>, now: nat, ms: nat)
    requires AllTimely(hs, occurred, jobs, issued, now)
    ensures AllTimely(hs, occurred, jobs, issued, now + ms)
  {
  }

  lemma {:induction false} LinksKeepInv(s: State, links: Links, known: Links)
    requires Inv(s) && LinksKnown(links, known, s.approvals)
    ensures Inv(s.(links := links, known := known))
  {
  }

  lemma {:induction false} PostKeepsInv(s: State, key: Key)
    requires Inv(s) && key.Reply? && key !in s.jobs
    ensures Inv(s.(jobs := s.jobs[key := s.now]))
  {
    var jobs := s.jobs[key := s.now];
    assert AllTimely(s.handlers, s.occurred, jobs, s.issued, s.now);
    assert WonInTime(s.won, s.occurred, jobs);
  }

  lemma {:induction false} ConfirmationKeepsInv(s: State, c: ConfirmationId)
    requires Inv(s) && c !in s.issued
    ensures Inv(s.(issued := s.issued[c := s.now]))
  {
    var issued := s.issued[c := s.now];
    assert AllTimely(s.handlers, s.occurred, s.jobs, issued, s.now);
    assert CardsKept(s.cardWon, s.approvals, issued, s.now);
  }

  lemma {:induction false} WorldKeepsInv(s: State, e: WorldEvent)
    requires Inv(s) && WorldEnabled(s, e)
    ensures Inv(WorldStep(s, e))
  {
    match e
    case Tick(ms) => TickKeepsInv(s, ms);
    case AddLink(id, link) => LinksKeepInv(s, s.links[id := link], s.known[id := link]);
    case Unlink(id) => LinksKeepInv(s, s.links - {id}, s.known);
    case PostReply(key) => PostKeepsInv(s, key);
    case IssueConfirmation(c) => ConfirmationKeepsInv(s, c);
    case Lost(h) => DropKeepsInv(s, h);
  }

  lemma {:induction false} SettleCardStepKeepsInv(s: State, h: HandlerId)
    requires Inv(s) && CardEnabled(s, SettleCard(h))
    ensures Inv(CardStep(s, SettleCard(h)))
  {
    DropKeepsInv(s, h);
    SettleCardKeepsInv(Drop(s, h), s.handlers[h].card, s.handlers[h].outcome, s.handlers[h].message);
  }

  lemma {:induction false} BeginCardKeepsInv(s: State, h: HandlerId, c: ConfirmationId, link: LinkId)
    requires Inv(s) && CardEnabled(s, BeginCard(h, c, link))
    ensures Inv(CardStep(s, BeginCard(h, c, link)))
  {
    OpenKeepsInv(s, h, CardBegun(c, s.issued[c] + APPROVAL_TTL_MS, s.now, link));
  }

  lemma {:induction false} PruneCardsKeepsInv(s: State, gone: set<Token>, clock: nat)
    requires Inv(s) && CardEnabled(s, PruneCards(gone, clock))
    ensures Inv(CardStep(s, PruneCards(gone, clock)))
  {
    CardsKeepInv(s, s.approvals - gone);
  }

  lemma {:induction false} CardStepKeepsInv(s: State, e: CardEvent)
    requires Inv(s) && CardEnabled(s, e)
    ensures Inv(CardStep(s, e))
  {
    match e
    case BeginCard(h, c, link) => BeginCardKeepsInv(s, h, c, link);
    case ClaimCard(h, token) => MintKeepsInv(s, h, token);
    case SendCard(h, outcome, message) => SendCardStepKeepsInv(s, h, outcome, message);
    case SettleCard(h) => SettleCardStepKeepsInv(s, h);
    case PressButton(h, press, confirmed, clock) => PressKeepsInv(s, h, press, confirmed, clock);
    case PruneCards(gone, clock) => PruneCardsKeepsInv(s, gone, clock);
  }

  lemma {:induction false} AbortKeepsInv(s: State, h: HandlerId)
    requires Inv(s) && DeliveryEnabled(s, AbortNotice(h))
    ensures Inv(DeliveryStep(s, AbortNotice(h)))
  {
    DropKeepsInv(s, h);
    AbortedRows(s.deliveries, s.won, s.now, s.handlers[h].key);
    RowsKeepInv(Drop(s, h), WithoutSending(s.deliveries, s.handlers[h].key));
  }

  lemma {:induction false} SettleKeepsInv(s: State, h: HandlerId, status: DeliveryStatus)
    requires Inv(s) && DeliveryEnabled(s, Settle(h, status))
    ensures Inv(DeliveryStep(s, Settle(h, status)))
  {
    DropKeepsInv(s, h);
    SettledRows(s.deliveries, s.won, s.handlers[h].key, status, s.now);
    RowsKeepInv(Drop(s, h), SetStatus(s.deliveries, s.handlers[h].key, status, s.now));
  }

  lemma {:induction false} ClaimStepKeepsInv(s: State, h: HandlerId, status: DeliveryStatus)
    requires Inv(s) && (DeliveryEnabled(s, ClaimEvent(h)) || DeliveryEnabled(s, ClaimReply(h)))
    ensures var t := s.handlers[h]; Inv(TryClaim(s, h, t.key, t.clock, status, t.link, t.owner))
  {
    var t := s.handlers[h];
    if Guarded(s.stall, t.key) && t.key in s.won { SecondClaimFails(s, h); }
    assert Timely(t, s.occurred, s.jobs, s.issued, s.now);
    TryClaimKeepsInv(s, h, t.key, t.clock, status, t.link, t.owner);
  }

  lemma {:induction false} ActStepKeepsInv(s: State, h: HandlerId)
    requires Inv(s) && DeliveryEnabled(s, Act(h))
    ensures Inv(ActOn(s, h))
  {
    ActStep(s, h);
    ActKeepsInv(s, h, s.handlers[h].key);
  }

  lemma {:induction false} BeginReplyKeepsInv(s: State, h: HandlerId, key: Key)
    requires Inv(s) && DeliveryEnabled(s, BeginReply(h, key))
    ensures Inv(s.(handlers := s.handlers[h := ReplyBegun(key, s.now)]))
  {
    OpenKeepsInv(s, h, ReplyBegun(key, s.now));
  }

  lemma {:induction false} DeliveryKeepsInv(s: State, e: DeliveryEvent)
    requires Inv(s) && DeliveryEnabled(s, e)
    ensures Inv(DeliveryStep(s, e))
  {
    match e
    case Receive(h, key, at, link) => ReceiveKeepsInv(s, h, key, at, link);
    case ClaimEvent(h) => ClaimStepKeepsInv(s, h, Processing);
    case BeginReply(h, key) => BeginReplyKeepsInv(s, h, key);
    case PrepareReply(h) => PrepareKeepsInv(s, h);
    case ClaimReply(h) => ClaimStepKeepsInv(s, h, Sending);
    case ClaimNotice(h, key, link) => TryClaimKeepsInv(s, h, key, s.now, Sending, link, key.owner);
    case AbortNotice(h) => AbortKeepsInv(s, h);
    case Act(h) => ActStepKeepsInv(s, h);
    case Settle(h, status) => SettleKeepsInv(s, h, status);
    case PruneRows(clock) => RowsKeepInv(s, PruneDeliveries(s.deliveries, clock));
  }

  lemma {:induction false} StepKeepsInv(s: State, e: Event)
    requires Inv(s) && Enabled(s, e)
    ensures Inv(Step(s, e))
  {
    match e
    case World(w) => WorldKeepsInv(s, w);
    case Deliver(d) => DeliveryKeepsInv(s, d);
    case Approve(c) => CardStepKeepsInv(s, c);
  }

  lemma {:induction false} InitInv(stall: nat)
    ensures Inv(Init(stall))
  {
    forall o ensures |OwnerRows(map[], o)| == 0 { assert OwnerRows(map[], o) == {}; }
    forall o ensures |OwnerCards(map[], o)| == 0 { assert OwnerCards(map[], o) == {}; }
  }

  lemma {:induction false} RunKeepsInv(stall: nat, es: seq<Event>)
    ensures Inv(Run(Init(stall), es))
  {
    if es == [] {
      InitInv(stall);
    } else {
      RunKeepsInv(stall, es[..|es| - 1]);
      var s := Run(Init(stall), es[..|es| - 1]);
      if Enabled(s, es[|es| - 1]) { StepKeepsInv(s, es[|es| - 1]); }
    }
  }

  lemma {:induction false} StallIsFixed(stall: nat, es: seq<Event>)
    ensures Run(Init(stall), es).stall == stall
  {
    if es != [] {
      StallIsFixed(stall, es[..|es| - 1]);
      var s, e := Run(Init(stall), es[..|es| - 1]), es[|es| - 1];
      if Enabled(s, e) { StepKeepsStall(s, e); }
    }
  }

  lemma {:induction false} CardKeepsStall(s: State, c: CardEvent)
    requires CardEnabled(s, c)
    ensures CardStep(s, c).stall == s.stall
  {
    match c
    case ClaimCard(h, token) =>
    case PressButton(h, press, confirmed, clock) =>
    case BeginCard(h, card, link) =>
    case SendCard(h, outcome, message) =>
    case SettleCard(h) =>
    case PruneCards(gone, clock) =>
  }

  lemma {:induction false} StepKeepsStall(s: State, e: Event)
    requires Enabled(s, e)
    ensures Step(s, e).stall == s.stall
  {
    match e
    case World(_) =>
    case Deliver(_) =>
    case Approve(c) => CardKeepsStall(s, c);
  }

  lemma {:induction false} DeliveryLeavesClicks(s: State, d: DeliveryEvent, token: Token)
    requires Inv(s) && DeliveryEnabled(s, d)
    ensures Click(token) in DeliveryStep(s, d).deliveries ==> Click(token) in s.deliveries
  {
    match d
    case ClaimEvent(h) => assert Timely(s.handlers[h], s.occurred, s.jobs, s.issued, s.now);
    case ClaimReply(h) => assert Timely(s.handlers[h], s.occurred, s.jobs, s.issued, s.now);
    case _ =>
  }

  lemma {:induction false} CardConsumes(s: State, c: CardEvent, token: Token)
    requires Inv(s) && CardEnabled(s, c) && token in s.approvals && !s.approvals[token].status.Consumed?
    requires token in CardStep(s, c).approvals
    ensures CardStep(s, c).approvals[token].status.Consumed?
      <==> Click(token) !in s.deliveries && Click(token) in CardStep(s, c).deliveries
  {
    match c
    case PressButton(h, press, confirmed, clock) => PressConsumes(s, h, press, confirmed, clock, token);
    case ClaimCard(h, minted) => MintLeavesCards(s, h, minted, CardToClaim(s, s.handlers[h], minted), token);
    case SettleCard(h) => assert Timely(s.handlers[h], s.occurred, s.jobs, s.issued, s.now);
    case _ =>
  }

  lemma {:induction false} MintLeavesCards(s: State, h: HandlerId, minted: Token, claim: Option<Approval>, token: Token)
    requires h in s.handlers && s.handlers[h].CardBegun? && minted != token && token in s.approvals
    ensures token in Minting(s, h, minted, claim).approvals && Minting(s, h, minted, claim).approvals[token] == s.approvals[token]
  {
  }

  lemma {:induction false} PressConsumes(s: State, h: HandlerId, press: Press, confirmed: bool, clock: nat, token: Token)
    requires Inv(s) && token in s.approvals && !s.approvals[token].status.Consumed?
    ensures var t := Pressed(s, h, press, confirmed, clock);
      token in t.approvals && (t.approvals[token].status.Consumed? <==> Click(token) !in s.deliveries && Click(token) in t.deliveries)
  {
    BatchIsAllOrNothing(s, press, clock);
    assert Click(token) in s.deliveries ==> Click(token) in s.won;
    if CanInsertClick(s.deliveries, s.approvals, s.links, press, clock) {
      PressStep(s, h, press, confirmed, clock);
    } else {
      PressIdle(s, h, press, confirmed, clock);
    }
  }

  lemma {:induction false} PressIdle(s: State, h: HandlerId, press: Press, confirmed: bool, clock: nat)
    requires !CanInsertClick(s.deliveries, s.approvals, s.links, press, clock)
    requires !CanConsume(s.deliveries, s.approvals, press.token, clock)
    ensures Pressed(s, h, press, confirmed, clock) == s
  {
  }
}
