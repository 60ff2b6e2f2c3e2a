/** The life of each delivery row and of each card as the events about it alone tell it, and the decisions taken. */
module MessagingStories {
  import opened Prelude
  import opened MessagingDelivery
  import opened MessagingProofs

  // ---------------------------------------------------------------- delivery rows

  /** What a claim wants to store: its key, the clock its handler kept, and who it is for. */
  datatype Claim = NoClaim | Claim(key: Key, clock: nat, status: DeliveryStatus, link: LinkId, owner: OwnerId)

  function ClaimBy(s: State, e: DeliveryEvent): Claim
    requires DeliveryEnabled(s, e)
  {
    match e
    case ClaimEvent(h) => var r := s.handlers[h]; Claim(r.key, r.clock, Processing, r.link, r.owner)
    case ClaimReply(h) => var r := s.handlers[h]; Claim(r.key, r.clock, Sending, r.link, r.owner)
    case ClaimNotice(_, key, link) => Claim(key, s.now, Sending, link, key.owner)
    case _ => NoClaim
  }

  /** A press is good if its card was sent to exactly this chat in exactly this message, is unexpired and unpressed, and
      its link is as it was when the card was made. */
  predicate Good(s: State, press: Press, clock: nat) {
    && press.token in s.approvals
    && var card := s.approvals[press.token];
    && card.status.CardSent? && clock < card.expiresAt && card.message == Some(press.message)
    && card.link.plugin == press.plugin && card.link.sender == press.sender && card.link.chat == press.chat
    && card.linkId in s.links && s.links[card.linkId] == card.link
    && Click(press.token) !in s.deliveries
    && |OwnerRows(s.deliveries, card.link.owner)| < 1024
  }

  function NextRow(s: State, e: Event, k: Key, before: Option<Delivery>): Option<Delivery>
    requires Enabled(s, e)
  {
    match e
    case World(_) => before
    case Deliver(d) => DeliveredRow(s, d, k, before)
    case Approve(c) =>
      if c.PressButton? && k == Click(c.press.token) && Good(s, c.press, c.clock) then
        var card := s.approvals[c.press.token];
        Some(Delivery(card.link.owner, card.linkId, Processing, c.clock, c.clock + 172_800_000))
      else before
  }

  function DeliveredRow(s: State, e: DeliveryEvent, k: Key, before: Option<Delivery>): Option<Delivery>
    requires DeliveryEnabled(s, e)
  {
    var claim := ClaimBy(s, e);
    if claim.Claim? then
      if claim.key == k && before.None? && claim.link in s.links && |OwnerRows(s.deliveries, claim.owner)| < 1024
      then Some(Delivery(claim.owner, claim.link, claim.status, claim.clock, claim.clock + 172_800_000)) else before
    else if before.None? then None
    else
      match e
      case AbortNotice(h) => if s.handlers[h].key == k && before.value.status.Sending? then None else before
      case Settle(h, status) => if s.handlers[h].key == k then Some(before.value.(status := status, updatedAt := s.now)) else before
      case PruneRows(clock) => if before.value.expiresAt <= clock then None else before
      case _ => before
  }

  ghost function RowStory(stall: nat, es: seq<Event>, k: Key): Option<Delivery> {
    if es == [] then None
    else
      var s, e := Run(Init(stall), es[..|es| - 1]), es[|es| - 1];
      if Enabled(s, e) then NextRow(s, e, k, RowStory(stall, es[..|es| - 1], k)) else RowStory(stall, es[..|es| - 1], k)
  }

  function RowIn(d: Deliveries, k: Key): Option<Delivery> { if k in d then Some(d[k]) else None }

  predicate SameHistory(s: State, t: State) { t.decisions == s.decisions && t.acted == s.acted && t.links == s.links }

  lemma {:induction false} ClaimWins(s: State, h: HandlerId, key: Key, clock: nat, row: Delivery, k: Key)
    requires row.updatedAt == clock && row.expiresAt == clock + 172_800_000
    requires CanClaim(s.deliveries, s.links, key, row)
    ensures RowIn(TryClaim(s, h, key, clock, row.status, row.link, row.owner).deliveries, k)
      == if key == k then Some(row) else RowIn(s.deliveries, k)
  {
    assert row == Delivery(row.owner, row.link, row.status, clock, clock + DELIVERY_TTL_MS);
  }

  lemma {:induction false} WinnerFrame(s: State, h: HandlerId, key: Key, clock: nat, row: Delivery)
    requires row.updatedAt == clock && row.expiresAt == clock + 172_800_000
    requires CanClaim(s.deliveries, s.links, key, row)
    ensures SameHistory(s, TryClaim(s, h, key, clock, row.status, row.link, row.owner))
  {
    assert row == Delivery(row.owner, row.link, row.status, clock, clock + DELIVERY_TTL_MS);
  }

  lemma {:induction false} ClaimLoses(s: State, h: HandlerId, key: Key, clock: nat, row: Delivery)
    requires row.updatedAt == clock && row.expiresAt == clock + 172_800_000
    requires !CanClaim(s.deliveries, s.links, key, row)
    ensures TryClaim(s, h, key, clock, row.status, row.link, row.owner) == Drop(s, h)
  {
    assert row == Delivery(row.owner, row.link, row.status, clock, clock + DELIVERY_TTL_MS);
  }

  lemma {:induction false} ClaimTells(s: State, h: HandlerId, claim: Claim, k: Key)
    requires claim.Claim?
    ensures RowIn(TryClaim(s, h, claim.key, claim.clock, claim.status, claim.link, claim.owner).deliveries, k)
      == if claim.key == k && k !in s.deliveries && claim.link in s.links && |OwnerRows(s.deliveries, claim.owner)| < 1024
         then Some(Delivery(claim.owner, claim.link, claim.status, claim.clock, claim.clock + 172_800_000)) else RowIn(s.deliveries, k)
  {
    var row := Delivery(claim.owner, claim.link, claim.status, claim.clock, claim.clock + 172_800_000);
    if CanClaim(s.deliveries, s.links, claim.key, row) {
      ClaimWins(s, h, claim.key, claim.clock, row, k);
    } else {
      ClaimLoses(s, h, claim.key, claim.clock, row);
    }
  }

  lemma {:induction false} ClaimEventTells(s: State, e: DeliveryEvent, k: Key)
    requires DeliveryEnabled(s, e) && (e.ClaimEvent? || e.ClaimReply? || e.ClaimNotice?)
    ensures RowIn(DeliveryStep(s, e).deliveries, k) == DeliveredRow(s, e, k, RowIn(s.deliveries, k))
  {
    ClaimTells(s, e.h, ClaimBy(s, e), k);
    assert DeliveryStep(s, e) == var c := ClaimBy(s, e); TryClaim(s, e.h, c.key, c.clock, c.status, c.link, c.owner);
  }

  lemma {:induction false} SettleTells(s: State, e: DeliveryEvent, k: Key)
    requires DeliveryEnabled(s, e) && (e.AbortNotice? || e.Settle? || e.PruneRows?)
    ensures RowIn(DeliveryStep(s, e).deliveries, k) == DeliveredRow(s, e, k, RowIn(s.deliveries, k))
  {
  }

  lemma {:induction false} OtherTells(s: State, e: DeliveryEvent)
    requires DeliveryEnabled(s, e) && (e.Receive? || e.BeginReply? || e.PrepareReply? || e.Act?)
    ensures DeliveryStep(s, e).deliveries == s.deliveries
  {
  }

  lemma {:induction false} DeliveryTells(s: State, e: DeliveryEvent, k: Key)
    requires DeliveryEnabled(s, e)
    ensures RowIn(DeliveryStep(s, e).deliveries, k) == DeliveredRow(s, e, k, RowIn(s.deliveries, k))
  {
    if e.ClaimEvent? || e.ClaimReply? || e.ClaimNotice? {
      ClaimEventTells(s, e, k);
    } else if e.AbortNotice? || e.Settle? || e.PruneRows? {
      SettleTells(s, e, k);
    } else {
      OtherTells(s, e);
    }
  }

  lemma {:induction false} GoodIff(s: State, press: Press, clock: nat)
    ensures Good(s, press, clock) <==> CanInsertClick(s.deliveries, s.approvals, s.links, press, clock)
  {
  }

  lemma {:induction false} PressedGives(s: State, h: HandlerId, press: Press, confirmed: bool, clock: nat)
    ensures Pressed(s, h, press, confirmed, clock).deliveries == InsertClick(s.deliveries, s.approvals, s.links, press, clock)
    ensures Pressed(s, h, press, confirmed, clock).acted == s.acted && Pressed(s, h, press, confirmed, clock).links == s.links
  {
    var t := Pressed(s, h, press, confirmed, clock);
    var d := InsertClick(s.deliveries, s.approvals, s.links, press, clock);
    if CanConsume(d, s.approvals, press.token, clock) {
      assert t == s.(deliveries := d, won := t.won, approvals := t.approvals, decisions := t.decisions, handlers := t.handlers);
    } else {
      assert t == s.(deliveries := d, won := t.won);
    }
  }

  lemma {:induction false} ClickTells(d: Deliveries, a: Approvals, links: Links, press: Press, clock: nat, k: Key)
    ensures RowIn(InsertClick(d, a, links, press, clock), k)
      == if k == Click(press.token) && CanInsertClick(d, a, links, press, clock)
         then Some(Delivery(a[press.token].link.owner, a[press.token].linkId, Processing, clock, clock + 172_800_000))
         else RowIn(d, k)
  {
  }

  lemma {:induction false} PressedTells(s: State, h: HandlerId, press: Press, confirmed: bool, clock: nat, k: Key)
    ensures RowIn(Pressed(s, h, press, confirmed, clock).deliveries, k)
      == if k == Click(press.token) && Good(s, press, clock)
         then Some(Delivery(s.approvals[press.token].link.owner, s.approvals[press.token].linkId, Processing, clock, clock + 172_800_000))
         else RowIn(s.deliveries, k)
  {
    GoodIff(s, press, clock);
    PressedGives(s, h, press, confirmed, clock);
    ClickTells(s.deliveries, s.approvals, s.links, press, clock, k);
  }

  lemma {:induction false} PressTells(s: State, c: CardEvent, k: Key)
    requires CardEnabled(s, c)
    ensures RowIn(CardStep(s, c).deliveries, k) == NextRow(s, Approve(c), k, RowIn(s.deliveries, k))
  {
    if c.PressButton? { PressedTells(s, c.h, c.press, c.confirmed, c.clock, k); }
  }

  /** In every run each delivery row is exactly what the events about its key tell. */
  lemma {:induction false} RowsAreTheirStories(stall: nat, es: seq<Event>, k: Key)
    ensures RowIn(Run(Init(stall), es).deliveries, k) == RowStory(stall, es, k)
  {
    if es != [] {
      var s, e := Run(Init(stall), es[..|es| - 1]), es[|es| - 1];
      RowsAreTheirStories(stall, es[..|es| - 1], k);
      if Enabled(s, e) {
        match e
        case World(_) =>
        case Deliver(d) => DeliveryTells(s, d, k);
        case Approve(c) => PressTells(s, c, k);
      }
    }
  }

  // ---------------------------------------------------------------- cards

  function Sooner(a: nat, b: nat): nat { if a <= b then a else b }

  predicate SameChat(row: Approval, linkId: LinkId, link: Link) {
    row.linkId == linkId && row.link.owner == link.owner && row.link.conversation == link.conversation
  }

  /** The claim of a card is won: its link stands, no card was ever made for that confirmation on it, and the owner has
      fewer than 128. */
  predicate WinsCard(s: State, begun: Handler, t: Token)
    requires begun.CardBegun?
  {
    && t !in s.approvals && begun.linkId in s.links
    && var link := s.links[begun.linkId];
    && (forall x :: x in s.approvals && SameChat(s.approvals[x], begun.linkId, link) ==> s.approvals[x].confirmation != begun.confirmation)
    && |OwnerCards(s.approvals, link.owner)| < 128
  }

  function NextCard(s: State, c: CardEvent, t: Token, before: Option<Approval>): Option<Approval>
    requires CardEnabled(s, c)
  {
    match c
    case ClaimCard(h, token) =>
      var begun := s.handlers[h];
      if token == t && WinsCard(s, begun, t)
      then Some(Approval(begun.confirmation, begun.linkId, s.links[begun.linkId], None, CardSending,
                         Sooner(begun.deadline, begun.clock + 600_000), begun.clock + 172_800_000))
      else before
    case SettleCard(h) =>
      var w := s.handlers[h];
      if w.card == t && before.Some? && before.value.status.CardSending?
      then Some(before.value.(status := w.outcome, message := w.message)) else before
    case PressButton(h, press, _, clock) =>
      if press.token == t && before.Some? && Good(s, press, clock) then Some(before.value.(status := Consumed)) else before
    case PruneCards(gone, _) => if t in gone then None else before
    case _ => before
  }

  ghost function CardStory(stall: nat, es: seq<Event>, t: Token): Option<Approval> {
    if es == [] then None
    else
      var s, e, before := Run(Init(stall), es[..|es| - 1]), es[|es| - 1], CardStory(stall, es[..|es| - 1], t);
      if Enabled(s, e) && e.Approve? then NextCard(s, e.card, t, before) else before
  }

  function CardIn(a: Approvals, t: Token): Option<Approval> { if t in a then Some(a[t]) else None }

  lemma {:induction false} WinnerIff(s: State, begun: Handler, t: Token)
    requires begun.CardBegun?
    ensures CardToClaim(s, begun, t).Some? <==> WinsCard(s, begun, t)
    ensures WinsCard(s, begun, t) ==>
      CardToClaim(s, begun, t).value == Approval(begun.confirmation, begun.linkId, s.links[begun.linkId], None, CardSending,
                                                 Sooner(begun.deadline, begun.clock + 600_000), begun.clock + 172_800_000)
  {
  }

  lemma {:induction false} MintingTells(s: State, h: HandlerId, token: Token, claim: Option<Approval>, t: Token)
    requires h in s.handlers && s.handlers[h].CardBegun?
    ensures CardIn(Minting(s, h, token, claim).approvals, t)
      == if token == t && claim.Some? then claim else CardIn(s.approvals, t)
  {
    if claim.Some? {
      assert Minting(s, h, token, claim).approvals == s.approvals[token := claim.value];
    } else {
      assert Minting(s, h, token, claim).approvals == s.approvals;
    }
  }

  lemma {:induction false} MintTells(s: State, h: HandlerId, token: Token, t: Token)
    requires h in s.handlers && s.handlers[h].CardBegun?
    ensures CardIn(MintCard(s, h, token).approvals, t)
      == if token == t && WinsCard(s, s.handlers[h], t)
         then var begun := s.handlers[h];
              Some(Approval(begun.confirmation, begun.linkId, s.links[begun.linkId], None, CardSending,
                            Sooner(begun.deadline, begun.clock + 600_000), begun.clock + 172_800_000))
         else CardIn(s.approvals, t)
  {
    WinnerIff(s, s.handlers[h], token);
    MintingTells(s, h, token, CardToClaim(s, s.handlers[h], token), t);
  }

  lemma {:induction false} ConsumeTells(s: State, c: CardEvent, t: Token)
    requires Inv(s) && c.PressButton? && CardEnabled(s, c)
    ensures CardIn(CardStep(s, c).approvals, t) == NextCard(s, c, t, CardIn(s.approvals, t))
    ensures CardStep(s, c).decisions == s.decisions + if Good(s, c.press, c.clock) then [Decision(c.press.token, c.confirmed)] else []
  {
    GoodIff(s, c.press, c.clock);
    BatchIsAllOrNothing(s, c.press, c.clock);
  }

  lemma {:induction false} CardTells(s: State, c: CardEvent, t: Token)
    requires Inv(s) && CardEnabled(s, c)
    ensures CardIn(CardStep(s, c).approvals, t) == NextCard(s, c, t, CardIn(s.approvals, t))
  {
    if c.ClaimCard? {
      MintTells(s, c.h, c.token, t);
    } else if c.PressButton? {
      ConsumeTells(s, c, t);
    }
  }

  /** In every run each card is exactly what the events about its token tell: made for its confirmation and link, settled
      with what the provider answered, pressed once, pruned. */
  lemma {:induction false} CardsAreTheirStories(stall: nat, es: seq<Event>, t: Token)
    ensures CardIn(Run(Init(stall), es).approvals, t) == CardStory(stall, es, t)
  {
    if es != [] {
      var s, e := Run(Init(stall), es[..|es| - 1]), es[|es| - 1];
      CardsAreTheirStories(stall, es[..|es| - 1], t);
      RunKeepsInv(stall, es[..|es| - 1]);
      if Enabled(s, e) && e.Approve? { CardTells(s, e.card, t); }
    }
  }

  // ---------------------------------------------------------------- decisions and sends

  /** The decisions of all good presses, in order. */
  ghost function Presses(stall: nat, es: seq<Event>): seq<Decision> {
    if es == [] then []
    else
      var s, e, before := Run(Init(stall), es[..|es| - 1]), es[|es| - 1], Presses(stall, es[..|es| - 1]);
      if Enabled(s, e) && e.Approve? && e.card.PressButton? && Good(s, e.card.press, e.card.clock)
      then before + [Decision(e.card.press.token, e.card.confirmed)] else before
  }

  lemma {:induction false} WorldIsSilent(s: State, e: WorldEvent)
    ensures WorldStep(s, e).decisions == s.decisions && WorldStep(s, e).acted == s.acted
  {
  }

  lemma {:induction false} ClaimsAreSilent(s: State, h: HandlerId, key: Key, clock: nat, status: DeliveryStatus, link: LinkId, owner: OwnerId)
    ensures SameHistory(s, TryClaim(s, h, key, clock, status, link, owner))
  {
    var row := Delivery(owner, link, status, clock, clock + DELIVERY_TTL_MS);
    if CanClaim(s.deliveries, s.links, key, row) {
      WinnerFrame(s, h, key, clock, row);
    } else {
      ClaimLoses(s, h, key, clock, row);
    }
  }

  lemma {:induction false} DeliveriesAreSilent(s: State, e: DeliveryEvent)
    requires DeliveryEnabled(s, e) && !e.Act?
    ensures SameHistory(s, DeliveryStep(s, e))
  {
    if e.ClaimEvent? || e.ClaimReply? || e.ClaimNotice? {
      var c := ClaimBy(s, e);
      ClaimsAreSilent(s, e.h, c.key, c.clock, c.status, c.link, c.owner);
      assert DeliveryStep(s, e) == TryClaim(s, e.h, c.key, c.clock, c.status, c.link, c.owner);
    }
  }

  lemma {:induction false} MintingIsSilent(s: State, h: HandlerId, token: Token, claim: Option<Approval>)
    requires h in s.handlers && s.handlers[h].CardBegun?
    ensures SameHistory(s, Minting(s, h, token, claim))
  {
  }

  lemma {:induction false} CardsAreSilent(s: State, c: CardEvent)
    requires CardEnabled(s, c) && !c.PressButton?
    ensures SameHistory(s, CardStep(s, c))
  {
    if c.ClaimCard? { MintingIsSilent(s, c.h, c.token, CardToClaim(s, s.handlers[c.h], c.token)); }
  }

  lemma {:induction false} OthersAreSilent(s: State, e: Event)
    requires Enabled(s, e) && !(e.Approve? && e.card.PressButton?) && !(e.Deliver? && e.delivery.Act?)
    ensures Step(s, e).decisions == s.decisions && Step(s, e).acted == s.acted
  {
    match e
    case World(w) => WorldIsSilent(s, w);
    case Deliver(d) => DeliveriesAreSilent(s, d);
    case Approve(c) => CardsAreSilent(s, c);
  }

  /** In every run the decisions taken are exactly those of the good presses, as they were pressed. */
  lemma {:induction false} DecisionsAreThePresses(stall: nat, es: seq<Event>)
    ensures Run(Init(stall), es).decisions == Presses(stall, es)
  {
    if es != [] {
      var s, e := Run(Init(stall), es[..|es| - 1]), es[|es| - 1];
      DecisionsAreThePresses(stall, es[..|es| - 1]);
      RunKeepsInv(stall, es[..|es| - 1]);
      if Enabled(s, e) {
        if e.Approve? && e.card.PressButton? {
          ConsumeTells(s, e.card, 0);
        } else if !(e.Deliver? && e.delivery.Act?) {
          OthersAreSilent(s, e);
        }
      }
    }
  }

  /** A claimed reply still has its request's live row on a link of the same owner; a claimed notice still has its link. */
  predicate StillLinked(s: State, key: Key) {
    match key
    case Reply(request, _) =>
      && request in s.deliveries && s.now < s.deliveries[request].expiresAt
      && s.deliveries[request].link in s.links && s.links[s.deliveries[request].link].owner == s.deliveries[request].owner
    case Notice(_, _, _) => key in s.deliveries && s.deliveries[key].link in s.links
    case _ => true
  }

  /** The keys whose holders acted while they were still linked, in order. */
  ghost function Actions(stall: nat, es: seq<Event>): seq<Key> {
    if es == [] then []
    else
      var s, e, before := Run(Init(stall), es[..|es| - 1]), es[|es| - 1], Actions(stall, es[..|es| - 1]);
      if Enabled(s, e) && e.Deliver? && e.delivery.Act? && StillLinked(s, s.handlers[e.delivery.h].key)
      then before + [s.handlers[e.delivery.h].key] else before
  }

  lemma {:induction false} StillLinkedIff(s: State, key: Key)
    ensures StillLinked(s, key) <==>
      !((key.Reply? && !RequestLinked(s, key.request)) || (key.Notice? && !(key in s.deliveries && s.deliveries[key].link in s.links)))
  {
  }

  lemma {:induction false} LinkedActs(s: State, h: HandlerId)
    requires DeliveryEnabled(s, Act(h)) && StillLinked(s, s.handlers[h].key)
    ensures ActOn(s, h).acted == s.acted + [s.handlers[h].key]
  {
    StillLinkedIff(s, s.handlers[h].key);
  }

  lemma {:induction false} UnlinkedStops(s: State, h: HandlerId)
    requires DeliveryEnabled(s, Act(h)) && !StillLinked(s, s.handlers[h].key)
    ensures ActOn(s, h).acted == s.acted
  {
    StillLinkedIff(s, s.handlers[h].key);
  }

  lemma {:induction false} StepTells(s: State, e: Event)
    requires Enabled(s, e)
    ensures Step(s, e).acted ==
      if e.Deliver? && e.delivery.Act? && StillLinked(s, s.handlers[e.delivery.h].key) then s.acted + [s.handlers[e.delivery.h].key] else s.acted
  {
    if e.Approve? && e.card.PressButton? {
      PressedGives(s, e.card.h, e.card.press, e.card.confirmed, e.card.clock);
    } else if e.Deliver? && e.delivery.Act? {
      if StillLinked(s, s.handlers[e.delivery.h].key) { LinkedActs(s, e.delivery.h); } else { UnlinkedStops(s, e.delivery.h); }
    } else {
      OthersAreSilent(s, e);
    }
  }

  /** In every run what is dispatched or sent is exactly what was claimed by a handler that went on while still linked. */
  lemma {:induction false} ActionsAreClaimed(stall: nat, es: seq<Event>)
    ensures Run(Init(stall), es).acted == Actions(stall, es)
  {
    if es != [] {
      ActionsAreClaimed(stall, es[..|es| - 1]);
      if Enabled(Run(Init(stall), es[..|es| - 1]), es[|es| - 1]) { StepTells(Run(Init(stall), es[..|es| - 1]), es[|es| - 1]); }
    }
  }

  // ---------------------------------------------------------------- links

  /** The link an id stands for: the one last made under it, unless removed since. */
  ghost function LinkStory(stall: nat, es: seq<Event>, id: LinkId): Option<Link> {
    if es == [] then None
    else
      var s, e, before := Run(Init(stall), es[..|es| - 1]), es[|es| - 1], LinkStory(stall, es[..|es| - 1], id);
      if !Enabled(s, e) || !e.World? then before
      else
        match e.world
        case AddLink(made, link) => if made == id then Some(link) else before
        case Unlink(removed) => if removed == id then None else before
        case _ => before
  }

  function LinkIn(links: Links, id: LinkId): Option<Link> { if id in links then Some(links[id]) else None }

  lemma {:induction false} WorldLinks(s: State, w: WorldEvent, id: LinkId)
    ensures LinkIn(WorldStep(s, w).links, id) == match w
      case AddLink(made, link) => if made == id then Some(link) else LinkIn(s.links, id)
      case Unlink(removed) => if removed == id then None else LinkIn(s.links, id)
      case _ => LinkIn(s.links, id)
  {
  }

  lemma {:induction false} OthersLeaveLinks(s: State, e: Event)
    requires Enabled(s, e) && !e.World?
    ensures Step(s, e).links == s.links
  {
    if e.Approve? && e.card.PressButton? {
      PressedGives(s, e.card.h, e.card.press, e.card.confirmed, e.card.clock);
    } else if e.Approve? {
      CardsAreSilent(s, e.card);
    } else if !e.delivery.Act? {
      DeliveriesAreSilent(s, e.delivery);
    }
  }

  /** In every run the links are those that were made and not removed, as they were made. */
  lemma {:induction false} LinksAreTheirStories(stall: nat, es: seq<Event>, id: LinkId)
    ensures LinkIn(Run(Init(stall), es).links, id) == LinkStory(stall, es, id)
  {
    if es != [] {
      var s, e := Run(Init(stall), es[..|es| - 1]), es[|es| - 1];
      LinksAreTheirStories(stall, es[..|es| - 1], id);
      if Enabled(s, e) && e.World? {
        WorldLinks(s, e.world, id);
      } else if Enabled(s, e) {
        OthersLeaveLinks(s, e);
      }
    }
  }
}
