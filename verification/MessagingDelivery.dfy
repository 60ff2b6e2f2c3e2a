/**
  Delivery claims of the messaging bridge: inbound events, later replies, notifications and
  approval buttons, over the shared control database. One `Event` is one stretch of a handler
  between two awaits; a D1 batch is one stretch. Handlers keep the clock value they read while
  others run. `stall` bounds how long a handler takes from reading the clock to its claim.
*/
module MessagingDelivery {
  import opened Prelude

  const MINUTE: nat := 60_000
  const HOUR: nat := 3_600_000
  const MAX_EVENT_AGE_MS: nat := 24 * HOUR
  const MAX_EVENT_LEAD_MS: nat := 5 * MINUTE
  const DELIVERY_TTL_MS: nat := 48 * HOUR
  const MAX_RETAINED_DELIVERIES: nat := 1024
  const REPLY_JOB_LIFE_MS: nat := HOUR
  const REPLY_HOLD_MS: nat := 110_000
  const APPROVAL_TTL_MS: nat := 10 * MINUTE
  const RETENTION_MS: nat := 48 * HOUR
  const MAX_APPROVALS: nat := 128

  type OwnerId = nat
  type PluginId = nat
  type LinkId = nat
  type Token = nat
  type ConfirmationId = nat
  type HandlerId = nat

  /** What a delivery row is unique for: request_id and (plugin_id, event_id) determine each other. */
  datatype Key =
    | Inbound(plugin: PluginId, event: string)
    | Click(token: Token)
    | Reply(request: Key, message: string)
    | Notice(owner: OwnerId, note: string, plugin: PluginId)

  datatype DeliveryStatus = Processing | DispatchUnknown | Sending | Sent | SendUnknown | Unlinked
  datatype Delivery = Delivery(owner: OwnerId, link: LinkId, status: DeliveryStatus, updatedAt: nat, expiresAt: nat)

  datatype Link = Link(owner: OwnerId, plugin: PluginId, sender: string, chat: string, conversation: nat)

  datatype ApprovalStatus = CardSending | CardSent | CardUnknown | Consumed | CardUnlinked
  datatype Approval = Approval(confirmation: ConfirmationId, linkId: LinkId, link: Link, message: Option<string>,
                               status: ApprovalStatus, expiresAt: nat, retainUntil: nat)

  // ---------------------------------------------------------------- the tables

  type Deliveries = map<Key, Delivery>
  type Approvals = map<Token, Approval>
  type Links = map<LinkId, Link>

  function OwnerRows(d: Deliveries, owner: OwnerId): set<Key> {
    set k | k in d && d[k].owner == owner
  }

  function OwnerCards(a: Approvals, owner: OwnerId): set<Token> {
    set t | t in a && a[t].link.owner == owner
  }

  /** INSERT OR IGNORE behind the link check and the retention cap. */
  predicate CanClaim(d: Deliveries, links: Links, key: Key, row: Delivery) {
    key !in d && row.link in links && |OwnerRows(d, row.owner)| < MAX_RETAINED_DELIVERIES
  }

  function PruneDeliveries(d: Deliveries, clock: nat): Deliveries {
    map k | k in d && d[k].expiresAt > clock :: d[k]
  }

  function SetStatus(d: Deliveries, key: Key, status: DeliveryStatus, now: nat): Deliveries {
    if key in d then d[key := d[key].(status := status, updatedAt := now)] else d
  }

  /** A notice whose preflight failed gives its claim back. */
  function WithoutSending(d: Deliveries, key: Key): Deliveries {
    if key in d && d[key].status.Sending? then d - {key} else d
  }

  function SettleApproval(a: Approvals, token: Token, outcome: ApprovalStatus, message: Option<string>): Approvals {
    if token in a && a[token].status.CardSending? then a[token := a[token].(status := outcome, message := message)] else a
  }

  predicate CanClaimCard(a: Approvals, links: Links, token: Token, row: Approval) {
    && token !in a
    && row.linkId in links && links[row.linkId] == row.link
    && (forall t :: t in a ==> !(a[t].linkId == row.linkId && a[t].link.owner == row.link.owner
                                 && a[t].link.conversation == row.link.conversation && a[t].confirmation == row.confirmation))
    && |OwnerCards(a, row.link.owner)| < MAX_APPROVALS
  }

  /** A button press as the provider reports it. */
  datatype Press = Press(token: Token, plugin: PluginId, sender: string, chat: string, message: string)

  /** First statement of the consuming batch: the guards on the approval and on its current link. */
  predicate CanInsertClick(d: Deliveries, a: Approvals, links: Links, press: Press, clock: nat) {
    && Click(press.token) !in d
    && press.token in a
    && var row := a[press.token];
    && row.status.CardSent? && row.expiresAt > clock
    && row.link.plugin == press.plugin && row.link.sender == press.sender && row.link.chat == press.chat
    && row.message == Some(press.message)
    && row.linkId in links && links[row.linkId] == row.link
    && |OwnerRows(d, row.link.owner)| < MAX_RETAINED_DELIVERIES
  }

  function InsertClick(d: Deliveries, a: Approvals, links: Links, press: Press, clock: nat): Deliveries {
    if CanInsertClick(d, a, links, press, clock)
    then d[Click(press.token) := Delivery(a[press.token].link.owner, a[press.token].linkId, Processing, clock, clock + RETENTION_MS)]
    else d
  }

  /** Second statement: its guards on the approval and on the delivery row. */
  predicate CanConsume(d: Deliveries, a: Approvals, token: Token, clock: nat) {
    && token in a && a[token].status.CardSent? && a[token].expiresAt > clock
    && Click(token) in d
    && d[Click(token)].link == a[token].linkId && d[Click(token)].owner == a[token].link.owner
    && d[Click(token)].status.Processing?
  }

  function ConsumeCard(d: Deliveries, a: Approvals, token: Token, clock: nat): Approvals {
    if CanConsume(d, a, token, clock) then a[token := a[token].(status := Consumed)] else a
  }

  // ---------------------------------------------------------------- handlers

  datatype Handler =
    | Received(key: Key, clock: nat, link: LinkId, owner: OwnerId)      // before the claim of an inbound event
    | Claimed(key: Key)                                                 // owns the claim, nothing sent yet
    | Working(key: Key)                                                 // dispatched or sent, status to be written
    | ReplyBegun(key: Key, began: nat)                                  // reply job passed its age check
    | ReplyReady(key: Key, began: nat, clock: nat, link: LinkId, owner: OwnerId)
    | CardBegun(confirmation: ConfirmationId, deadline: nat, clock: nat, linkId: LinkId)
    | CardClaimed(card: Token, confirmation: ConfirmationId, linkId: LinkId)
    | CardWorking(card: Token, outcome: ApprovalStatus, message: Option<string>)

  datatype CardKey = CardKey(link: LinkId, confirmation: ConfirmationId)
  datatype CardClaim = CardClaim(token: Token, clock: nat)
  datatype Decision = Decision(token: Token, confirmed: bool)

  datatype State = State(
    now: nat,
    stall: nat,
    links: Links,
    known: Links,                              // history: every link ever made; ids are not reused
    deliveries: Deliveries,
    approvals: Approvals,
    jobs: map<Key, nat>,                       // creation time of each reply job; never changes
    handlers: map<HandlerId, Handler>,
    occurred: map<Key, int>,                   // history: the provider's timestamp of each inbound event
    won: map<Key, nat>,                        // history: clock value of the latest won claim
    acted: seq<Key>,                           // history: dispatches and reply or notice sends, in order
    minted: set<Token>,
    issued: map<ConfirmationId, nat>,          // when each confirmation was issued
    cardWon: map<CardKey, CardClaim>,          // history: latest won card claim
    cards: seq<CardKey>,                        // history: cards handed to the provider
    decisions: seq<Decision>)                  // history: decisions taken from buttons

  function Init(stall: nat): State {
    State(0, stall, map[], map[], map[], map[], map[], map[], map[], map[], [], {}, map[], map[], [], [])
  }

  /** What happens around the handlers. */
  datatype WorldEvent =
    | Tick(ms: nat)
    | AddLink(id: LinkId, link: Link)
    | Unlink(id: LinkId)
    | PostReply(key: Key)
    | IssueConfirmation(confirmation: ConfirmationId)
    | Lost(h: HandlerId)

  datatype DeliveryEvent =
    | Receive(h: HandlerId, key: Key, occurredAt: int, linkId: LinkId)
    | ClaimEvent(h: HandlerId)
    | BeginReply(h: HandlerId, key: Key)
    | PrepareReply(h: HandlerId)
    | ClaimReply(h: HandlerId)
    | ClaimNotice(h: HandlerId, key: Key, linkId: LinkId)
    | AbortNotice(h: HandlerId)
    | Act(h: HandlerId)
    | Settle(h: HandlerId, status: DeliveryStatus)
    | PruneRows(clock: nat)

  datatype CardEvent =
    | BeginCard(h: HandlerId, confirmation: ConfirmationId, linkId: LinkId)
    | ClaimCard(h: HandlerId, token: Token)
    | SendCard(h: HandlerId, outcome: ApprovalStatus, message: Option<string>)
    | SettleCard(h: HandlerId)
    | PressButton(h: HandlerId, press: Press, confirmed: bool, clock: nat)
    | PruneCards(gone: set<Token>, clock: nat)

  datatype Event = World(world: WorldEvent) | Deliver(delivery: DeliveryEvent) | Approve(card: CardEvent)

  predicate InWindow(occurredAt: int, clock: nat) {
    clock - MAX_EVENT_AGE_MS <= occurredAt <= clock + MAX_EVENT_LEAD_MS
  }

  predicate WorldEnabled(s: State, e: WorldEvent) {
    match e
    case AddLink(id, _) => id !in s.known
    case PostReply(key) => key.Reply? && key !in s.jobs
    case IssueConfirmation(c) => c !in s.issued
    case _ => true
  }

  predicate DeliveryEnabled(s: State, e: DeliveryEvent) {
    match e
    case Receive(h, key, at, link) =>
      h !in s.handlers && key.Inbound? && (key in s.occurred ==> s.occurred[key] == at)
      && InWindow(at, s.now) && link in s.links && s.links[link].plugin == key.plugin
    case ClaimEvent(h) => h in s.handlers && s.handlers[h].Received? && s.now - s.handlers[h].clock <= s.stall
    case BeginReply(h, key) =>
      h !in s.handlers && key in s.jobs && s.now - s.jobs[key] <= REPLY_JOB_LIFE_MS
    case PrepareReply(h) => h in s.handlers && s.handlers[h].ReplyBegun? && s.handlers[h].key.Reply?
    case ClaimReply(h) => h in s.handlers && s.handlers[h].ReplyReady? && s.now - s.handlers[h].began <= s.stall
    case ClaimNotice(h, key, link) =>
      h !in s.handlers && key.Notice? && link in s.links && s.links[link].owner == key.owner && s.links[link].plugin == key.plugin
    case AbortNotice(h) => h in s.handlers && s.handlers[h].Claimed? && s.handlers[h].key.Notice?
    case Act(h) => h in s.handlers && s.handlers[h].Claimed?
    case Settle(h, _) => h in s.handlers && s.handlers[h].Working?
    case PruneRows(clock) => clock <= s.now
  }

  predicate CardEnabled(s: State, e: CardEvent) {
    match e
    case BeginCard(h, c, link) => h !in s.handlers && c in s.issued && s.now < s.issued[c] + APPROVAL_TTL_MS
    case ClaimCard(h, token) =>
      h in s.handlers && s.handlers[h].CardBegun? && token !in s.minted && s.now - s.handlers[h].clock <= s.stall
    case SendCard(h, outcome, message) =>
      h in s.handlers && s.handlers[h].CardClaimed?
      && (outcome.CardSent? || outcome.CardUnknown? || outcome.CardUnlinked?) && (message.Some? <==> outcome.CardSent?)
    case SettleCard(h) => h in s.handlers && s.handlers[h].CardWorking?
    case PressButton(h, _, _, clock) => h !in s.handlers && clock <= s.now
    case PruneCards(gone, clock) =>
      clock <= s.now && |gone| <= 1024 && forall t :: t in gone ==> t in s.approvals && s.approvals[t].retainUntil <= clock
  }

  predicate Enabled(s: State, e: Event) {
    match e
    case World(w) => WorldEnabled(s, w)
    case Deliver(d) => DeliveryEnabled(s, d)
    case Approve(c) => CardEnabled(s, c)
  }

  function Drop(s: State, h: HandlerId): State {
    s.(handlers := s.handlers - {h})
  }

  /** A claim with the clock value its handler kept; the loser stops. */
  function TryClaim(s: State, h: HandlerId, key: Key, clock: nat, status: DeliveryStatus, link: LinkId, owner: OwnerId): (t: State)
    ensures t.stall == s.stall && t.approvals == s.approvals
    ensures forall k :: k in t.deliveries ==> k in s.deliveries || k == key
  {
    var row := Delivery(owner, link, status, clock, clock + DELIVERY_TTL_MS);
    if CanClaim(s.deliveries, s.links, key, row)
    then s.(deliveries := s.deliveries[key := row], won := s.won[key := clock], handlers := s.handlers[h := Claimed(key)])
    else Drop(s, h)
  }

  /** linkedRequest: the retained row of the original request, still on the same link. */
  predicate RequestLinked(s: State, request: Key) {
    request in s.deliveries && s.deliveries[request].expiresAt > s.now
    && s.deliveries[request].link in s.links && s.links[s.deliveries[request].link].owner == s.deliveries[request].owner
  }

  predicate AcknowledgmentPending(s: State, request: Key)
    requires request in s.deliveries
  {
    (s.deliveries[request].status.Processing? || s.deliveries[request].status.Sending?)
    && s.deliveries[request].updatedAt + REPLY_HOLD_MS > s.now
  }

  function Prepare(s: State, h: HandlerId): (t: State)
    requires DeliveryEnabled(s, PrepareReply(h))
    ensures t == s.(handlers := t.handlers)
  {
    var ReplyBegun(key, began) := s.handlers[h];
    if RequestLinked(s, key.request) && !AcknowledgmentPending(s, key.request)
    then var row := s.deliveries[key.request];
         s.(handlers := s.handlers[h := ReplyReady(key, began, s.now, row.link, row.owner)])
    else Drop(s, h)
  }

  /** The stretch in which the agent or the provider is contacted: an inbound event or a button is
      dispatched (a link code only gets its greeting), a reply or a notice is sent. If the link of a
      reply or notice is gone it is not sent. */
  function ActOn(s: State, h: HandlerId): (t: State)
    requires DeliveryEnabled(s, Act(h))
    ensures t == s.(handlers := t.handlers, acted := t.acted)
  {
    var key := s.handlers[h].key;
    var next := s.(handlers := s.handlers[h := Working(key)]);
    if (key.Reply? && !RequestLinked(s, key.request)) || (key.Notice? && !(key in s.deliveries && s.deliveries[key].link in s.links))
    then next else next.(acted := s.acted + [key])
  }

  function NewCard(c: ConfirmationId, deadline: nat, clock: nat, linkId: LinkId, link: Link): Approval {
    var expires := if deadline < clock + APPROVAL_TTL_MS then deadline else clock + APPROVAL_TTL_MS;
    Approval(c, linkId, link, None, CardSending, expires, clock + RETENTION_MS)
  }

  function Minted(s: State, h: HandlerId, token: Token, row: Approval, clock: nat): (t: State)
    ensures t.stall == s.stall && t.deliveries == s.deliveries
  {
    s.(approvals := s.approvals[token := row],
       minted := s.minted + {token},
       cardWon := s.cardWon[CardKey(row.linkId, row.confirmation) := CardClaim(token, clock)],
       handlers := s.handlers[h := CardClaimed(token, row.confirmation, row.linkId)])
  }

  function MintLost(s: State, h: HandlerId, token: Token): (t: State)
    ensures t.stall == s.stall && t.deliveries == s.deliveries
  {
    s.(handlers := s.handlers - {h}, minted := s.minted + {token})
  }

  /** The row a card handler would insert, if its link is still there and nothing conflicts. */
  function CardToClaim(s: State, card: Handler, token: Token): Option<Approval>
    requires card.CardBegun?
  {
    if card.linkId !in s.links then None
    else
      var row := NewCard(card.confirmation, card.deadline, card.clock, card.linkId, s.links[card.linkId]);
      if CanClaimCard(s.approvals, s.links, token, row) then Some(row) else None
  }

  function Minting(s: State, h: HandlerId, token: Token, claim: Option<Approval>): (t: State)
    requires h in s.handlers && s.handlers[h].CardBegun?
    ensures t.stall == s.stall && t.deliveries == s.deliveries
  {
    if claim.Some? then Minted(s, h, token, claim.value, s.handlers[h].clock) else MintLost(s, h, token)
  }

  function MintCard(s: State, h: HandlerId, token: Token): State
    requires h in s.handlers && s.handlers[h].CardBegun?
  {
    Minting(s, h, token, CardToClaim(s, s.handlers[h], token))
  }

  /** consumeApproval: both statements of the batch in one step; only the winner goes on to dispatch. */
  function Pressed(s: State, h: HandlerId, press: Press, confirmed: bool, clock: nat): (r: State)
    ensures r.stall == s.stall
  {
    var d := InsertClick(s.deliveries, s.approvals, s.links, press, clock);
    var t := s.(deliveries := d,
                won := if Click(press.token) in d && Click(press.token) !in s.deliveries then s.won[Click(press.token) := clock] else s.won);
    if CanConsume(d, s.approvals, press.token, clock)
    then t.(approvals := ConsumeCard(d, s.approvals, press.token, clock),
            decisions := s.decisions + [Decision(press.token, confirmed)],
            handlers := s.handlers[h := Claimed(Click(press.token))])
    else t
  }

  function WorldStep(s: State, e: WorldEvent): (t: State)
    ensures t.stall == s.stall && t.approvals == s.approvals && t.deliveries == s.deliveries
  {
    match e
    case Tick(ms) => s.(now := s.now + ms)
    case AddLink(id, link) => s.(links := s.links[id := link], known := s.known[id := link])
    case Unlink(id) => s.(links := s.links - {id})
    case PostReply(key) => s.(jobs := s.jobs[key := s.now])
    case IssueConfirmation(c) => s.(issued := s.issued[c := s.now])
    case Lost(h) => Drop(s, h)
  }

  function DeliveryStep(s: State, e: DeliveryEvent): (t: State)
    requires DeliveryEnabled(s, e)
    ensures t.stall == s.stall && t.approvals == s.approvals
  {
    match e
    case Receive(h, key, at, link) =>
      s.(occurred := s.occurred[key := at], handlers := s.handlers[h := Received(key, s.now, link, s.links[link].owner)])
    case ClaimEvent(h) =>
      var Received(key, clock, link, owner) := s.handlers[h];
      TryClaim(s, h, key, clock, Processing, link, owner)
    case BeginReply(h, key) => s.(handlers := s.handlers[h := ReplyBegun(key, s.now)])
    case PrepareReply(h) => Prepare(s, h)
    case ClaimReply(h) =>
      var ReplyReady(key, _, clock, link, owner) := s.handlers[h];
      TryClaim(s, h, key, clock, Sending, link, owner)
    case ClaimNotice(h, key, link) => TryClaim(s, h, key, s.now, Sending, link, key.owner)
    case AbortNotice(h) => Drop(s, h).(deliveries := WithoutSending(s.deliveries, s.handlers[h].key))
    case Act(h) => ActOn(s, h)
    case Settle(h, status) => Drop(s, h).(deliveries := SetStatus(s.deliveries, s.handlers[h].key, status, s.now))
    case PruneRows(clock) => s.(deliveries := PruneDeliveries(s.deliveries, clock))
  }

  function CardStep(s: State, e: CardEvent): State
    requires CardEnabled(s, e)
  {
    match e
    case BeginCard(h, c, link) =>
      s.(handlers := s.handlers[h := CardBegun(c, s.issued[c] + APPROVAL_TTL_MS, s.now, link)])
    case ClaimCard(h, token) => MintCard(s, h, token)
    case SendCard(h, outcome, message) =>
      var CardClaimed(token, c, link) := s.handlers[h];
      s.(handlers := s.handlers[h := CardWorking(token, outcome, message)],
         cards := if outcome.CardUnlinked? then s.cards else s.cards + [CardKey(link, c)])
    case SettleCard(h) =>
      var CardWorking(token, outcome, message) := s.handlers[h];
      Drop(s, h).(approvals := SettleApproval(s.approvals, token, outcome, message))
    case PressButton(h, press, confirmed, clock) => Pressed(s, h, press, confirmed, clock)
    case PruneCards(gone, _) => s.(approvals := s.approvals - gone)
  }

  function Step(s: State, e: Event): State
    requires Enabled(s, e)
  {
    match e
    case World(w) => WorldStep(s, w)
    case Deliver(d) => DeliveryStep(s, d)
    case Approve(c) => CardStep(s, c)
  }

  /** Disabled events do nothing, so every sequence of events is a run. */
  function Run(s: State, es: seq<Event>): State {
    if es == [] then s
    else var s1 := Run(s, es[..|es| - 1]);
         var e := es[|es| - 1];
         if Enabled(s1, e) then Step(s1, e) else s1
  }
}
