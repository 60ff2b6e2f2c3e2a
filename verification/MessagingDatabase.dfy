/** The statements of the messaging bridge on the control database, and the loop that offers approval cards. */
module MessagingDatabase {
  import opened Prelude
  import opened MessagingDelivery

  const MAX_CARDS_PER_REPLY: nat := 8

  /** One pending action as the agent reports it, with what the loop learns about it from outside:
      the fresh token, the clock at each look, whether the link still stands and what the provider answered. */
  datatype Offer = Offer(confirmation: ConfirmationId, wellFormed: bool, deadline: nat, fits: bool,
                         token: Token, clock: nat, sendClock: nat, linked: bool, message: Option<string>)

  class Database {
    var links: Links
    var deliveries: Deliveries
    var approvals: Approvals

    constructor ()
      ensures links == map[] && deliveries == map[] && approvals == map[]
    {
      links, deliveries, approvals := map[], map[], map[];
    }

    method Prune(clock: nat)
      modifies this`deliveries
      ensures deliveries == PruneDeliveries(old(deliveries), clock)
    {
      var expired := set k | k in deliveries && deliveries[k].expiresAt <= clock;
      deliveries := deliveries - expired;
    }

    method Claim(key: Key, row: Delivery) returns (won: bool)
      modifies this`deliveries
      ensures won <==> CanClaim(old(deliveries), links, key, row)
      ensures deliveries == if won then old(deliveries)[key := row] else old(deliveries)
    {
      won := key !in deliveries && row.link in links && |OwnerRows(deliveries, row.owner)| < MAX_RETAINED_DELIVERIES;
      if won { deliveries := deliveries[key := row]; }
    }

    method WriteStatus(key: Key, status: DeliveryStatus, now: nat)
      modifies this`deliveries
      ensures deliveries == SetStatus(old(deliveries), key, status, now)
    {
      if key in deliveries {
        deliveries := deliveries[key := deliveries[key].(status := status, updatedAt := now)];
      }
    }

    /** consumeApproval: insert the delivery, then consume the button if the delivery is there. */
    method ConsumeApproval(press: Press, clock: nat) returns (consumed: Option<Approval>)
      modifies this`deliveries, this`approvals
      ensures deliveries == InsertClick(old(deliveries), old(approvals), links, press, clock)
      ensures approvals == ConsumeCard(deliveries, old(approvals), press.token, clock)
      ensures consumed.Some? <==> CanConsume(deliveries, old(approvals), press.token, clock)
      ensures consumed.Some? ==> press.token in approvals && consumed.value == approvals[press.token]
    {
      if press.token in approvals && CanInsertClick(deliveries, approvals, links, press, clock) {
        var row := approvals[press.token];
        deliveries := deliveries[Click(press.token) := Delivery(row.link.owner, row.linkId, Processing, clock, clock + RETENTION_MS)];
      }
      consumed := None;
      if CanConsume(deliveries, approvals, press.token, clock) {
        approvals := approvals[press.token := approvals[press.token].(status := Consumed)];
        consumed := Some(approvals[press.token]);
      }
    }

    /** The claim of sendApprovalCards, made before the provider is contacted. */
    method ClaimCard(linkId: LinkId, link: Link, offer: Offer) returns (won: bool)
      modifies this`approvals
      ensures var row := NewCard(offer.confirmation, offer.deadline, offer.clock, linkId, link);
        && (won <==> CanClaimCard(old(approvals), links, offer.token, row))
        && approvals == if won then old(approvals)[offer.token := row] else old(approvals)
    {
      var row := NewCard(offer.confirmation, offer.deadline, offer.clock, linkId, link);
      won := CanClaimCard(approvals, links, offer.token, row);
      if won { approvals := approvals[offer.token := row]; }
    }

    /** One turn of the loop. Unless the owner can act on a card, or the link is gone or the card expired
        when it is to be sent, the fallback text is due. */
    method OfferCard(linkId: LinkId, link: Link, offer: Offer) returns (shown: bool, contacted: bool)
      modifies this`approvals
      ensures approvals == AfterOffer(old(approvals), links, linkId, link, offer)
      ensures shown <==> Settles(old(approvals), links, linkId, link, offer)
      ensures contacted <==> Contactable(old(approvals), links, linkId, link, offer)
    {
      contacted := false;
      if !offer.wellFormed || offer.deadline <= offer.clock || !offer.fits { return false, false; }
      var won := ClaimCard(linkId, link, offer);
      if !won {
        shown := exists t :: t in approvals && Actionable(approvals[t], linkId, link, offer);
        return;
      }
      var row := approvals[offer.token];
      var status := CardUnlinked;
      shown := true;
      if offer.linked && row.expiresAt > offer.sendClock {
        contacted := true;
        if offer.message.Some? { status := CardSent; } else { status, shown := CardUnknown, false; }
      }
      approvals := approvals[offer.token := row.(status := status, message := if contacted then offer.message else None)];
    }

    /** sendApprovalCards: at most eight cards, each claimed before it is sent. The fallback text is due exactly
        when there were more, or when one of them neither left an actionable card nor found, when it was to be
        sent, that its link was gone or that it had expired. */
    method SendApprovalCards(linkId: LinkId, link: Link, offers: seq<Offer>) returns (fallback: bool, sent: seq<Token>)
      modifies this`approvals
      ensures approvals == AfterOffers(old(approvals), links, linkId, link, FirstCards(offers))
      ensures fallback <==> |offers| > MAX_CARDS_PER_REPLY || !AllSettle(old(approvals), links, linkId, link, FirstCards(offers))
      ensures Grown(old(approvals), approvals)
      ensures |sent| <= MAX_CARDS_PER_REPLY && Distinct(sent)
      ensures forall t :: t in sent ==> t !in old(approvals) && t in approvals && approvals[t].linkId == linkId
    {
      fallback := |offers| > MAX_CARDS_PER_REPLY;
      sent := [];
      var n := if |offers| < MAX_CARDS_PER_REPLY then |offers| else MAX_CARDS_PER_REPLY;
      for i := 0 to n
        invariant approvals == AfterOffers(old(approvals), links, linkId, link, offers[..i])
        invariant fallback <==> |offers| > MAX_CARDS_PER_REPLY || !AllSettle(old(approvals), links, linkId, link, offers[..i])
        invariant Grown(old(approvals), approvals)
        invariant |sent| <= i && Distinct(sent)
        invariant forall t :: t in sent ==> t !in old(approvals) && t in approvals && approvals[t].linkId == linkId
      {
        assert offers[..i + 1][..i] == offers[..i];
        var shown, contacted := OfferCard(linkId, link, offers[i]);
        if !shown { fallback := true; }
        if contacted { sent := sent + [offers[i].token]; }
      }
      assert offers[..n] == FirstCards(offers);
    }
  }

  function FirstCards(offers: seq<Offer>): seq<Offer> {
    if |offers| < MAX_CARDS_PER_REPLY then offers else offers[..MAX_CARDS_PER_REPLY]
  }

  predicate Presentable(offer: Offer) { offer.wellFormed && offer.deadline > offer.clock && offer.fits }

  function CardOf(linkId: LinkId, link: Link, offer: Offer): Approval {
    NewCard(offer.confirmation, offer.deadline, offer.clock, linkId, link)
  }

  /** The row an offer leaves when its claim is won. */
  function CardAfter(linkId: LinkId, link: Link, offer: Offer): Approval {
    var row := CardOf(linkId, link, offer);
    if !(offer.linked && row.expiresAt > offer.sendClock) then row.(status := CardUnlinked, message := None)
    else row.(status := if offer.message.Some? then CardSent else CardUnknown, message := offer.message)
  }

  ghost function AfterOffer(a: Approvals, links: Links, linkId: LinkId, link: Link, offer: Offer): Approvals {
    if Presentable(offer) && CanClaimCard(a, links, offer.token, CardOf(linkId, link, offer))
    then a[offer.token := CardAfter(linkId, link, offer)] else a
  }

  /** A card already sent for the same confirmation, link and conversation that can still be pressed. */
  predicate Actionable(row: Approval, linkId: LinkId, link: Link, offer: Offer) {
    && row.linkId == linkId && row.confirmation == offer.confirmation
    && row.link.owner == link.owner && row.link.conversation == link.conversation
    && row.status.CardSent? && row.expiresAt > offer.sendClock
  }

  /** The offer needs no fallback text: its card was sent, or by the time it would have been sent its link was gone
      or it had expired, or an actionable card was there. */
  ghost predicate Settles(a: Approvals, links: Links, linkId: LinkId, link: Link, offer: Offer) {
    && Presentable(offer)
    && if CanClaimCard(a, links, offer.token, CardOf(linkId, link, offer))
       then !CardAfter(linkId, link, offer).status.CardUnknown?
       else exists t :: t in a && Actionable(a[t], linkId, link, offer)
  }

  ghost function AfterOffers(a: Approvals, links: Links, linkId: LinkId, link: Link, offers: seq<Offer>): Approvals {
    if offers == [] then a
    else AfterOffer(AfterOffers(a, links, linkId, link, offers[..|offers| - 1]), links, linkId, link, offers[|offers| - 1])
  }

  ghost predicate AllSettle(a: Approvals, links: Links, linkId: LinkId, link: Link, offers: seq<Offer>) {
    if offers == [] then true
    else
      && AllSettle(a, links, linkId, link, offers[..|offers| - 1])
      && Settles(AfterOffers(a, links, linkId, link, offers[..|offers| - 1]), links, linkId, link, offers[|offers| - 1])
  }

  ghost predicate Contactable(a: Approvals, links: Links, linkId: LinkId, link: Link, offer: Offer) {
    var row := NewCard(offer.confirmation, offer.deadline, offer.clock, linkId, link);
    && offer.wellFormed && offer.deadline > offer.clock && offer.fits
    && CanClaimCard(a, links, offer.token, row)
    && offer.linked && row.expiresAt > offer.sendClock
  }

  /** Rows were only added. */
  ghost predicate Grown(a: Approvals, b: Approvals) {
    forall t :: t in a ==> t in b && b[t] == a[t]
  }

  /** A card that is there stays as it is while further offers are made. */
  lemma {:induction false} OffersOnlyAdd(a: Approvals, links: Links, linkId: LinkId, link: Link, offers: seq<Offer>)
    ensures Grown(a, AfterOffers(a, links, linkId, link, offers))
  {
    if offers != [] { OffersOnlyAdd(a, links, linkId, link, offers[..|offers| - 1]); }
  }

  lemma {:induction false} FirstOfferSettles(a: Approvals, links: Links, linkId: LinkId, link: Link, offers: seq<Offer>, i: nat)
    requires AllSettle(a, links, linkId, link, offers) && i < |offers|
    ensures Settles(AfterOffers(a, links, linkId, link, offers[..i]), links, linkId, link, offers[i])
  {
    if i < |offers| - 1 {
      FirstOfferSettles(a, links, linkId, link, offers[..|offers| - 1], i);
      assert offers[..|offers| - 1][..i] == offers[..i];
    }
  }

  lemma {:induction false} OffersConcat(a: Approvals, links: Links, linkId: LinkId, link: Link, first: seq<Offer>, rest: seq<Offer>)
    ensures AfterOffers(a, links, linkId, link, first + rest) == AfterOffers(AfterOffers(a, links, linkId, link, first), links, linkId, link, rest)
  {
    if rest == [] {
      assert first + rest == first;
    } else {
      ButLast(first, rest);
      OffersConcat(a, links, linkId, link, first, rest[..|rest| - 1]);
    }
  }

  /** The owner has a card for the confirmation that was sent, or whose link was gone or which had expired by the
      time it would have been sent. */
  ghost predicate Shown(a: Approvals, linkId: LinkId, confirmation: ConfirmationId) {
    exists t :: t in a && a[t].linkId == linkId && a[t].confirmation == confirmation && (a[t].status.CardSent? || a[t].status.CardUnlinked?)
  }

  /** Without a fallback text every offer has such a card in the end. */
  lemma {:induction false} NoFallbackMeansShown(a: Approvals, links: Links, linkId: LinkId, link: Link, offers: seq<Offer>, i: nat)
    requires AllSettle(a, links, linkId, link, offers) && i < |offers|
    ensures Shown(AfterOffers(a, links, linkId, link, offers), linkId, offers[i].confirmation)
  {
    var before := AfterOffers(a, links, linkId, link, offers[..i]);
    var after := AfterOffer(before, links, linkId, link, offers[i]);
    FirstOfferSettles(a, links, linkId, link, offers, i);
    SettledIsShown(before, links, linkId, link, offers[i]);
    assert offers[..i + 1][..i] == offers[..i] && offers[..i + 1] + offers[i + 1..] == offers;
    OffersConcat(a, links, linkId, link, offers[..i + 1], offers[i + 1..]);
    OffersOnlyAdd(after, links, linkId, link, offers[i + 1..]);
    var t :| t in after && after[t].linkId == linkId && after[t].confirmation == offers[i].confirmation
             && (after[t].status.CardSent? || after[t].status.CardUnlinked?);
    assert t in AfterOffers(a, links, linkId, link, offers);
  }

  lemma {:induction false} SettledIsShown(a: Approvals, links: Links, linkId: LinkId, link: Link, offer: Offer)
    requires Settles(a, links, linkId, link, offer)
    ensures Shown(AfterOffer(a, links, linkId, link, offer), linkId, offer.confirmation)
  {
    if CanClaimCard(a, links, offer.token, CardOf(linkId, link, offer)) {
      assert offer.token in AfterOffer(a, links, linkId, link, offer);
    }
  }
}
