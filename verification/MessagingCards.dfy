/** What the offers of a reply leave behind, card by card. */
module MessagingCards {
  import opened Prelude
  import opened MessagingDelivery
  import opened MessagingDatabase

  /** The claim of an offer is won: it is well-formed and in time, its link still stands, no card was ever minted for its
      confirmation on that link, and the owner has fewer than 128 cards. */
  ghost predicate Wins(a: Approvals, links: Links, linkId: LinkId, link: Link, offer: Offer) {
    && offer.wellFormed && offer.clock < offer.deadline && offer.fits
    && offer.token !in a && linkId in links && links[linkId] == link
    && (forall t :: t in a && a[t].linkId == linkId && a[t].link.owner == link.owner && a[t].link.conversation == link.conversation
          ==> a[t].confirmation != offer.confirmation)
    && |OwnerCards(a, link.owner)| < 128
  }

  function Earliest(a: nat, b: nat): nat { if a <= b then a else b }

  /** The card can be sent when its turn comes: its link is still there and it has not expired. */
  predicate Reached(offer: Offer) { offer.linked && offer.sendClock < Earliest(offer.deadline, offer.clock + 600_000) }

  /** The card that a won claim ends as. */
  predicate CardTells(row: Approval, linkId: LinkId, link: Link, offer: Offer) {
    && row.confirmation == offer.confirmation && row.linkId == linkId && row.link == link
    && row.expiresAt == Earliest(offer.deadline, offer.clock + 600_000) && row.retainUntil == offer.clock + 172_800_000
    && (Reached(offer) && offer.message.Some? ==> row.status.CardSent? && row.message == offer.message)
    && (Reached(offer) && offer.message.None? ==> row.status.CardUnknown? && row.message.None?)
    && (!Reached(offer) ==> row.status.CardUnlinked? && row.message.None?)
  }

  /** A card for the same confirmation that the owner can still press. */
  ghost predicate Pressable(a: Approvals, linkId: LinkId, link: Link, offer: Offer) {
    exists t :: t in a && a[t].linkId == linkId && a[t].confirmation == offer.confirmation
                && a[t].link.owner == link.owner && a[t].link.conversation == link.conversation
                && a[t].status.CardSent? && offer.sendClock < a[t].expiresAt
  }

  lemma {:induction false} WinsIff(a: Approvals, links: Links, linkId: LinkId, link: Link, offer: Offer)
    ensures Wins(a, links, linkId, link, offer)
      <==> Presentable(offer) && CanClaimCard(a, links, offer.token, CardOf(linkId, link, offer))
  {
  }

  /** The offers before the `i`th have left `before`. If its claim is won there, its card is in the table at the end and
      tells what became of it; otherwise the offer leaves no trace. */
  lemma {:induction false} OfferedCard(a: Approvals, links: Links, linkId: LinkId, link: Link, offers: seq<Offer>, i: nat)
    requires i < |offers|
    ensures var before, after := AfterOffers(a, links, linkId, link, offers[..i]), AfterOffers(a, links, linkId, link, offers);
      if Wins(before, links, linkId, link, offers[i])
      then offers[i].token in after && CardTells(after[offers[i].token], linkId, link, offers[i])
      else AfterOffers(a, links, linkId, link, offers[..i + 1]) == before
  {
    var before := AfterOffers(a, links, linkId, link, offers[..i]);
    var offer := offers[i];
    WinsIff(before, links, linkId, link, offer);
    assert offers[..i + 1][..i] == offers[..i] && offers[..i + 1] + offers[i + 1..] == offers;
    var next := AfterOffer(before, links, linkId, link, offer);
    OffersConcat(a, links, linkId, link, offers[..i + 1], offers[i + 1..]);
    OffersOnlyAdd(next, links, linkId, link, offers[i + 1..]);
    if Wins(before, links, linkId, link, offer) { WonCardTells(before, links, linkId, link, offer); }
  }

  lemma {:induction false} WonCardTells(a: Approvals, links: Links, linkId: LinkId, link: Link, offer: Offer)
    requires Wins(a, links, linkId, link, offer)
    ensures var after := AfterOffer(a, links, linkId, link, offer);
      offer.token in after && CardTells(after[offer.token], linkId, link, offer)
  {
    WinsIff(a, links, linkId, link, offer);
  }

  /** The owner is shown something for the offer, or there is nothing left to show it on. */
  ghost predicate Served(a: Approvals, links: Links, linkId: LinkId, link: Link, offer: Offer) {
    if Wins(a, links, linkId, link, offer) then offer.message.Some? || !Reached(offer)
    else offer.wellFormed && offer.clock < offer.deadline && offer.fits && Pressable(a, linkId, link, offer)
  }

  lemma {:induction false} ServedIff(a: Approvals, links: Links, linkId: LinkId, link: Link, offer: Offer)
    ensures Settles(a, links, linkId, link, offer) <==> Served(a, links, linkId, link, offer)
  {
    WinsIff(a, links, linkId, link, offer);
    if t :| t in a && Actionable(a[t], linkId, link, offer) { assert Pressable(a, linkId, link, offer); }
  }

  ghost predicate ServedAt(a: Approvals, links: Links, linkId: LinkId, link: Link, offers: seq<Offer>, i: nat)
    requires i < |offers|
  {
    Served(AfterOffers(a, links, linkId, link, offers[..i]), links, linkId, link, offers[i])
  }

  lemma {:induction false} ServedInPrefix(a: Approvals, links: Links, linkId: LinkId, link: Link, offers: seq<Offer>, n: nat, i: nat)
    requires i < n <= |offers|
    ensures ServedAt(a, links, linkId, link, offers[..n], i) <==> ServedAt(a, links, linkId, link, offers, i)
  {
    assert offers[..n][..i] == offers[..i];
  }

  /** No fallback text is due exactly if every offer was served when its turn came. */
  lemma {:induction false} AllServedIff(a: Approvals, links: Links, linkId: LinkId, link: Link, offers: seq<Offer>)
    ensures AllSettle(a, links, linkId, link, offers) <==> forall i :: 0 <= i < |offers| ==> ServedAt(a, links, linkId, link, offers, i)
  {
    if offers != [] {
      var n := |offers| - 1;
      AllServedIff(a, links, linkId, link, offers[..n]);
      ServedIff(AfterOffers(a, links, linkId, link, offers[..n]), links, linkId, link, offers[n]);
      forall i | 0 <= i < n ensures ServedAt(a, links, linkId, link, offers[..n], i) <==> ServedAt(a, links, linkId, link, offers, i) {
        ServedInPrefix(a, links, linkId, link, offers, n, i);
      }
      assert ServedAt(a, links, linkId, link, offers, n)
        <==> Settles(AfterOffers(a, links, linkId, link, offers[..n]), links, linkId, link, offers[n]);
      assert (forall i :: 0 <= i < n ==> ServedAt(a, links, linkId, link, offers[..n], i))
        <==> (forall i :: 0 <= i < n ==> ServedAt(a, links, linkId, link, offers, i));
    }
  }
}
