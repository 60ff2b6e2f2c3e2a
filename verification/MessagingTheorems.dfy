/** What every run of the messaging bridge guarantees. */
module MessagingTheorems {
  import opened Prelude
  import opened MessagingDelivery
  import opened MessagingProofs
  import opened MessagingRuns

  // ---------------------------------------------------------------- main theorems

  /** Over a whole run, and although claims are pruned, no guarded key is acted on twice: an inbound
      event is dispatched once if handlers reach their claim within 23 hours 55 minutes, a reply is
      sent once if they do within 47 hours, and a button dispatches one decision in any case. */
  lemma {:induction false} ActsAtMostOnce(stall: nat, es: seq<Event>, i: nat, j: nat)
    requires i < j < |Run(Init(stall), es).acted| && Guarded(stall, Run(Init(stall), es).acted[i])
    ensures Run(Init(stall), es).acted[i] != Run(Init(stall), es).acted[j]
  {
    RunKeepsInv(stall, es);
    StallIsFixed(stall, es);
  }

  predicate Repeats(acted: seq<Key>, i: nat, j: nat) {
    i < j < |acted| && acted[i] == acted[j]
  }

  ghost predicate InboundOnce(stall: nat) {
    forall es: seq<Event>, i: nat, j: nat ::
      Repeats(Run(Init(stall), es).acted, i, j) ==> !Run(Init(stall), es).acted[i].Inbound?
  }

  ghost predicate ReplyOnce(stall: nat) {
    forall es: seq<Event>, i: nat, j: nat ::
      Repeats(Run(Init(stall), es).acted, i, j) ==> !Run(Init(stall), es).acted[i].Reply?
  }

  /** The bound for inbound events is exact: with a longer stall there is a run that dispatches twice. */
  lemma {:induction false} InboundOnceIffNoLongStall(stall: nat)
    ensures InboundOnce(stall) <==> stall < DELIVERY_TTL_MS - MAX_EVENT_AGE_MS - MAX_EVENT_LEAD_MS
  {
    if stall < DELIVERY_TTL_MS - MAX_EVENT_AGE_MS - MAX_EVENT_LEAD_MS {
      forall es: seq<Event>, i: nat, j: nat | Repeats(Run(Init(stall), es).acted, i, j)
        ensures !Run(Init(stall), es).acted[i].Inbound?
      {
        if Run(Init(stall), es).acted[i].Inbound? { ActsAtMostOnce(stall, es, i, j); }
      }
    } else {
      TwiceAfterLongStall(stall);
      assert Repeats(Run(Init(stall), LongStallRun()).acted, 0, 1);
    }
  }

  /** So is the bound for replies: with a stall of 47 hours there is a run that sends one twice. */
  lemma {:induction false} ReplyOnceIff(stall: nat)
    ensures ReplyOnce(stall) <==> stall < DELIVERY_TTL_MS - REPLY_JOB_LIFE_MS
  {
    if stall < DELIVERY_TTL_MS - REPLY_JOB_LIFE_MS {
      forall es: seq<Event>, i: nat, j: nat | Repeats(Run(Init(stall), es).acted, i, j)
        ensures !Run(Init(stall), es).acted[i].Reply?
      {
        if Run(Init(stall), es).acted[i].Reply? { ActsAtMostOnce(stall, es, i, j); }
      }
    } else {
      RepliesTwice(stall);
      assert Repeats(Run(Init(stall), StalledReplyRun()).acted, 1, 3);
    }
  }

  /** Retained claims per owner never exceed their cap, nor do retained cards. */
  lemma {:induction false} RetentionIsCapped(stall: nat, es: seq<Event>, owner: OwnerId)
    ensures |OwnerRows(Run(Init(stall), es).deliveries, owner)| <= MAX_RETAINED_DELIVERIES
    ensures |OwnerCards(Run(Init(stall), es).approvals, owner)| <= MAX_APPROVALS
  {
    RunKeepsInv(stall, es);
  }

  /** A token yields at most one decision, ever. */
  lemma {:induction false} OneDecisionPerToken(stall: nat, es: seq<Event>, i: nat, j: nat)
    requires i < j < |Run(Init(stall), es).decisions|
    ensures Run(Init(stall), es).decisions[i].token != Run(Init(stall), es).decisions[j].token
  {
    RunKeepsInv(stall, es);
  }

  /** A button is consumed in the very step that writes its delivery row, and in no other. */
  lemma {:induction false} ConsumedWithItsDelivery(stall: nat, es: seq<Event>, e: Event, token: Token)
    requires var s := Run(Init(stall), es);
      Enabled(s, e) && token in s.approvals && token in Step(s, e).approvals
      && !s.approvals[token].status.Consumed?
    ensures var s := Run(Init(stall), es);
      var t := Step(s, e);
      t.approvals[token].status.Consumed? <==> Click(token) !in s.deliveries && Click(token) in t.deliveries
  {
    RunKeepsInv(stall, es);
    var s := Run(Init(stall), es);
    match e
    case World(_) =>
    case Deliver(d) => DeliveryLeavesClicks(s, d, token);
    case Approve(c) => CardConsumes(s, c, token);
  }

  /** A timeout or a crash never mints a second button for the same confirmation and link. */
  lemma {:induction false} OneCardPerConfirmation(stall: nat, es: seq<Event>, i: nat, j: nat)
    requires CardStall(stall) && i < j < |Run(Init(stall), es).cards|
    ensures Run(Init(stall), es).cards[i] != Run(Init(stall), es).cards[j]
  {
    RunKeepsInv(stall, es);
    StallIsFixed(stall, es);
  }

  ghost predicate OneCard(stall: nat) {
    forall es: seq<Event> :: Distinct(Run(Init(stall), es).cards)
  }

  /** And the bound for cards: with a longer stall there is a run that sends two for one confirmation and link. */
  lemma {:induction false} OneCardIff(stall: nat)
    ensures OneCard(stall) <==> stall <= RETENTION_MS - APPROVAL_TTL_MS
  {
    if stall <= RETENTION_MS - APPROVAL_TTL_MS {
      forall es: seq<Event> ensures Distinct(Run(Init(stall), es).cards) {
        forall i, j | 0 <= i < j < |Run(Init(stall), es).cards|
          ensures Run(Init(stall), es).cards[i] != Run(Init(stall), es).cards[j]
        {
          OneCardPerConfirmation(stall, es, i, j);
        }
      }
    } else {
      CardsTwice(stall);
      var cards := Run(Init(stall), StalledCardRun()).cards;
      assert cards[0] == cards[1];
    }
  }
}
