/** How the viewers' copies follow the server. A viewer that holds the
    server's products and applies, in order, the events one tick broadcasts
    ends up with the server's products after that tick; the same holds for a
    bid, and a chat message arrives as the record the server stored. The
    viewer's countdown agrees with the server's `timer_update`, and the
    admin form's status derivation agrees with the clock up to the clock's
    last-second rounding. */
module ClientServerAgreement {
  import opened Seqs
  import opened Domain
  import opened AuctionServer
  import opened ServerProperties
  import opened ClientStore
  import opened UseAuction
  import opened ProductAdmin

  /** The product list after the event handler has run on each event of `es` in turn. */
  function ApplyEvents(ps: seq<Product>, es: seq<Event>): seq<Product>
    decreases |es|
  {
    if es == [] then ps else ApplyEvents(ApplyEvent(ps, es[0]), es[1..])
  }

  /** One product after each event of `es` in turn. */
  function ProductAfterAll(p: Product, es: seq<Event>): Product
    decreases |es|
  {
    if es == [] then p else ProductAfterAll(ProductAfter(p, es[0]), es[1..])
  }

  /** The handler rewrites each product on its own. */
  lemma {:induction false} ApplyEventsPointwise(ps: seq<Product>, es: seq<Event>)
    ensures |ApplyEvents(ps, es)| == |ps|
    ensures forall i :: 0 <= i < |ps| ==> ApplyEvents(ps, es)[i] == ProductAfterAll(ps[i], es)
    decreases |es|
  {
    if es != [] {
      ApplyEventsPointwise(ApplyEvent(ps, es[0]), es[1..]);
    }
  }

  lemma {:induction false} ProductAfterAllConcat(p: Product, a: seq<Event>, b: seq<Event>)
    ensures ProductAfterAll(p, a + b) == ProductAfterAll(ProductAfterAll(p, a), b)
    decreases |a|
  {
    if a == [] {
      assert a + b == b;
    } else {
      assert (a + b)[1..] == a[1..] + b;
      ProductAfterAllConcat(ProductAfter(p, a[0]), a[1..], b);
    }
  }

  /** Events that name other products leave a product alone. */
  lemma {:induction false} ProductAfterAllUntouched(p: Product, es: seq<Event>)
    requires forall e :: e in es ==> Target(e) != Some(p.id)
    ensures ProductAfterAll(p, es) == p
    decreases |es|
  {
    if es != [] {
      assert es[0] in es;
      assert forall e :: e in es[1..] ==> e in es;
      ProductAfterAllUntouched(p, es[1..]);
    }
  }

  /** A product's own tick events, applied by a viewer, give the server's new product. */
  lemma OwnTickEvents(p: Product, now: int)
    ensures ProductAfterAll(p, TickProduct(p, now).events) == TickProduct(p, now).product
  {
    var first := StartStep(p, now);
    var second := ActiveStep(first.product, now);
    ProductAfterAllConcat(p, first.events, second.events);
    OneEvent(p, first.events);
    OneEvent(first.product, second.events);
  }

  lemma OneEvent(p: Product, es: seq<Event>)
    requires |es| <= 1
    ensures ProductAfterAll(p, es) == if es == [] then p else ProductAfter(p, es[0])
  {
    if es != [] {
      assert es[1..] == [];
    }
  }

  /** With distinct ids, a viewer that holds the server's products and handles
      the events of one tick in order holds the server's products after the tick. */
  lemma ClientFollowsTick(ps: seq<Product>, now: int)
    requires UniqueIds(ps)
    ensures ApplyEvents(ps, TickEvents(ps, now)) == TickProducts(ps, now)
  {
    var es := TickEvents(ps, now);
    ApplyEventsPointwise(ps, es);
    forall i | 0 <= i < |ps|
      ensures ApplyEvents(ps, es)[i] == TickProducts(ps, now)[i]
    {
      var before, after := ps[..i], ps[i + 1..];
      var own := TickProduct(ps[i], now);
      TickEventsAround(ps, i, now);
      TickEventsTargets(before, now, ps[i].id);
      TickEventsTargets(after, now, ps[i].id);
      ProductAfterAllConcat(ps[i], TickEvents(before, now) + own.events, TickEvents(after, now));
      ProductAfterAllConcat(ps[i], TickEvents(before, now), own.events);
      ProductAfterAllUntouched(ps[i], TickEvents(before, now));
      OwnTickEvents(ps[i], now);
      ProductAfterAllUntouched(own.product, TickEvents(after, now));
    }
  }

  /** With distinct ids, the `bid_update` that follows a bid rewrites a viewer's
      copy of the server's products exactly as the server rewrote them, and the
      viewer records the bid the server recorded (under the viewer's own id). */
  lemma ClientFollowsBid(db: Db, productId: int, username: string, amount: int, bidId: int, now: int)
    requires UniqueIds(db.products)
    ensures ApplyEvent(db.products, BidUpdate(productId, amount, username, now)) ==
      RecordBid(db, productId, username, amount, bidId, now).products
    ensures var recorded := RecordBid(db, productId, username, amount, bidId, now).bids;
      ReceivedBid(BidUpdate(productId, amount, username, now), bidId) == recorded[|recorded| - 1]
  {
    BidChangesOnlyItsProduct(db, productId, username, amount, bidId, now);
  }

  /** The message a viewer stores from a `chat_message` event is the record the
      server stored, including the global chat's missing product. */
  lemma ChatRoundTrip(messageId: int, productId: int, username: string, message: string, now: int, freshId: int)
    requires messageId != 0
    ensures ReceivedMessage(ChatPosted(productId, username, message, now, messageId), freshId) ==
      NewMessage(messageId, productId, username, message, now)
  {
  }

  /** The bidder's own optimistic update already matches the echoed
      `bid_update`: handling the echo changes no product further. */
  lemma EchoedBidChangesNothing(ps: seq<Product>, p: Product, amount: int, username: string, now: int)
    ensures var local := ReplaceById(ps, p.(currentBid := amount, currentBidder := Some(username)));
      ApplyEvent(local, BidUpdate(p.id, amount, username, now)) == local
  {
  }

  /** The countdown a viewer computes at the same instant agrees with the
      server's `timer_update`, and reaches 0 exactly when the server ends the auction. */
  lemma CountdownAgreesWithServer(p: Product, now: int, t: int)
    ensures TimerUpdate(p.id, t) in TickProduct(p, now).events ==>
      RemainingSeconds(Some(TickProduct(p, now).product), now) == t
    ensures p.status == Active ==>
      (RemainingSeconds(Some(p), now) == 0 <==> TickProduct(p, now).product.status == Finished)
  {
    TimerEventRule(p, now, t);
  }

  /** A product saved by the admin form keeps its status on the clock's next
      evaluation at the same instant, except in the last second of the
      auction, where the form says active and the clock already finishes it. */
  lemma FormStatusAgreesWithClock(p: Product, now: int)
    requires p.status == DeriveStatus(p.startTime, p.duration, now)
    ensures TickProduct(p, now).product.status ==
      if p.status == Active && EndTime(p) - now < 1000 then Finished else p.status
  {
  }
}
