/** What the clock and the intake guarantee, stated over the specification
    functions of `AuctionServer`. */
module ServerProperties {
  import opened Seqs
  import opened Domain
  import opened AuctionServer

  /** A finished auction is never reconsidered: ticking it changes nothing and emits nothing. */
  lemma FinishedIsInert(p: Product, now: int)
    requires p.status == Finished
    ensures TickProduct(p, now) == Step(p, [])
  {
  }

  /** An upcoming auction whose end has already passed starts and ends in
      the same tick, and says so in that order, because the second test of
      the tick body is not an `else` of the first. */
  lemma StartAndEndInOneTick(p: Product, now: int)
    requires p.status == Upcoming && now >= p.startTime && SecondsLeft(EndTime(p), now) == 0
    ensures TickProduct(p, now).product == p.(status := Finished)
    ensures TickProduct(p, now).events ==
      [AuctionStarted(p.id, StartedText(p.title)), AuctionEnded(p.id, p.currentBidder, p.currentBid, p.title)]
  {
  }

  /** `auction_started` is emitted exactly when an upcoming auction reaches its start time. */
  lemma StartedEventRule(p: Product, now: int)
    ensures AuctionStarted(p.id, StartedText(p.title)) in TickProduct(p, now).events <==>
      p.status == Upcoming && now >= p.startTime
    ensures forall e :: e in TickProduct(p, now).events && e.AuctionStarted? ==>
      e == AuctionStarted(p.id, StartedText(p.title))
  {
  }

  /** `auction_ended` is emitted exactly when the tick finishes the auction,
      and it reports the product's last bidder and bid. */
  lemma EndedEventRule(p: Product, now: int)
    ensures (exists e :: e in TickProduct(p, now).events && e.AuctionEnded?) <==>
      p.status != Finished && TickProduct(p, now).product.status == Finished
    ensures forall e :: e in TickProduct(p, now).events && e.AuctionEnded? ==>
      e == AuctionEnded(p.id, p.currentBidder, p.currentBid, p.title)
  {
    var s := TickProduct(p, now);
    if p.status != Finished && s.product.status == Finished {
      assert AuctionEnded(p.id, p.currentBidder, p.currentBid, p.title) in s.events;
    }
  }

  /** `timer_update` is emitted exactly when the auction is (still or newly)
      active after the tick and its remaining whole seconds are sampled. */
  lemma TimerEventRule(p: Product, now: int, t: int)
    ensures TimerUpdate(p.id, t) in TickProduct(p, now).events <==>
      TickProduct(p, now).product.status == Active && t == SecondsLeft(EndTime(p), now) && Sampled(t)
    ensures forall e :: e in TickProduct(p, now).events && e.TimerUpdate? ==>
      e.productId == p.id && e.timeLeft > 0
  {
  }

  /** A tick emits only clock events, and only about the product ticked. */
  lemma TickEventsAreAbout(p: Product, now: int)
    ensures forall e :: e in TickProduct(p, now).events ==>
      (e.AuctionStarted? || e.AuctionEnded? || e.TimerUpdate?) && e.productId == p.id
  {
  }

  /** The sampling rule for an auction of 30 seconds: every fifth second down
      to 15, then every second from 10 down to 1. */
  lemma ThirtySecondSchedule(t: int)
    requires 1 <= t <= 30
    ensures Sampled(t) <==> t == 30 || t == 25 || t == 20 || t == 15 || t <= 10
  {
  }

  /** The clock finishes an auction only in its last second, but may do so
      before the end instant: a remaining time under one second counts as none. */
  lemma ClockEndsInLastSecond(p: Product, now: int)
    ensures p.status != Finished && TickProduct(p, now).product.status == Finished ==> now > EndTime(p) - 1000
    ensures p.status == Active && EndTime(p) - 1000 < now ==> TickProduct(p, now).product.status == Finished
  {
  }

  /** An auction that started one second ago, with a ten-second duration, is
      active and reports 9 seconds; once the ten seconds are over it
      finishes with one `auction_ended`. */
  lemma TenSecondAuction(p: Product, now: int, later: int)
    requires p.status == Upcoming && p.startTime == now - 1000 && p.duration == 10
    requires later >= now + 9000
    ensures TickProduct(p, now).product.status == Active
    ensures TickProduct(p, now).events == [AuctionStarted(p.id, StartedText(p.title)), TimerUpdate(p.id, 9)]
    ensures TickProduct(TickProduct(p, now).product, later).events ==
      [AuctionEnded(p.id, p.currentBidder, p.currentBid, p.title)]
  {
  }

  // ---------------------------------------------------------------------
  // Many ticks

  /** The product and all events after ticking one product at each instant of `nows` in turn. */
  function Run(p: Product, nows: seq<int>): Step
    decreases |nows|
  {
    if nows == [] then Step(p, [])
    else
      var first := TickProduct(p, nows[0]);
      var rest := Run(first.product, nows[1..]);
      Step(rest.product, first.events + rest.events)
  }

  function EndedCount(es: seq<Event>): nat
  {
    |Filter(es, (e: Event) => e.AuctionEnded?)|
  }

  lemma EndedCountConcat(a: seq<Event>, b: seq<Event>)
    ensures EndedCount(a + b) == EndedCount(a) + EndedCount(b)
  {
    FilterConcat(a, b, (e: Event) => e.AuctionEnded?);
  }

  lemma EndedCountAtMostOne(es: seq<Event>)
    requires |es| <= 1
    ensures EndedCount(es) == if es != [] && es[0].AuctionEnded? then 1 else 0
  {
    if es != [] {
      assert es == [es[0]];
      FilterSingleton(es[0], (e: Event) => e.AuctionEnded?);
    }
  }

  /** One tick emits one `auction_ended` if it finishes the auction and none otherwise. */
  lemma TickEndedCount(p: Product, now: int)
    ensures EndedCount(TickProduct(p, now).events) ==
      if p.status != Finished && TickProduct(p, now).product.status == Finished then 1 else 0
  {
    var first := StartStep(p, now);
    var second := ActiveStep(first.product, now);
    EndedCountConcat(first.events, second.events);
    EndedCountAtMostOne(first.events);
    EndedCountAtMostOne(second.events);
  }

  /** Over any sequence of ticks whose writes all succeed, the status only
      moves forward, and `auction_ended` fires at most once, never for an
      auction that was already finished. A failed write breaks this
      (`EndedRepeatsAfterFailedWrite`). */
  lemma {:induction false} EndedAtMostOnce(p: Product, nows: seq<int>)
    ensures Rank(Run(p, nows).product.status) >= Rank(p.status)
    ensures EndedCount(Run(p, nows).events) <= if p.status == Finished then 0 else 1
    decreases |nows|
  {
    if nows != [] {
      var first := TickProduct(p, nows[0]);
      var rest := Run(first.product, nows[1..]);
      EndedAtMostOnce(first.product, nows[1..]);
      TickEndedCount(p, nows[0]);
      FilterConcat(first.events, rest.events, (e: Event) => e.AuctionEnded?);
    }
  }

  // ---------------------------------------------------------------------
  // Whole ticks

  /** When no status changes, the tick would write back the same products,
      so skipping the write loses nothing. */
  lemma SkippedWriteLosesNothing(ps: seq<Product>, now: int)
    requires !StatusChanged(ps, now)
    ensures TickProducts(ps, now) == ps
  {
    forall i | 0 <= i < |ps|
      ensures TickProducts(ps, now)[i] == ps[i]
    {
      assert !Changes(ps[i], now);
    }
  }

  /** Re-ticking a store in which every auction is finished emits nothing and writes nothing. */
  lemma FinishedStoreIsSilent(ps: seq<Product>, now: int)
    requires forall i :: 0 <= i < |ps| ==> ps[i].status == Finished
    ensures TickEvents(ps, now) == []
    ensures !StatusChanged(ps, now)
    ensures TickProducts(ps, now) == ps
  {
    var per := EventsPerProduct(ps, now);
    if TickEvents(ps, now) != [] {
      var e := TickEvents(ps, now)[0];
      FlattenMember(per, e);
      var i :| 0 <= i < |per| && e in per[i];
      FinishedIsInert(ps[i], now);
      assert false;
    }
    SkippedWriteLosesNothing(ps, now);
  }

  /** The events of one whole tick are those of its parts, concatenated. */
  lemma TickEventsConcat(a: seq<Product>, b: seq<Product>, now: int)
    ensures TickEvents(a + b, now) == TickEvents(a, now) + TickEvents(b, now)
  {
    assert EventsPerProduct(a + b, now) == EventsPerProduct(a, now) + EventsPerProduct(b, now);
    FlattenConcat(EventsPerProduct(a, now), EventsPerProduct(b, now));
  }

  /** A tick's events only ever concern products of the ticked list. */
  lemma TickEventsTargets(ps: seq<Product>, now: int, id: int)
    requires forall i :: 0 <= i < |ps| ==> ps[i].id != id
    ensures forall e :: e in TickEvents(ps, now) ==> Target(e) != Some(id)
    ensures forall e :: e in TickEvents(ps, now) && e.TimerUpdate? ==> e.productId != id
  {
    var per := EventsPerProduct(ps, now);
    forall e | e in TickEvents(ps, now)
      ensures Target(e) != Some(id) && (e.TimerUpdate? ==> e.productId != id)
    {
      FlattenMember(per, e);
      var i :| 0 <= i < |per| && e in per[i];
      TickEventsAreAbout(ps[i], now);
    }
  }

  lemma TickEventsOfOne(p: Product, now: int)
    ensures TickEvents([p], now) == TickProduct(p, now).events
  {
    var per := EventsPerProduct([p], now);
    assert per == [TickProduct(p, now).events];
    assert per[..0] == [];
    assert Flatten(per) == Flatten(per[..0]) + per[0];
  }

  /** The events of a tick, split around the product at index `i`. */
  lemma TickEventsAround(ps: seq<Product>, i: int, now: int)
    requires 0 <= i < |ps|
    ensures TickEvents(ps, now) ==
      TickEvents(ps[..i], now) + TickProduct(ps[i], now).events + TickEvents(ps[i + 1..], now)
  {
    assert ps == ps[..i] + [ps[i]] + ps[i + 1..];
    TickEventsConcat(ps[..i] + [ps[i]], ps[i + 1..], now);
    TickEventsConcat(ps[..i], [ps[i]], now);
    TickEventsOfOne(ps[i], now);
  }

  /** An active auction with no whole second left makes its tick emit `auction_ended`. */
  lemma EndedInTick(ps: seq<Product>, i: int, now: int)
    requires 0 <= i < |ps| && ps[i].status == Active && SecondsLeft(EndTime(ps[i]), now) == 0
    ensures EndedCount(TickEvents(ps, now)) >= 1
  {
    var p := ps[i];
    var own := TickProduct(p, now).events;
    assert own == [AuctionEnded(p.id, p.currentBidder, p.currentBid, p.title)];
    TickEventsAround(ps, i, now);
    EndedCountConcat(TickEvents(ps[..i], now) + own, TickEvents(ps[i + 1..], now));
    EndedCountConcat(TickEvents(ps[..i], now), own);
    EndedCountAtMostOne(own);
  }

  /** A failed write leaves the stored products as they were, so the next
      tick evaluates the same products again. An auction whose end the
      failed tick announced is still active there and is announced again:
      `auction_ended` goes out twice. */
  lemma EndedRepeatsAfterFailedWrite(ps: seq<Product>, i: int, now: int, later: int)
    requires 0 <= i < |ps| && ps[i].status == Active && SecondsLeft(EndTime(ps[i]), now) == 0
    requires now <= later
    ensures EndedCount(TickEvents(ps, now) + TickEvents(ps, later)) >= 2
  {
    EndedInTick(ps, i, now);
    EndedInTick(ps, i, later);
    EndedCountConcat(TickEvents(ps, now), TickEvents(ps, later));
  }

  /** A tick whose write fails, then a tick whose write succeeds, on the
      server itself: every channel reached by both receives the events of
      two evaluations of the same stored products. */
  method FailedWriteThenTick(s: Server, now: int, later: int, failing: set<Channel>)
    requires s.Valid()
    modifies s
    ensures s.Valid() && s.clients == old(s.clients)
    ensures s.delivered ==
      Deliver(old(s.delivered), Receivers(s.clients, failing),
              TickEvents(old(s.db).products, now) + TickEvents(old(s.db).products, later))
  {
    s.Tick(now, false, true, failing);
    s.Tick(later, false, false, failing);
    DeliverConcat(old(s.delivered), Receivers(s.clients, failing),
                  TickEvents(old(s.db).products, now), TickEvents(old(s.db).products, later));
  }

  // ---------------------------------------------------------------------
  // Intake

  /** With distinct ids, a bid for an existing product changes that product
      alone, and a bid for an unknown product changes no product. */
  lemma BidChangesOnlyItsProduct(db: Db, productId: int, username: string, amount: int, bidId: int, now: int)
    requires UniqueIds(db.products)
    ensures forall j :: 0 <= j < |db.products| ==>
      RecordBid(db, productId, username, amount, bidId, now).products[j] ==
        if db.products[j].id == productId
        then db.products[j].(currentBid := amount, currentBidder := Some(username))
        else db.products[j]
  {
  }

  /** A chat message for product 0 is stored under no product, though its event carries 0. */
  lemma GlobalMessageStoredWithoutProduct(messageId: int, username: string, message: string, now: int)
    ensures NewMessage(messageId, 0, username, message, now).productId == None
  {
  }
}
