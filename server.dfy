/** The push server: the auction clock that runs once a second over every
    product, the bid and chat intake endpoints, and the hub that fans each
    event out to every connected viewer channel.

    The record store is a whole snapshot (`Db`) that every operation reads,
    changes in memory and writes back; `writes` counts the successful
    write-backs so that "the store is written only if ..." can be stated.
    A viewer channel is an integer handle, and `delivered` is the log of what
    each channel has been sent. */
module AuctionServer {
  import opened Seqs
  import opened Domain

  type ClientId = int
  type Channel = nat

  datatype Db = Db(products: seq<Product>, bids: seq<Bid>, chat: Option<seq<ChatMessage>>)

  const ConnectedText: string := "Connected to auction server"

  function StartedText(title: string): string
  {
    "Auction for " + title + " has started!"
  }

  // ---------------------------------------------------------------------
  // The clock, as specification functions

  /** A product after one evaluation, and the events that evaluation emits, in order. */
  datatype Step = Step(product: Product, events: seq<Event>)

  /** The first `if` of the tick body: an upcoming auction whose start has come becomes active. */
  function StartStep(p: Product, now: int): Step
  {
    if p.status == Upcoming && now >= p.startTime then
      Step(p.(status := Active), [AuctionStarted(p.id, StartedText(p.title))])
    else
      Step(p, [])
  }

  /** The sampling rule for `timer_update`: every fifth second, and every second of the last ten. */
  predicate Sampled(timeLeft: int)
  {
    timeLeft % 5 == 0 || timeLeft <= 10
  }

  /** The second `if` of the tick body, applied to the result of the first
      (it is not an `else`): an active auction with no whole second left
      finishes, otherwise it may report its remaining seconds. */
  function ActiveStep(p: Product, now: int): Step
  {
    if p.status != Active then Step(p, [])
    else
      var timeLeft := SecondsLeft(EndTime(p), now);
      if timeLeft == 0 then
        Step(p.(status := Finished), [AuctionEnded(p.id, p.currentBidder, p.currentBid, p.title)])
      else if Sampled(timeLeft) then
        Step(p, [TimerUpdate(p.id, timeLeft)])
      else
        Step(p, [])
  }

  /** One evaluation of one product at instant `now`. Only the status can
      change, and only forward: an upcoming auction stays so until its start,
      a started one finishes once less than a whole second is left, and a
      finished one is never reconsidered. */
  function TickProduct(p: Product, now: int): (r: Step)
    ensures r.product == p.(status := r.product.status)
    ensures Rank(r.product.status) >= Rank(p.status)
    ensures r.product.status ==
      if p.status == Finished || (p.status == Upcoming && now < p.startTime) then p.status
      else if SecondsLeft(EndTime(p), now) == 0 then Finished
      else Active
    ensures |r.events| <= 2
  {
    var first := StartStep(p, now);
    var second := ActiveStep(first.product, now);
    Step(second.product, first.events + second.events)
  }

  /** The product list after a tick. */
  function TickProducts(ps: seq<Product>, now: int): (r: seq<Product>)
    ensures |r| == |ps|
  {
    seq(|ps|, i requires 0 <= i < |ps| => TickProduct(ps[i], now).product)
  }

  /** The events of each product's evaluation, in list order. */
  function EventsPerProduct(ps: seq<Product>, now: int): (r: seq<seq<Event>>)
    ensures |r| == |ps|
  {
    seq(|ps|, i requires 0 <= i < |ps| => TickProduct(ps[i], now).events)
  }

  /** All events of a tick, product by product in list order. */
  function TickEvents(ps: seq<Product>, now: int): seq<Event>
  {
    Flatten(EventsPerProduct(ps, now))
  }

  /** The tick at `now` changes this product's status. */
  predicate Changes(p: Product, now: int)
  {
    TickProduct(p, now).product.status != p.status
  }

  /** Some product changes status in the tick at `now` (the `dbChanged` flag). */
  ghost predicate StatusChanged(ps: seq<Product>, now: int)
  {
    exists i :: 0 <= i < |ps| && Changes(ps[i], now)
  }

  // ---------------------------------------------------------------------
  // The hub, as specification functions

  /** The channels of the given registered clients whose write does not fail. */
  function ReceiversAmong(clients: map<ClientId, Channel>, keys: set<ClientId>, failing: set<Channel>): set<Channel>
  {
    set k | k in keys && k in clients && clients[k] !in failing :: clients[k]
  }

  /** The channels a broadcast reaches: every registered one whose write does not fail. */
  function Receivers(clients: map<ClientId, Channel>, failing: set<Channel>): set<Channel>
  {
    ReceiversAmong(clients, clients.Keys, failing)
  }

  /** Channel logs after the events `es` are written to every channel in `to`. */
  function Deliver(log: map<Channel, seq<Event>>, to: set<Channel>, es: seq<Event>): map<Channel, seq<Event>>
  {
    map c | c in log :: if c in to then log[c] + es else log[c]
  }

  // ---------------------------------------------------------------------
  // The intake, as specification functions

  function ChatOf(db: Db): seq<ChatMessage>
  {
    match db.chat
    case None => []
    case Some(c) => c
  }

  /** The snapshot after `/update-bid`: the first product with the given id
      takes the bid (there is no check against its current bid), and the bid
      joins the history whether or not a product matched. */
  function RecordBid(db: Db, productId: int, username: string, amount: int, bidId: int, now: int): (r: Db)
    ensures r.bids == db.bids + [Bid(bidId, productId, username, amount, now)] && r.chat == db.chat
    ensures |r.products| == |db.products|
    ensures forall j :: 0 <= j < |db.products| ==>
      r.products[j] ==
        if db.products[j].id == productId && forall k :: 0 <= k < j ==> db.products[k].id != productId
        then db.products[j].(currentBid := amount, currentBidder := Some(username))
        else db.products[j]
  {
    var bid := Bid(bidId, productId, username, amount, now);
    match FindIndex(db.products, (q: Product) => q.id == productId)
    case None => db.(bids := db.bids + [bid])
    case Some(i) =>
      db.(products := db.products[i := db.products[i].(currentBid := amount, currentBidder := Some(username))],
          bids := db.bids + [bid])
  }

  /** The record `/add-message` stores: product 0 is stored as no product (global chat). */
  function NewMessage(messageId: int, productId: int, username: string, message: string, now: int): ChatMessage
  {
    ChatMessage(messageId, if productId == 0 then None else Some(productId), username, message, now)
  }

  // ---------------------------------------------------------------------
  // The server state

  class Server {
    var db: Db
    var writes: nat
    var clients: map<ClientId, Channel>
    var delivered: map<Channel, seq<Event>>

    /** Every registered channel has a log, and no channel is registered twice. */
    ghost predicate Valid()
      reads this
    {
      && (forall k :: k in clients ==> clients[k] in delivered)
      && (forall k1, k2 :: k1 in clients && k2 in clients && k1 != k2 ==> clients[k1] != clients[k2])
    }

    constructor (initial: Db)
      ensures Valid()
      ensures db == initial && writes == 0 && clients == map[] && delivered == map[]
    {
      db := initial;
      writes := 0;
      clients := map[];
      delivered := map[];
    }

    /** `GET /events`: the new channel is stored under `clientId` (replacing a
        channel registered under the same id) and sent the connection
        acknowledgement. */
    method Connect(clientId: ClientId, channel: Channel)
      requires Valid()
      requires channel !in delivered  // every request brings a new response object
      modifies this
      ensures Valid()
      ensures clients == old(clients)[clientId := channel]
      ensures delivered == old(delivered)[channel := [Connection(ConnectedText)]]
      ensures db == old(db) && writes == old(writes)
      ensures clientId in old(clients) ==> old(clients)[clientId] !in Receivers(clients, {})
    {
      clients := clients[clientId := channel];
      delivered := delivered[channel := [Connection(ConnectedText)]];
    }

    /** The `close` handler: forget whatever channel is stored under `clientId`. */
    method Disconnect(clientId: ClientId)
      requires Valid()
      modifies this
      ensures Valid()
      ensures clients == old(clients) - {clientId}
      ensures delivered == old(delivered) && db == old(db) && writes == old(writes)
    {
      clients := clients - {clientId};
    }

    /** `broadcast`: write `e` to every registered channel; a channel whose
        write fails is skipped and the loop carries on. */
    method Broadcast(e: Event, failing: set<Channel>)
      requires Valid()
      modifies this
      ensures Valid()
      ensures clients == old(clients) && db == old(db) && writes == old(writes)
      ensures delivered == Deliver(old(delivered), Receivers(clients, failing), [e])
    {
      var pending := clients.Keys;
      while pending != {}
        invariant pending <= clients.Keys
        invariant Valid() && clients == old(clients) && db == old(db) && writes == old(writes)
        invariant delivered == Deliver(old(delivered), ReceiversAmong(clients, clients.Keys - pending, failing), [e])
        decreases pending
      {
        PickClient(pending);
        var k :| k in pending;
        var ch := clients[k];
        ghost var done := clients.Keys - pending;
        DeliverOneMore(old(delivered), clients, done, k, failing, e);
        if ch !in failing {
          delivered := delivered[ch := delivered[ch] + [e]];
        }
        pending := pending - {k};
        assert clients.Keys - pending == done + {k};
      }
      assert clients.Keys - pending == clients.Keys;
    }

    /** The `forEach` callback of the tick: evaluate one product, broadcasting
        as it goes, and report whether its status changed. */
    method EvaluateProduct(product: Product, now: int, failing: set<Channel>) returns (p: Product, changed: bool)
      requires Valid()
      modifies this
      ensures Valid()
      ensures clients == old(clients) && db == old(db) && writes == old(writes)
      ensures p == TickProduct(product, now).product
      ensures changed <==> p.status != product.status
      ensures delivered == Deliver(old(delivered), Receivers(clients, failing), TickProduct(product, now).events)
    {
      p, changed := product, false;
      var endTime := EndTime(p);
      ghost var emitted: seq<Event> := [];
      if p.status == Upcoming && now >= p.startTime {
        p := p.(status := Active);
        changed := true;
        Broadcast(AuctionStarted(p.id, StartedText(p.title)), failing);
        emitted := emitted + [AuctionStarted(p.id, StartedText(p.title))];
      }
      ghost var afterStart := delivered;
      if p.status == Active {
        var timeLeft := SecondsLeft(endTime, now);
        if timeLeft == 0 {
          p := p.(status := Finished);
          changed := true;
          Broadcast(AuctionEnded(p.id, p.currentBidder, p.currentBid, p.title), failing);
          emitted := emitted + [AuctionEnded(p.id, p.currentBidder, p.currentBid, p.title)];
        } else if Sampled(timeLeft) {
          Broadcast(TimerUpdate(p.id, timeLeft), failing);
          emitted := emitted + [TimerUpdate(p.id, timeLeft)];
        }
      }
      assert emitted == TickProduct(product, now).events;
      DeliverConcatAll(old(delivered), Receivers(clients, failing), emitted);
    }

    /** The `forEach` over the products of the snapshot: evaluate each in
        turn, keeping the `dbChanged` flag. */
    method EvaluateAll(ps: seq<Product>, now: int, failing: set<Channel>) returns (products: seq<Product>, dbChanged: bool)
      requires Valid()
      modifies this
      ensures Valid()
      ensures clients == old(clients) && db == old(db) && writes == old(writes)
      ensures products == TickProducts(ps, now)
      ensures dbChanged == StatusChanged(ps, now)
      ensures delivered == Deliver(old(delivered), Receivers(clients, failing), TickEvents(ps, now))
    {
      products := ps;
      dbChanged := false;
      ghost var log0, receivers := delivered, Receivers(clients, failing);
      var i := 0;
      assert ps[..0] == [];
      assert EventsPerProduct(ps[..0], now) == [];
      assert !StatusChanged(ps[..0], now);
      DeliverNothing(log0, receivers, []);
      while i < |products|
        invariant 0 <= i <= |products| == |ps|
        invariant forall j :: 0 <= j < i ==> products[j] == TickProduct(ps[j], now).product
        invariant forall j :: i <= j < |ps| ==> products[j] == ps[j]
        invariant dbChanged == StatusChanged(ps[..i], now)
        invariant Valid() && clients == old(clients) && db == old(db) && writes == old(writes)
        invariant delivered == Deliver(log0, receivers, TickEvents(ps[..i], now))
      {
        var p, changedHere := EvaluateProduct(products[i], now, failing);
        TickEventsSnoc(ps, i, now);
        StatusChangedSnoc(ps, i, now);
        DeliverConcat(log0, receivers, TickEvents(ps[..i], now), TickProduct(ps[i], now).events);
        products := products[i := p];
        dbChanged := dbChanged || changedHere;
        i := i + 1;
      }
      assert ps[..i] == ps;
    }

    /** One run of the `setInterval` callback. A read failure abandons the tick
        before anything happens; a write failure comes after the broadcasts,
        so the viewers have been told of transitions the store does not keep. */
    method Tick(now: int, readFails: bool, writeFails: bool, failing: set<Channel>)
      requires Valid()
      modifies this
      ensures Valid() && clients == old(clients)
      ensures readFails ==> db == old(db) && writes == old(writes) && delivered == old(delivered)
      ensures !readFails ==>
        delivered == Deliver(old(delivered), Receivers(clients, failing), TickEvents(old(db).products, now))
      ensures !readFails && !writeFails && StatusChanged(old(db).products, now) ==>
        db == old(db).(products := TickProducts(old(db).products, now)) && writes == old(writes) + 1
      ensures readFails || writeFails || !StatusChanged(old(db).products, now) ==>
        db == old(db) && writes == old(writes)
    {
      if readFails {
        return;
      }
      var snapshot := db;
      var products, dbChanged := EvaluateAll(snapshot.products, now, failing);
      if dbChanged && !writeFails {
        db := snapshot.(products := products);
        writes := writes + 1;
      }
    }

    /** `POST /update-bid`. */
    method UpdateBid(productId: int, username: string, amount: int, bidId: int, now: int, ioFails: bool, failing: set<Channel>)
      returns (ok: bool)
      requires Valid()
      modifies this
      ensures Valid() && clients == old(clients)
      ensures ok == !ioFails
      ensures ok ==> db == RecordBid(old(db), productId, username, amount, bidId, now) && writes == old(writes) + 1
      ensures ok ==> delivered == Deliver(old(delivered), Receivers(clients, failing), [BidUpdate(productId, amount, username, now)])
      ensures !ok ==> db == old(db) && writes == old(writes) && delivered == old(delivered)
    {
      if ioFails {
        return false;
      }
      var snapshot := db;
      var index := FindIndex(snapshot.products, (q: Product) => q.id == productId);
      if index.Some? {
        var i := index.value;
        var updated := snapshot.products[i].(currentBid := amount, currentBidder := Some(username));
        snapshot := snapshot.(products := snapshot.products[i := updated]);
      }
      snapshot := snapshot.(bids := snapshot.bids + [Bid(bidId, productId, username, amount, now)]);
      db := snapshot;
      writes := writes + 1;
      Broadcast(BidUpdate(productId, amount, username, now), failing);
      ok := true;
    }

    /** `POST /add-message`: the reply carries the stored record. */
    method AddMessage(productId: int, username: string, message: string, messageId: int, now: int, ioFails: bool, failing: set<Channel>)
      returns (reply: Option<ChatMessage>)
      requires Valid()
      modifies this
      ensures Valid() && clients == old(clients)
      ensures ioFails ==> reply == None && db == old(db) && writes == old(writes) && delivered == old(delivered)
      ensures !ioFails ==> reply == Some(NewMessage(messageId, productId, username, message, now))
      ensures !ioFails ==> db == old(db).(chat := Some(ChatOf(old(db)) + [reply.value])) && writes == old(writes) + 1
      ensures !ioFails ==>
        delivered == Deliver(old(delivered), Receivers(clients, failing), [ChatPosted(productId, username, message, now, messageId)])
    {
      if ioFails {
        return None;
      }
      var snapshot := db;
      var newMessage := ChatMessage(messageId, if productId == 0 then None else Some(productId), username, message, now);
      if snapshot.chat.None? {
        snapshot := snapshot.(chat := Some([]));
      }
      snapshot := snapshot.(chat := Some(snapshot.chat.value + [newMessage]));
      db := snapshot;
      writes := writes + 1;
      Broadcast(ChatPosted(productId, username, message, now, messageId), failing);
      reply := Some(newMessage);
    }
  }

  // ---------------------------------------------------------------------
  // Facts about delivery

  /** Reaching one more client `k` appends `e` to its channel's log alone. */
  lemma DeliverOneMore(log: map<Channel, seq<Event>>, clients: map<ClientId, Channel>, done: set<ClientId>,
                       k: ClientId, failing: set<Channel>, e: Event)
    requires k in clients && k !in done && clients[k] in log
    requires forall k1, k2 :: k1 in clients && k2 in clients && k1 != k2 ==> clients[k1] != clients[k2]
    ensures var before := Deliver(log, ReceiversAmong(clients, done, failing), [e]);
      Deliver(log, ReceiversAmong(clients, done + {k}, failing), [e]) ==
        if clients[k] in failing then before else before[clients[k] := before[clients[k]] + [e]]
  {
    var ch := clients[k];
    var r0, r1 := ReceiversAmong(clients, done, failing), ReceiversAmong(clients, done + {k}, failing);
    assert ch !in r0;
    assert r1 == if ch in failing then r0 else r0 + {ch};
  }

  lemma TickEventsSnoc(ps: seq<Product>, i: nat, now: int)
    requires i < |ps|
    ensures TickEvents(ps[..i + 1], now) == TickEvents(ps[..i], now) + TickProduct(ps[i], now).events
  {
    var whole := EventsPerProduct(ps[..i + 1], now);
    assert whole[..i] == EventsPerProduct(ps[..i], now);
  }

  lemma StatusChangedSnoc(ps: seq<Product>, i: nat, now: int)
    requires i < |ps|
    ensures StatusChanged(ps[..i + 1], now) <==> StatusChanged(ps[..i], now) || Changes(ps[i], now)
  {
    var a, b := ps[..i], ps[..i + 1];
    assert forall j :: 0 <= j < i ==> a[j] == ps[j] && b[j] == ps[j];
    assert b[i] == ps[i];
    if StatusChanged(b, now) {
      var j :| 0 <= j < |b| && Changes(b[j], now);
      if j < i {
        assert Changes(a[j], now);
      }
    }
  }

  lemma PickClient(pending: set<ClientId>)
    requires pending != {}
    ensures exists k :: k in pending
  {
    if forall k :: k !in pending {
      assert false;
    }
  }

  /** Two deliveries to the same channels are one delivery of both event lists. */
  lemma DeliverConcat(log: map<Channel, seq<Event>>, to: set<Channel>, a: seq<Event>, b: seq<Event>)
    ensures Deliver(Deliver(log, to, a), to, b) == Deliver(log, to, a + b)
  {
    var l1 := Deliver(Deliver(log, to, a), to, b);
    var l2 := Deliver(log, to, a + b);
    assert l1.Keys == l2.Keys;
    forall c | c in l1
      ensures l1[c] == l2[c]
    {
      if c in to {
        assert l1[c] == log[c] + a + b;
      }
    }
  }

  /** Delivering nothing changes nothing. */
  lemma DeliverNothing(log: map<Channel, seq<Event>>, to: set<Channel>, es: seq<Event>)
    requires es == [] || to == {}
    ensures Deliver(log, to, es) == log
  {
    var l := Deliver(log, to, es);
    assert l.Keys == log.Keys;
    forall c | c in l ensures l[c] == log[c] {
      if c in to { assert log[c] + es == log[c]; }
    }
  }

  /** Delivering a list one event at a time is delivering it at once (the
      broadcasts inside one product's evaluation). */
  lemma {:induction false} DeliverConcatAll(log: map<Channel, seq<Event>>, to: set<Channel>, es: seq<Event>)
    requires |es| <= 2
    ensures Deliver(log, to, es) == if es == [] then log
      else if |es| == 1 then Deliver(log, to, [es[0]])
      else Deliver(Deliver(log, to, [es[0]]), to, [es[1]])
  {
    if es == [] {
      DeliverNothing(log, to, es);
    } else if |es| == 2 {
      DeliverConcat(log, to, [es[0]], [es[1]]);
      assert [es[0]] + [es[1]] == es;
    } else {
      assert [es[0]] == es;
    }
  }
}
