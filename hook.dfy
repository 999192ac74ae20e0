/** The auction hook a viewer page runs: it guards and sends bids and chat
    messages, rewrites the local store when the server pushes an event, and
    keeps the countdown of the product it watches. Calls to the server API
    are reduced to one outcome flag per call; instants and fresh ids are
    parameters. */
module UseAuction {
  import opened Seqs
  import opened Domain
  import opened ClientStore
  import opened Countdown

  datatype Role = UserRole | AdminRole

  datatype User = User(id: int, username: string, role: Role)

  /** The request `sseApi.updateBid` sends. */
  datatype BidRequest = BidRequest(productId: int, username: string, amount: int)

  /** The request `sseApi.addMessage` sends (product 0 for the global chat). */
  datatype ChatRequest = ChatRequest(productId: int, username: string, message: string)

  /** What one successful `loadData` fetch returns. */
  datatype Snapshot = Snapshot(products: seq<Product>, bids: seq<Bid>, chat: seq<ChatMessage>)

  const MissingUserOrProduct: string := "User or product not found"
  const BidTooLow: string := "Bid must be higher than current bid"
  const BidFailed: string := "Failed to place bid"
  const LoadFailed: string := "Failed to load data"
  const InvalidMessage: string := "Invalid message or user not logged in"
  const ProductRequired: string := "Product ID required for product-specific chat"
  const SendFailed: string := "Failed to send message"

  // ---------------------------------------------------------------------
  // Pure parts

  /** The characters `String.prototype.trim` removes: white space and line terminators. */
  predicate IsSpace(c: char)
  {
    || c == ' ' || ('\t' <= c <= '\r') || c == '\U{00A0}' || c == '\U{1680}'
    || ('\U{2000}' <= c <= '\U{200A}') || c == '\U{2028}' || c == '\U{2029}' || c == '\U{202F}'
    || c == '\U{205F}' || c == '\U{3000}' || c == '\U{FEFF}'
  }

  function TrimStart(s: string): (r: string)
    ensures |r| <= |s| && r == s[|s| - |r|..]
    ensures forall i :: 0 <= i < |s| - |r| ==> IsSpace(s[i])
    ensures r == [] || !IsSpace(r[0])
    ensures (forall i :: 0 <= i < |s| ==> IsSpace(s[i])) ==> r == []
  {
    if s != [] && IsSpace(s[0]) then TrimStart(s[1..]) else s
  }

  function TrimEnd(s: string): (r: string)
    ensures |r| <= |s| && r == s[..|r|]
    ensures forall i :: |r| <= i < |s| ==> IsSpace(s[i])
    ensures r == [] || !IsSpace(r[|r| - 1])
  {
    if s != [] && IsSpace(s[|s| - 1]) then TrimEnd(s[..|s| - 1]) else s
  }

  /** `s.trim()`: nothing is left exactly when every character is white space. */
  function Trim(s: string): (r: string)
    ensures r == [] <==> forall i :: 0 <= i < |s| ==> IsSpace(s[i])
    ensures r != [] ==> !IsSpace(r[0]) && !IsSpace(r[|r| - 1])
  {
    BlankTrimsToNothing(s);
    TrimEnd(TrimStart(s))
  }

  lemma BlankTrimsToNothing(s: string)
    ensures TrimEnd(TrimStart(s)) == [] <==> forall i :: 0 <= i < |s| ==> IsSpace(s[i])
    ensures TrimEnd(TrimStart(s)) != [] ==> !IsSpace(TrimEnd(TrimStart(s))[0])
  {
    var front := TrimStart(s);
    var r := TrimEnd(front);
    if r != [] {
      assert r[0] == front[0];
    }
  }

  /** How one pushed event rewrites one local product. */
  function ProductAfter(p: Product, e: Event): Product
  {
    match e
    case BidUpdate(pid, amount, bidder, _) =>
      if p.id == pid then p.(currentBid := amount, currentBidder := Some(bidder)) else p
    case AuctionEnded(pid, _, _, _) => if p.id == pid then p.(status := Finished) else p
    case AuctionStarted(pid, _) => if p.id == pid then p.(status := Active) else p
    case _ => p
  }

  /** The `products.map(...)` of the event switch: every product whose id the
      event names is rewritten, all others are kept, and ids stay put. */
  function ApplyEvent(ps: seq<Product>, e: Event): (r: seq<Product>)
    ensures |r| == |ps|
    ensures forall i :: 0 <= i < |ps| ==> r[i].id == ps[i].id
    ensures forall i :: 0 <= i < |ps| && Target(e) != Some(ps[i].id) ==> r[i] == ps[i]
    ensures Target(e).None? ==> r == ps
  {
    seq(|ps|, i requires 0 <= i < |ps| => ProductAfter(ps[i], e))
  }

  /** The bid a `bid_update` event adds to the local history. */
  function ReceivedBid(e: Event, freshId: int): (b: Bid)
    requires e.BidUpdate?
    ensures b.productId == e.productId && b.amount == e.currentBid && b.username == e.currentBidder
  {
    Bid(freshId, e.productId, e.currentBidder, e.currentBid, e.timestamp)
  }

  /** The message a `chat_message` event adds: a missing (0) id is replaced by
      a fresh one, and product 0 becomes no product. */
  function ReceivedMessage(e: Event, freshId: int): (m: ChatMessage)
    requires e.ChatPosted?
    ensures IsGlobal(m) <==> e.productId == 0
    ensures m.productId.Some? ==> m.productId.value == e.productId
    ensures e.id != 0 ==> m.id == e.id
  {
    ChatMessage(if e.id != 0 then e.id else freshId, if e.productId == 0 then None else Some(e.productId),
                e.username, e.message, e.timestamp)
  }

  /** `calculateTimeLeft`: whole seconds before the end of an active product, 0 otherwise. */
  function RemainingSeconds(product: Option<Product>, now: int): (r: nat)
    ensures r == 0 <==> product.None? || product.value.status != Active || EndTime(product.value) - now < 1000
    ensures r > 0 ==> r * 1000 <= EndTime(product.value) - now < r * 1000 + 1000
  {
    match product
    case None => 0
    case Some(p) => if p.status != Active then 0 else SecondsLeft(EndTime(p), now)
  }

  // ---------------------------------------------------------------------
  // Facts about the event reducer

  /** What each event does to the product it names. */
  lemma EventRewritesItsProduct(ps: seq<Product>, e: Event, i: int)
    requires 0 <= i < |ps| && Target(e) == Some(ps[i].id)
    ensures e.BidUpdate? ==>
      ApplyEvent(ps, e)[i] == ps[i].(currentBid := e.currentBid, currentBidder := Some(e.currentBidder))
    ensures e.AuctionEnded? ==> ApplyEvent(ps, e)[i] == ps[i].(status := Finished)
    ensures e.AuctionStarted? ==> ApplyEvent(ps, e)[i] == ps[i].(status := Active)
  {
  }

  /** Receiving the same event twice is receiving it once. */
  lemma ApplyEventIdempotent(ps: seq<Product>, e: Event)
    ensures ApplyEvent(ApplyEvent(ps, e), e) == ApplyEvent(ps, e)
  {
    var once := ApplyEvent(ps, e);
    forall i | 0 <= i < |ps|
      ensures ApplyEvent(once, e)[i] == once[i]
    {
      assert ProductAfter(ProductAfter(ps[i], e), e) == ProductAfter(ps[i], e);
    }
  }

  // ---------------------------------------------------------------------
  // The hook

  class AuctionHook {
    const store: AuctionStore
    const productId: Option<int>
    const user: Option<User>
    var loading: bool
    var error: Option<string>
    var timeLeft: int

    constructor (store: AuctionStore, productId: Option<int>, user: Option<User>)
      ensures this.store == store && this.productId == productId && this.user == user
      ensures !loading && error == None && timeLeft == 0
    {
      this.store := store;
      this.productId := productId;
      this.user := user;
      loading, error, timeLeft := false, None, 0;
    }

    /** The watched product id; 0, like no id, watches nothing. */
    function Watched(): Option<int>
    {
      if productId.Some? && productId.value != 0 then productId else None
    }

    /** The watched product as the store currently has it. */
    function CurrentProduct(): (r: Option<Product>)
      reads store
      ensures r.Some? ==> Watched().Some? && r.value in store.products && r.value.id == Watched().value
      ensures r.None? <==> Watched().None? || forall p :: p in store.products ==> p.id != Watched().value
    {
      if Watched().Some? then ProductById(store.products, Watched().value) else None
    }

    /** `formatTimeLeft(timeLeft)`. */
    function FormattedTimeLeft(): (r: string)
      reads this
      ensures timeLeft <= 0 ==> r == "00:00:00"
      ensures 0 < timeLeft < 360000 ==> ParseClock(r) == Some(timeLeft)
    {
      ClockRoundTrip(if timeLeft < 360000 then timeLeft else 0);
      FormatClock(timeLeft)
    }

    /** `loadData`, given the outcome of the three fetches. */
    method LoadData(fetched: Option<Snapshot>)
      modifies this, store
      ensures !loading && timeLeft == old(timeLeft)
      ensures store.lastReadGlobalChat == old(store.lastReadGlobalChat)
      ensures fetched.Some? ==>
                error == None && store.products == fetched.value.products &&
                store.bids == fetched.value.bids && store.chatMessages == fetched.value.chat
      ensures fetched.None? ==>
                error == Some(LoadFailed) && store.products == old(store.products) &&
                store.bids == old(store.bids) && store.chatMessages == old(store.chatMessages)
    {
      loading := true;
      error := None;
      if fetched.Some? {
        store.SetProducts(fetched.value.products);
        store.SetBids(fetched.value.bids);
        store.SetChatMessages(fetched.value.chat);
      } else {
        error := Some(LoadFailed);
      }
      loading := false;
    }

    /** `placeBid(amount)`. The bid is refused without a user or product, or
        unless it beats the current bid; an accepted bid is applied locally
        before it is sent. If sending fails the data is reloaded, and the
        reload decides the final error: none after a good reload,
        `LoadFailed` otherwise. */
    method PlaceBid(amount: int, bidId: int, now: int, sendFails: bool, reload: Option<Snapshot>)
      returns (ok: bool, request: Option<BidRequest>)
      modifies this, store
      ensures timeLeft == old(timeLeft) && store.lastReadGlobalChat == old(store.lastReadGlobalChat)
      ensures user.None? || old(CurrentProduct()).None? ==>
        !ok && request == None && error == Some(MissingUserOrProduct) && loading == old(loading) &&
        store.products == old(store.products) && store.bids == old(store.bids) &&
        store.chatMessages == old(store.chatMessages)
      ensures user.Some? && old(CurrentProduct()).Some? && amount <= old(CurrentProduct()).value.currentBid ==>
        !ok && request == None && error == Some(BidTooLow) && loading == old(loading) &&
        store.products == old(store.products) && store.bids == old(store.bids) &&
        store.chatMessages == old(store.chatMessages)
      ensures user.Some? && old(CurrentProduct()).Some? && amount > old(CurrentProduct()).value.currentBid ==>
        var p := old(CurrentProduct()).value;
        var applied := p.(currentBid := amount, currentBidder := Some(user.value.username));
        && request == Some(BidRequest(p.id, user.value.username, amount))
        && ok == !sendFails
        && !loading
        && (!sendFails || reload.None? ==>
              && store.products == ReplaceById(old(store.products), applied)
              && store.GetProductById(p.id) == Some(applied)
              && store.bids == old(store.bids) + [Bid(bidId, p.id, user.value.username, amount, now)]
              && store.chatMessages == old(store.chatMessages))
        && (!sendFails ==> error == None)
        && (sendFails && reload.None? ==> error == Some(LoadFailed))
        && (sendFails && reload.Some? ==>
              && error == None
              && store.products == reload.value.products && store.bids == reload.value.bids
              && store.chatMessages == reload.value.chat)
    {
      var found := CurrentProduct();
      if user.None? || found.None? {
        error := Some(MissingUserOrProduct);
        return false, None;
      }
      var product, username := found.value, user.value.username;
      if amount <= product.currentBid {
        error := Some(BidTooLow);
        return false, None;
      }
      assert Watched() == Some(product.id);
      loading := true;
      error := None;
      ApplyBidLocally(product, username, amount, bidId, now);
      request := Some(BidRequest(product.id, username, amount));
      if sendFails {
        error := Some(BidFailed);
        LoadData(reload);
        ok := false;
      } else {
        ok := true;
      }
      loading := false;
    }

    /** The optimistic part of `placeBid`: the product takes the bid, and
        the bid joins the history. */
    method ApplyBidLocally(product: Product, username: string, amount: int, bidId: int, now: int)
      requires store.GetProductById(product.id).Some?
      modifies store
      ensures var applied := product.(currentBid := amount, currentBidder := Some(username));
        && store.products == ReplaceById(old(store.products), applied)
        && store.GetProductById(product.id) == Some(applied)
      ensures store.bids == old(store.bids) + [Bid(bidId, product.id, username, amount, now)]
      ensures store.chatMessages == old(store.chatMessages) && store.lastReadGlobalChat == old(store.lastReadGlobalChat)
    {
      store.UpdateProduct(product.(currentBid := amount, currentBidder := Some(username)));
      store.AddBid(Bid(bidId, product.id, username, amount, now));
    }

    /** `sendMessage(message, isGlobal)`. The message is refused without a
        user or with blank text, and a product message needs a watched
        product. It is not stored here: it comes back as a `chat_message` event. */
    method SendMessage(message: string, isGlobal: bool, sendFails: bool) returns (ok: bool, request: Option<ChatRequest>)
      modifies this
      ensures timeLeft == old(timeLeft)
      ensures user.None? || Trim(message) == [] ==>
        !ok && request == None && error == Some(InvalidMessage) && loading == old(loading)
      ensures user.Some? && Trim(message) != [] && !isGlobal && Watched().None? ==>
        !ok && request == None && error == Some(ProductRequired) && loading == old(loading)
      ensures user.Some? && Trim(message) != [] && (isGlobal || Watched().Some?) ==>
        && request == Some(ChatRequest(if isGlobal then 0 else Watched().value, user.value.username, message))
        && ok == !sendFails && !loading
        && error == if sendFails then Some(SendFailed) else None
    {
      if user.None? || Trim(message) == [] {
        error := Some(InvalidMessage);
        return false, None;
      }
      if !isGlobal && Watched().None? {
        error := Some(ProductRequired);
        return false, None;
      }
      loading := true;
      error := None;
      request := Some(ChatRequest(if isGlobal then 0 else productId.value, user.value.username, message));
      if sendFails {
        error := Some(SendFailed);
        ok := false;
      } else {
        ok := true;
      }
      loading := false;
    }

    /** The `onmessage` switch, for one pushed event; `freshId` stands for `Date.now()`. */
    method HandleEvent(e: Event, freshId: int)
      modifies this, store
      ensures store.products == ApplyEvent(old(store.products), e)
      ensures store.bids == old(store.bids) + if e.BidUpdate? then [ReceivedBid(e, freshId)] else []
      ensures store.chatMessages == old(store.chatMessages) + if e.ChatPosted? then [ReceivedMessage(e, freshId)] else []
      ensures timeLeft == if e.TimerUpdate? && productId == Some(e.productId) then e.timeLeft else old(timeLeft)
      ensures loading == old(loading) && error == old(error)
      ensures store.lastReadGlobalChat == old(store.lastReadGlobalChat)
    {
      match e {
        case BidUpdate(_, _, _, _) =>
          store.SetProducts(ApplyEvent(store.products, e));
          store.AddBid(ReceivedBid(e, freshId));
        case ChatPosted(_, _, _, _, _) =>
          store.AddChatMessage(ReceivedMessage(e, freshId));
        case AuctionEnded(_, _, _, _) =>
          store.SetProducts(ApplyEvent(store.products, e));
        case AuctionStarted(_, _) =>
          store.SetProducts(ApplyEvent(store.products, e));
        case TimerUpdate(pid, t) =>
          if productId == Some(pid) {
            timeLeft := t;
          }
        case Connection(_) =>
      }
    }

    /** One run of `calculateTimeLeft` at instant `now`. */
    method CalculateTimeLeft(now: int)
      modifies this
      ensures timeLeft == RemainingSeconds(CurrentProduct(), now)
      ensures loading == old(loading) && error == old(error)
    {
      timeLeft := RemainingSeconds(CurrentProduct(), now);
    }
  }
}
