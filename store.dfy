/** The client-side auction store: the product, bid and chat lists a viewer
    holds, the instant it last read the global chat, the updates that replace
    those lists, and the queries the pages run over them. */
module ClientStore {
  import opened Seqs
  import opened Domain

  // ---------------------------------------------------------------------
  // Queries, on the lists they read

  /** `getProductById`: the first product with the given id. */
  function ProductById(ps: seq<Product>, id: int): (r: Option<Product>)
    ensures r.Some? ==> exists i :: 0 <= i < |ps| && ps[i] == r.value && r.value.id == id &&
                                   forall j :: 0 <= j < i ==> ps[j].id != id
    ensures r.None? <==> forall p :: p in ps ==> p.id != id
  {
    Find(ps, (p: Product) => p.id == id)
  }

  /** The list `updateProduct` installs: every product with the new one's id
      is replaced by it. Looking the id up then finds the new product (if the
      id was present), and every other id finds what it found before. */
  function ReplaceById(ps: seq<Product>, product: Product): (r: seq<Product>)
    ensures |r| == |ps|
    ensures forall i :: 0 <= i < |ps| ==> r[i] == if ps[i].id == product.id then product else ps[i]
    ensures ProductById(r, product.id) == if ProductById(ps, product.id).Some? then Some(product) else None
    ensures forall id :: id != product.id ==> ProductById(r, id) == ProductById(ps, id)
  {
    var r := seq(|ps|, i requires 0 <= i < |ps| => if ps[i].id == product.id then product else ps[i]);
    ReplaceByIdLookup(ps, product, r);
    r
  }

  lemma ReplaceByIdLookup(ps: seq<Product>, product: Product, r: seq<Product>)
    requires |r| == |ps|
    requires forall i :: 0 <= i < |ps| ==> r[i] == if ps[i].id == product.id then product else ps[i]
    ensures ProductById(r, product.id) == if ProductById(ps, product.id).Some? then Some(product) else None
    ensures forall id :: id != product.id ==> ProductById(r, id) == ProductById(ps, id)
  {
    var f := (p: Product) => p.id == product.id;
    assert forall i :: 0 <= i < |ps| ==> (f(r[i]) <==> f(ps[i]));
    FindIndexSame(ps, r, f);
    forall id | id != product.id
      ensures ProductById(r, id) == ProductById(ps, id)
    {
      var g := (p: Product) => p.id == id;
      assert forall i :: 0 <= i < |ps| ==> (g(r[i]) ==> r[i] == ps[i]) && (g(ps[i]) ==> r[i] == ps[i]);
      FindIndexSame(ps, r, g);
    }
  }

  /** Two lists that agree on which positions satisfy `f` have the same first such position. */
  lemma {:induction false} FindIndexSame<T>(s: seq<T>, t: seq<T>, f: T -> bool)
    requires |s| == |t| && forall i :: 0 <= i < |s| ==> (f(s[i]) <==> f(t[i]))
    ensures FindIndex(s, f) == FindIndex(t, f)
  {
    if s != [] && !f(s[0]) {
      FindIndexSame(s[1..], t[1..], f);
    }
  }

  /** `getBidsByProduct`. */
  function BidsOfProduct(bids: seq<Bid>, productId: int): (r: seq<Bid>)
    ensures |r| <= |bids|
    ensures forall b :: b in r <==> b in bids && b.productId == productId
  {
    Filter(bids, (b: Bid) => b.productId == productId)
  }

  /** `getChatByProduct`: a message without a product belongs to no product. */
  function ChatOfProduct(ms: seq<ChatMessage>, productId: int): (r: seq<ChatMessage>)
    ensures |r| <= |ms|
    ensures forall m :: m in r <==> m in ms && m.productId == Some(productId)
  {
    Filter(ms, (m: ChatMessage) => m.productId == Some(productId))
  }

  /** A global message has no product, or product 0. */
  predicate IsGlobal(m: ChatMessage)
  {
    m.productId == None || m.productId == Some(0)
  }

  /** `getGlobalChat`. */
  function GlobalChat(ms: seq<ChatMessage>): (r: seq<ChatMessage>)
    ensures |r| <= |ms|
    ensures forall m :: m in r <==> m in ms && (m.productId == None || m.productId == Some(0))
  {
    Filter(ms, IsGlobal)
  }

  /** `getGlobalChatUnreadCount`: global messages newer than the last read instant. */
  function UnreadCount(ms: seq<ChatMessage>, lastRead: int): (r: nat)
    ensures r <= |GlobalChat(ms)|
    ensures r == |GlobalChat(ms)| <==> forall m :: m in GlobalChat(ms) ==> m.timestamp > lastRead
  {
    var r := |Filter(GlobalChat(ms), (m: ChatMessage) => m.timestamp > lastRead)|;
    FilterAll(GlobalChat(ms), (m: ChatMessage) => m.timestamp > lastRead);
    r
  }

  /** A filter keeps every element exactly when every element qualifies. */
  lemma {:induction false} FilterAll<T(!new)>(s: seq<T>, f: T -> bool)
    ensures |Filter(s, f)| == |s| <==> forall x :: x in s ==> f(x)
  {
    if s != [] {
      var init, last := s[..|s| - 1], s[|s| - 1];
      FilterAll(init, f);
      assert Filter(s, f) == Filter(init, f) + (if f(last) then [last] else []);
      assert forall x :: x in s <==> x in init || x == last;
    }
  }

  /** `getCurrentAuctions`, `getUpcomingAuctions`, `getPastAuctions`. */
  function WithStatus(ps: seq<Product>, s: Status): (r: seq<Product>)
    ensures |r| <= |ps|
    ensures forall p :: p in r <==> p in ps && p.status == s
  {
    Filter(ps, (p: Product) => p.status == s)
  }

  // ---------------------------------------------------------------------
  // Facts about the queries

  /** For a real product id, no message is both global and that product's. */
  lemma GlobalAndProductChatAreDisjoint(ms: seq<ChatMessage>, productId: int)
    requires productId != 0
    ensures forall m :: m in GlobalChat(ms) ==> m !in ChatOfProduct(ms, productId)
  {
  }

  /** Every message is global, or belongs to the product it names. */
  lemma EveryMessageIsSomewhere(ms: seq<ChatMessage>, m: ChatMessage)
    requires m in ms
    ensures m in GlobalChat(ms) || m in ChatOfProduct(ms, m.productId.value)
  {
  }

  /** The three status queries partition the products: each product is in
      exactly one, and their sizes add up to the number of products. */
  lemma StatusQueriesPartition(ps: seq<Product>)
    ensures |WithStatus(ps, Active)| + |WithStatus(ps, Upcoming)| + |WithStatus(ps, Finished)| == |ps|
    ensures forall p :: p in ps ==>
      (p in WithStatus(ps, Active) <==> p.status == Active) &&
      (p in WithStatus(ps, Upcoming) <==> p.status == Upcoming) &&
      (p in WithStatus(ps, Finished) <==> p.status == Finished)
  {
    FilterPartition3(ps, (p: Product) => p.status == Active, (p: Product) => p.status == Upcoming,
                     (p: Product) => p.status == Finished);
  }

  /** Once read at an instant no global message is newer than, nothing is unread. */
  lemma NothingUnreadAfterReading(ms: seq<ChatMessage>, now: int)
    requires forall m :: m in ms ==> m.timestamp <= now
    ensures UnreadCount(ms, now) == 0
  {
    var unread := Filter(GlobalChat(ms), (m: ChatMessage) => m.timestamp > now);
    if unread != [] {
      assert unread[0] in ms;
    }
  }

  // ---------------------------------------------------------------------
  // The store

  class AuctionStore {
    var products: seq<Product>
    var bids: seq<Bid>
    var chatMessages: seq<ChatMessage>
    var lastReadGlobalChat: int

    /** The initial state; `lastReadGlobalChat` starts at the creation instant. */
    constructor (now: int)
      ensures products == [] && bids == [] && chatMessages == [] && lastReadGlobalChat == now
    {
      products, bids, chatMessages := [], [], [];
      lastReadGlobalChat := now;
    }

    method SetProducts(ps: seq<Product>)
      modifies this
      ensures products == ps
      ensures bids == old(bids) && chatMessages == old(chatMessages) && lastReadGlobalChat == old(lastReadGlobalChat)
    {
      products := ps;
    }

    method SetBids(bs: seq<Bid>)
      modifies this
      ensures bids == bs
      ensures products == old(products) && chatMessages == old(chatMessages) && lastReadGlobalChat == old(lastReadGlobalChat)
    {
      bids := bs;
    }

    method SetChatMessages(ms: seq<ChatMessage>)
      modifies this
      ensures chatMessages == ms
      ensures products == old(products) && bids == old(bids) && lastReadGlobalChat == old(lastReadGlobalChat)
    {
      chatMessages := ms;
    }

    /** `updateProduct`: replace the products with the given one's id, and nothing else. */
    method UpdateProduct(product: Product)
      modifies this
      ensures products == ReplaceById(old(products), product)
      ensures GetProductById(product.id) == if old(GetProductById(product.id)).Some? then Some(product) else None
      ensures bids == old(bids) && chatMessages == old(chatMessages) && lastReadGlobalChat == old(lastReadGlobalChat)
    {
      products := ReplaceById(products, product);
    }

    /** `addBid`: one bid more at the end; each product's bid list grows by it alone or not at all. */
    method AddBid(bid: Bid)
      modifies this
      ensures bids == old(bids) + [bid]
      ensures forall pid ::
                GetBidsByProduct(pid) == old(GetBidsByProduct(pid)) + if bid.productId == pid then [bid] else []
      ensures products == old(products) && chatMessages == old(chatMessages) && lastReadGlobalChat == old(lastReadGlobalChat)
    {
      forall pid ensures BidsOfProduct(bids + [bid], pid) ==
        BidsOfProduct(bids, pid) + if bid.productId == pid then [bid] else []
      {
        FilterAppend(bids, bid, (b: Bid) => b.productId == pid);
      }
      bids := bids + [bid];
    }

    /** `addChatMessage`: one message more at the end, landing in the global
        chat or in its product's chat. */
    method AddChatMessage(message: ChatMessage)
      modifies this
      ensures chatMessages == old(chatMessages) + [message]
      ensures GetGlobalChat() == old(GetGlobalChat()) + if IsGlobal(message) then [message] else []
      ensures forall pid ::
                GetChatByProduct(pid) == old(GetChatByProduct(pid)) + if message.productId == Some(pid) then [message] else []
      ensures products == old(products) && bids == old(bids) && lastReadGlobalChat == old(lastReadGlobalChat)
    {
      FilterAppend(chatMessages, message, IsGlobal);
      forall pid ensures ChatOfProduct(chatMessages + [message], pid) ==
        ChatOfProduct(chatMessages, pid) + if message.productId == Some(pid) then [message] else []
      {
        FilterAppend(chatMessages, message, (m: ChatMessage) => m.productId == Some(pid));
      }
      chatMessages := chatMessages + [message];
    }

    /** `markGlobalChatAsRead`, at instant `now`. */
    method MarkGlobalChatAsRead(now: int)
      modifies this
      ensures lastReadGlobalChat == now
      ensures products == old(products) && bids == old(bids) && chatMessages == old(chatMessages)
    {
      lastReadGlobalChat := now;
    }

    function GetProductById(id: int): (r: Option<Product>)
      reads this
      ensures r.Some? ==> r.value in products && r.value.id == id
      ensures r.None? <==> forall p :: p in products ==> p.id != id
    {
      ProductById(products, id)
    }

    function GetBidsByProduct(productId: int): (r: seq<Bid>)
      reads this
      ensures forall b :: b in r <==> b in bids && b.productId == productId
    {
      BidsOfProduct(bids, productId)
    }

    function GetChatByProduct(productId: int): (r: seq<ChatMessage>)
      reads this
      ensures forall m :: m in r <==> m in chatMessages && m.productId == Some(productId)
    {
      ChatOfProduct(chatMessages, productId)
    }

    function GetGlobalChat(): (r: seq<ChatMessage>)
      reads this
      ensures forall m :: m in r <==> m in chatMessages && IsGlobal(m)
    {
      GlobalChat(chatMessages)
    }

    function GetGlobalChatUnreadCount(): (r: nat)
      reads this
      ensures r <= |GlobalChat(chatMessages)|
      ensures r == |GlobalChat(chatMessages)| <==>
                forall m :: m in GlobalChat(chatMessages) ==> m.timestamp > lastReadGlobalChat
    {
      UnreadCount(chatMessages, lastReadGlobalChat)
    }

    function GetCurrentAuctions(): (r: seq<Product>)
      reads this
      ensures forall p :: p in r <==> p in products && p.status == Active
    {
      WithStatus(products, Active)
    }

    function GetUpcomingAuctions(): (r: seq<Product>)
      reads this
      ensures forall p :: p in r <==> p in products && p.status == Upcoming
    {
      WithStatus(products, Upcoming)
    }

    function GetPastAuctions(): (r: seq<Product>)
      reads this
      ensures forall p :: p in r <==> p in products && p.status == Finished
    {
      WithStatus(products, Finished)
    }
  }
}
