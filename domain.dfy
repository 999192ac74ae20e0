/** The records the server and its clients exchange: products (auctions),
    bids, chat messages and the six kinds of pushed event. Time is an integer
    number of milliseconds, as `Date.getTime()` gives it; a product's
    `duration` is in seconds. */
module Domain {
  import opened Seqs

  datatype Status = Upcoming | Active | Finished

  /** The lifecycle order `upcoming < active < finished`. */
  function Rank(s: Status): nat
  {
    match s
    case Upcoming => 0
    case Active => 1
    case Finished => 2
  }

  datatype Product = Product(
    id: int,
    title: string,
    description: string,
    image: string,
    basePrice: int,
    duration: int,           // seconds
    startTime: int,          // milliseconds
    currentBid: int,
    currentBidder: Option<string>,
    status: Status)

  datatype Bid = Bid(id: int, productId: int, username: string, amount: int, timestamp: int)

  /** A chat message; an absent `productId` (or 0) puts it in the global chat. */
  datatype ChatMessage = ChatMessage(id: int, productId: Option<int>, username: string, message: string, timestamp: int)

  /** The payloads pushed to viewers, one constructor per `type` tag:
      `connection`, `bid_update`, `chat_message`, `auction_started`,
      `auction_ended`, `timer_update`. */
  datatype Event =
    | Connection(message: string)
    | BidUpdate(productId: int, currentBid: int, currentBidder: string, timestamp: int)
    | ChatPosted(productId: int, username: string, message: string, timestamp: int, id: int)
    | AuctionStarted(productId: int, message: string)
    | AuctionEnded(productId: int, winner: Option<string>, finalBid: int, title: string)
    | TimerUpdate(productId: int, timeLeft: int)

  /** The product an event rewrites on the client, if any. */
  function Target(e: Event): Option<int>
  {
    match e
    case BidUpdate(pid, _, _, _) => Some(pid)
    case AuctionStarted(pid, _) => Some(pid)
    case AuctionEnded(pid, _, _, _) => Some(pid)
    case _ => None
  }

  /** The end instant of an auction: `startTime + duration * 1000`. */
  function EndTime(p: Product): int
  {
    p.startTime + p.duration * 1000
  }

  /** `Math.max(0, Math.floor((end - now) / 1000))`: whole seconds left before
      `end`. Dafny's `/` by a positive divisor rounds down, like `Math.floor`. */
  function SecondsLeft(end: int, now: int): (r: nat)
    ensures r == 0 <==> end - now < 1000
    ensures r > 0 ==> r * 1000 <= end - now < r * 1000 + 1000
  {
    var q := (end - now) / 1000;
    if q < 0 then 0 else q
  }

  /** The ids of a product list are pairwise distinct (as the record store
      keeps them; nothing in the modelled code enforces it). */
  ghost predicate UniqueIds(ps: seq<Product>)
  {
    forall i, j :: 0 <= i < |ps| && 0 <= j < |ps| && i != j ==> ps[i].id != ps[j].id
  }
}
