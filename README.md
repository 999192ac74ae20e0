# Live auction: a Dafny model of the clock, intake, hub and viewer state

This project models the core of a small live-auction application:

- A push server holds a record store of products (auctions), bids and chat messages.
  - Once a second it re-evaluates every auction. An auction moves `upcoming → active → finished`. The server broadcasts `auction_started`, `auction_ended` and sampled `timer_update` events, and writes the store back only if some status changed.
  - It takes bids and chat messages. Each is applied to the whole store snapshot, written back, then broadcast as one event.
  - A hub maps client ids to viewer channels and fans every event out to all of them.
- Each viewer page keeps a local store of the same lists, and the auction hook drives it:
  - the hook guards and sends bids and chat messages: an accepted bid is applied locally first, and a failed send triggers a reload;
  - the hook rewrites the local products when an event arrives;
  - the hook keeps a countdown of the watched product.
- The timer component formats the countdown as `HH:MM:SS` and colours it by urgency.
- The admin form validates a product and derives its status from the start time, the duration and the current instant.

Time throughout is an integer number of milliseconds, as `Date.getTime()` yields it. A product's duration is in seconds. Prices are integers. Every instant (`now`) and every `Date.now()`-based id is a parameter.

Modules, one per file:

| file | module | models |
|---|---|---|
| `seqs.dfy` | `Seqs` | `filter`, `find`, `findIndex`, and the facts about them that the queries rely on |
| `domain.dfy` | `Domain` | products, bids, chat messages, the six pushed events, end time, whole seconds left |
| `server.dfy` | `AuctionServer` | the clock as specification functions; the hub and the intake; `class Server` with the snapshot, the clients map and one delivery log per channel |
| `server_props.dfy` | `ServerProperties` | what the clock and the intake guarantee, over one tick and over many ticks |
| `store.dfy` | `ClientStore` | the viewer's store (`class AuctionStore`) and its queries |
| `hook.dfy` | `UseAuction` | the event reducer and `class AuctionHook` (`placeBid`, `sendMessage`, `loadData`, the event switch, `calculateTimeLeft`) |
| `timer.dfy` | `Countdown` | `HH:MM:SS` formatting, shared by the timer component and the hook, and the urgency colour |
| `admin.dfy` | `ProductAdmin` | the product schema and `handleSubmit`'s status and defaults |
| `sync.dfy` | `ClientServerAgreement` | how the viewer's copy follows the server, and how the admin form agrees with the clock |

Things the model makes explicit that are easy to miss in the code:

- **The tick can do two steps at once.** Its second test is not an `else` of the first. So an upcoming auction whose end has already passed starts and finishes in the same tick, emitting `auction_started` then `auction_ended` (`StartAndEndInOneTick`).
- **The clock finishes early.** The clock ends an auction once less than one whole second is left, which can be up to a second before its end instant. At such an instant the admin form's derivation still says active (`ClockEndsInLastSecond`, `FormStatusAgreesWithClock`).
- **A failing tick write still broadcasts, and repeats.** The tick broadcasts while it evaluates, before the write. If the write then fails, viewers have been told of transitions the store does not keep (`Server.Tick`).
  - The next tick reads the unchanged store and evaluates the same products again.
  - An auction whose end the failed tick announced is still active there, so `auction_ended` goes out a second time (`EndedRepeatsAfterFailedWrite`, `FailedWriteThenTick`).
  - `auction_ended` is sent at most once only over ticks whose writes succeed (`EndedAtMostOnce`).
- **The hub keeps failing channels.**
  - A channel whose write fails is skipped, and the rest still receive the event.
  - The channel stays registered; nothing removes it except the disconnect handler.
  - Two connections under the same client id (a `Date.now()` collision) overwrite each other in the map, so the first channel stops receiving (`Server.Connect`).
- **Server and viewer match products differently.**
  - The server's bid intake updates the first product with the bid's id, and checks nothing about the amount.
  - The viewer's reducer rewrites every product with that id.
  - With distinct ids they agree (`ClientFollowsBid`, `ClientFollowsTick`).
- **A failed bid ends with the reload's error.** When sending a bid fails, the hook sets `Failed to place bid`, and the reload it then starts clears it. The final error is none after a successful reload and `Failed to load data` after a failed one (`AuctionHook.PlaceBid`).
- **The bidder's history shows a bid twice.** The bidder's own optimistic update already matches the echoed `bid_update`, so the echo changes no product (`EchoedBidChangesNothing`). It still appends a second history entry for the same bid (`AuctionHook.HandleEvent`).

Two more facts about the code:

- The hub never removes a channel whose write fails. Only the disconnect handler removes a channel.
- The bid intake does not compare the amount with the current bid. It does not reject a bid for an unknown product either: that bid is still recorded in the history.

## Model

| member | source | states |
|---|---|---|
| Seqs.Filter | src/store/useAuctionStore.ts:78-79 | the filter keeps exactly the elements that satisfy the predicate and is no longer than its input |
| Seqs.FilterConcat | src/store/useAuctionStore.ts:78-85 | filtering a concatenation is concatenating the filters, so elements keep their relative order |
| Seqs.FilterAppend | src/store/useAuctionStore.ts:68-70 | appending one element grows a filter by that element exactly when it qualifies |
| Seqs.FilterPartition3 | src/store/useAuctionStore.ts:95-97 | three exclusive, exhaustive predicates split a list: the three filter sizes sum to its length |
| Seqs.FindIndex | server/index.js:58 | the index returned is the first that satisfies the predicate; none is returned exactly when none satisfies it |
| Seqs.Find | src/store/useAuctionStore.ts:76 | the element returned is the first that satisfies the predicate; none is returned exactly when none does |
| Seqs.FlattenConcat | server/index.js:145-188 | the events of consecutive parts of a pass are the concatenation of their events |
| Seqs.FlattenMember | server/index.js:145-188 | every event of a pass comes from some product's evaluation |
| Domain.SecondsLeft | server/index.js:163 | `max(0, floor((end-now)/1000))`: zero exactly when less than a second is left, otherwise the whole seconds before the end |
| AuctionServer.StartStep | server/index.js:151-159 | the first test of the tick body: an upcoming auction whose start has come becomes active, with one `auction_started`; its rules are `StartedEventRule` |
| AuctionServer.Sampled | server/index.js:179 | the sampling rule for `timer_update`: every fifth second and each of the last ten; its schedule is `ThirtySecondSchedule` |
| AuctionServer.ActiveStep | server/index.js:162-186 | the second test of the tick body: an active auction ends once no whole second is left, else may report its seconds; its rules are `EndedEventRule` and `TimerEventRule` |
| AuctionServer.TickProduct | server/index.js:146-187 | one evaluation changes only the status, never backwards; finished stays, upcoming waits for its start, otherwise finished once no whole second is left, else active; at most two events |
| AuctionServer.TickProducts | server/index.js:145-188 | the product list after a tick: one evaluation per product, same length; the tick's loop is proved equal to it (`Server.EvaluateAll`) |
| AuctionServer.EventsPerProduct | server/index.js:145-188 | one evaluation's events per product, in list order, one entry per product |
| AuctionServer.TickEvents | server/index.js:145-188 | all the events of a tick, product by product; its structure is `TickEventsConcat`, `TickEventsAround` and `TickEventsTargets` |
| AuctionServer.Changes | server/index.js:151-168 | a product's evaluation changes its status (sets `dbChanged`) |
| AuctionServer.StatusChanged | server/index.js:143-188 | the `dbChanged` flag after the whole pass: some product's status changed; `SkippedWriteLosesNothing` shows why the write can be skipped otherwise |
| AuctionServer.Receivers | server/index.js:38-46 | the channels one broadcast reaches: each registered channel whose write does not fail |
| AuctionServer.Deliver | server/index.js:38-46 | the channel logs after a broadcast: receivers get the events appended, all others unchanged; `Server.Broadcast`'s loop is proved equal to it |
| AuctionServer.RecordBid | server/index.js:58-72 | the first product with the id takes amount and bidder, all other products are unchanged, and exactly one bid is appended even when no product matches |
| AuctionServer.ChatOf | server/index.js:111-114 | the chat list, empty when the store has none yet |
| AuctionServer.NewMessage | server/index.js:103-109 | the stored chat record: the id, the text and the instant given, and product 0 stored as none (`GlobalMessageStoredWithoutProduct`, `ChatRoundTrip`) |
| AuctionServer.Server.constructor | server/index.js:13 | the server starts with its snapshot, no clients and no delivery logs |
| AuctionServer.Server.Connect | server/index.js:25-29 | the channel is stored under the client id and receives the connection acknowledgement; a channel displaced by the same id no longer receives broadcasts |
| AuctionServer.Server.Disconnect | server/index.js:32-34 | the client id is removed and nothing else changes |
| AuctionServer.Server.Broadcast | server/index.js:38-46 | every registered channel whose write does not fail gets the event appended, failing ones are skipped without stopping the loop, and no other log changes |
| AuctionServer.Server.EvaluateProduct | server/index.js:146-187 | the in-place evaluation of one product yields the clock function's product and events, broadcast in order, and reports whether the status changed |
| AuctionServer.Server.EvaluateAll | server/index.js:143-188 | the pass over all products gives every product's evaluation, broadcasts all events product by product, and sets the changed flag exactly when some status changed |
| AuctionServer.Server.Tick | server/index.js:139-197 | a read failure changes nothing; otherwise all events are broadcast, and the store is written (once) exactly when some status changed and the write succeeds |
| AuctionServer.Server.UpdateBid | server/index.js:49-91 | on success the store becomes the recorded bid, one write happens, and one `bid_update` with the same values is broadcast; an I/O failure changes and sends nothing |
| AuctionServer.Server.AddMessage | server/index.js:94-136 | on success exactly one message is appended (the list is created if absent), product 0 is stored as none but broadcast as 0, and the reply is the stored record; an I/O failure changes and sends nothing |
| AuctionServer.DeliverConcat | server/index.js:154-185 | two successive broadcasts to the same channels deliver both events in order |
| ServerProperties.FinishedIsInert | server/index.js:151-187 | ticking a finished auction changes nothing and emits nothing |
| ServerProperties.StartAndEndInOneTick | server/index.js:151-176 | an upcoming auction past its end becomes finished in one tick, emitting `auction_started` then `auction_ended` |
| ServerProperties.StartedEventRule | server/index.js:151-159 | `auction_started` is emitted exactly when an upcoming auction has reached its start, with the product's title in the message |
| ServerProperties.EndedEventRule | server/index.js:165-176 | `auction_ended` is emitted exactly when the tick finishes the auction, carrying its current bidder, current bid and title |
| ServerProperties.TimerEventRule | server/index.js:177-185 | `timer_update(t)` is emitted exactly when the auction is active after the tick, `t` is its whole seconds left, and `t` is sampled; `t` is always positive |
| ServerProperties.TickEventsAreAbout | server/index.js:145-188 | evaluating a product emits only clock events about that product |
| ServerProperties.ThirtySecondSchedule | server/index.js:179 | over a 30-second countdown updates go out at 30, 25, 20, 15 and every second from 10 down |
| ServerProperties.ClockEndsInLastSecond | server/index.js:162-168 | the clock never finishes an auction earlier than one second before its end instant, and an active auction ticked at or after that point is finished |
| ServerProperties.TenSecondAuction | server/index.js:146-185 | a 10-second auction started a second ago becomes active and reports 9, and nine seconds later ends with one `auction_ended` |
| ServerProperties.TickEndedCount | server/index.js:162-176 | one tick emits one `auction_ended` if it finishes the auction and none otherwise |
| ServerProperties.EndedAtMostOnce | server/index.js:139-197 | over a sequence of ticks whose writes all succeed, the status only moves forward and `auction_ended` fires at most once, never for an already finished auction |
| ServerProperties.TickEventsAround | server/index.js:145-188 | a pass's events are those of the products before the one at an index, then that product's own, then those after it |
| ServerProperties.EndedInTick | server/index.js:162-176 | an active auction with no whole second left makes its tick emit at least one `auction_ended` |
| ServerProperties.EndedRepeatsAfterFailedWrite | server/index.js:139-197 | if a tick's write fails, the next tick starts from the same stored products, and an auction ended by the failed tick is announced again: two `auction_ended` events in the two ticks |
| ServerProperties.FailedWriteThenTick | server/index.js:139-197 | a tick whose write fails followed by one whose write succeeds delivers, to every channel both reach, the events of two evaluations of the same stored products |
| ServerProperties.SkippedWriteLosesNothing | server/index.js:143-193 | when no status changes the evaluated products equal the stored ones, so skipping the write loses nothing |
| ServerProperties.FinishedStoreIsSilent | server/index.js:145-193 | when every auction is finished a tick emits nothing, changes no status and writes nothing |
| ServerProperties.TickEventsConcat | server/index.js:145-188 | the events of one pass over a list are those of its parts, in list order |
| ServerProperties.TickEventsTargets | server/index.js:145-188 | a pass emits no event about an id that no product of the list has |
| ServerProperties.BidChangesOnlyItsProduct | server/index.js:58-62 | with distinct ids, a bid changes exactly the product with its id (amount and bidder) and no other |
| ServerProperties.GlobalMessageStoredWithoutProduct | server/index.js:105 | a chat message for product 0 is stored with no product |
| ClientStore.ProductById | src/store/useAuctionStore.ts:76 | the first product with the id, or none exactly when no product has it |
| ClientStore.ReplaceById | src/store/useAuctionStore.ts:64-66 | every product with the new one's id is replaced and every other kept; looking up that id then finds the new product, every other id finds what it found before |
| ClientStore.BidsOfProduct | src/store/useAuctionStore.ts:78-79 | exactly the bids for the product, none added |
| ClientStore.ChatOfProduct | src/store/useAuctionStore.ts:81-82 | exactly the messages naming the product; a message without a product belongs to no product |
| ClientStore.IsGlobal | src/store/useAuctionStore.ts:84-85 | a message is global when it has no product or product 0 |
| ClientStore.GlobalChat | src/store/useAuctionStore.ts:84-85 | exactly the messages without a product or with product 0 |
| ClientStore.WithStatus | src/store/useAuctionStore.ts:95-97 | exactly the products with the given status; the three queries partition the products (`StatusQueriesPartition`) |
| ClientStore.UnreadCount | src/store/useAuctionStore.ts:87-91 | never more than the global messages, and equal to them exactly when all are newer than the last read instant |
| ClientStore.GlobalAndProductChatAreDisjoint | src/store/useAuctionStore.ts:81-85 | for a product id other than 0 no message is both global and that product's |
| ClientStore.EveryMessageIsSomewhere | src/store/useAuctionStore.ts:81-85 | every message is in the global chat or in the chat of the product it names |
| ClientStore.StatusQueriesPartition | src/store/useAuctionStore.ts:95-97 | current, upcoming and past auctions partition the products: each is in exactly the query of its status and the sizes sum up |
| ClientStore.NothingUnreadAfterReading | src/store/useAuctionStore.ts:87-93 | after reading at an instant no message is newer than, the unread count is zero |
| ClientStore.AuctionStore.constructor | src/store/useAuctionStore.ts:54-58 | the store starts empty, with the last read instant at creation |
| ClientStore.AuctionStore.SetProducts | src/store/useAuctionStore.ts:60 | replaces the product list and nothing else |
| ClientStore.AuctionStore.SetBids | src/store/useAuctionStore.ts:61 | replaces the bid list and nothing else |
| ClientStore.AuctionStore.SetChatMessages | src/store/useAuctionStore.ts:62 | replaces the chat list and nothing else |
| ClientStore.AuctionStore.UpdateProduct | src/store/useAuctionStore.ts:64-66 | installs the replaced list, after which the product's id finds the new product, and changes nothing else |
| ClientStore.AuctionStore.AddBid | src/store/useAuctionStore.ts:68-70 | appends exactly the bid; each product's bid list grows by it alone (its own product) or not at all |
| ClientStore.AuctionStore.AddChatMessage | src/store/useAuctionStore.ts:72-74 | appends exactly the message; it lands at the end of the global chat or of its product's chat, and no other view changes |
| ClientStore.AuctionStore.MarkGlobalChatAsRead | src/store/useAuctionStore.ts:93 | sets the last read instant and nothing else |
| ClientStore.AuctionStore.GetProductById | src/store/useAuctionStore.ts:76 | a product of the store with the id, or none exactly when no product has it |
| ClientStore.AuctionStore.GetBidsByProduct | src/store/useAuctionStore.ts:78-79 | exactly the store's bids for the product |
| ClientStore.AuctionStore.GetChatByProduct | src/store/useAuctionStore.ts:81-82 | exactly the store's messages naming the product |
| ClientStore.AuctionStore.GetGlobalChat | src/store/useAuctionStore.ts:84-85 | exactly the store's global messages |
| ClientStore.AuctionStore.GetGlobalChatUnreadCount | src/store/useAuctionStore.ts:87-91 | at most the global messages, and all of them exactly when all are newer than the last read instant |
| ClientStore.AuctionStore.GetCurrentAuctions | src/store/useAuctionStore.ts:95 | exactly the store's active products |
| ClientStore.AuctionStore.GetUpcomingAuctions | src/store/useAuctionStore.ts:96 | exactly the store's upcoming products |
| ClientStore.AuctionStore.GetPastAuctions | src/store/useAuctionStore.ts:97 | exactly the store's finished products |
| Countdown.Decimal | src/components/Timer.tsx:21 | `toString` of a whole number: at least one digit, one digit exactly below 10, three or more from 100, no leading zero |
| Countdown.DecimalValue | src/components/Timer.tsx:21 | reading the digits back gives the number |
| Countdown.PadStart2 | src/components/Timer.tsx:21 | `padStart(2, '0')`: at least two characters, the input at the end, zeros before it |
| Countdown.TwoDigitField | src/components/Timer.tsx:21 | a value below 100 shows as two digits that read back as the value |
| Countdown.FormatClock | src/components/Timer.tsx:11-22 | `formatTime` (and the hook's identical `formatTimeLeft`, src/hooks/useAuction.ts:239-247): at least 8 characters, `00:00:00` for a non-positive input; its shape and round trip are `ClockShape` and `ClockRoundTrip` |
| Countdown.ClockFields | src/components/Timer.tsx:17-19 | hours\*3600 + minutes\*60 + seconds recomposes the input, with minutes and seconds below 60 |
| Countdown.JoinShape | src/components/Timer.tsx:21 | three fields below 100 join into `dd:dd:dd` whose fields read back as the values |
| Countdown.ClockShape | src/components/Timer.tsx:12-21 | below 100 hours the display is exactly 8 characters `HH:MM:SS`; from 100 hours on it is longer |
| Countdown.ClockRoundTrip | src/components/Timer.tsx:11-22 | below 100 hours parsing the display gives back the seconds (0 for a non-positive input) |
| Countdown.FormatTime | src/components/Timer.tsx:11-22 | `onTimeUp` fires exactly when no time is left, the display is then `00:00:00`, and otherwise it reads back as the input below 100 hours |
| Countdown.Color | src/components/Timer.tsx:24-28 | `getColor`: the tone for the seconds left; its bands are `ColorBands` and `UrgencyMonotone` |
| Countdown.ColorBands | src/components/Timer.tsx:24-28 | `error` up to 60 seconds, `warning` above 60 up to 300, `primary` above 300 |
| Countdown.UrgencyMonotone | src/components/Timer.tsx:24-28 | less time left never shows a less urgent colour |
| UseAuction.TrimStart | src/hooks/useAuction.ts:112 | removes exactly the leading white space |
| UseAuction.TrimEnd | src/hooks/useAuction.ts:112 | removes exactly the trailing white space |
| UseAuction.Trim | src/hooks/useAuction.ts:112 | `trim()` leaves nothing exactly when every character is white space |
| UseAuction.ProductAfter | src/hooks/useAuction.ts:161-209 | one product after one event: the map callback of the `bid_update`, `auction_ended` and `auction_started` cases; its rules are `EventRewritesItsProduct` |
| UseAuction.ApplyEvent | src/hooks/useAuction.ts:159-211 | the event's map keeps the length and every id, leaves every product the event does not name unchanged, and changes nothing for events without a product |
| UseAuction.ReceivedBid | src/hooks/useAuction.ts:172-178 | the recorded bid has the event's product, amount and bidder |
| UseAuction.ReceivedMessage | src/hooks/useAuction.ts:183-189 | the stored message is global exactly when the event's product is 0, keeps any other product, and keeps a non-zero id |
| UseAuction.RemainingSeconds | src/hooks/useAuction.ts:137-149 | zero for a missing or non-active product or with less than a second left; otherwise the whole seconds before the end |
| UseAuction.EventRewritesItsProduct | src/hooks/useAuction.ts:159-211 | `bid_update` sets the named product's bid and bidder, `auction_ended` sets it finished, `auction_started` sets it active |
| UseAuction.ApplyEventIdempotent | src/hooks/useAuction.ts:159-211 | handling the same event twice rewrites the products as handling it once |
| UseAuction.AuctionHook.constructor | src/hooks/useAuction.ts:25-27 | not loading, no error, no time left |
| UseAuction.AuctionHook.CurrentProduct | src/hooks/useAuction.ts:29-31 | the watched product: a product of the store with the watched id, or none when no id (or 0) is watched or no product has it |
| UseAuction.AuctionHook.FormattedTimeLeft | src/hooks/useAuction.ts:239-247 | the countdown text: `00:00:00` when no time is left, and below 100 hours it reads back as the seconds left |
| UseAuction.AuctionHook.LoadData | src/hooks/useAuction.ts:45-64 | ends not loading; a successful fetch installs the three lists with no error, a failed one keeps them and sets `Failed to load data` |
| UseAuction.AuctionHook.PlaceBid | src/hooks/useAuction.ts:66-109 | without a user or product, or with an amount not above the current bid, the store is unchanged and an error is set; otherwise the bid is applied locally and sent, and success follows the send |
| UseAuction.AuctionHook.ApplyBidLocally | src/hooks/useAuction.ts:81-95 | the optimistic update: every product with the id takes the bid, the product then looks up as updated, and exactly the bid joins the history |
| UseAuction.AuctionHook.SendMessage | src/hooks/useAuction.ts:111-135 | blank text or no user is refused, product chat without a watched product is refused, global chat is sent for product 0, and the store is never touched |
| UseAuction.AuctionHook.HandleEvent | src/hooks/useAuction.ts:154-222 | products are rewritten by the event, one bid or one message is appended for bid and chat events, and the countdown changes only on the watched product's `timer_update` |
| UseAuction.AuctionHook.CalculateTimeLeft | src/hooks/useAuction.ts:137-149 | the countdown becomes the remaining whole seconds of the watched product |
| ProductAdmin.SchemaAccepts | src/components/ProductTable.tsx:36-55 | the schema's rules: title of 3 or more characters, description of 10 or more, an image, positive price and duration, one of the three status names |
| ProductAdmin.DeriveStatus | src/components/ProductTable.tsx:105-116 | the status chain: finished from the end, else active from the start, else upcoming; as iffs in `DerivedStatusRule` |
| ProductAdmin.HandleSubmit | src/components/ProductTable.tsx:94-132 | the submitted product: defaulted start, derived status, defaulted bid and bidder, edit or add; its properties are `FormStatusIsOverridden`, `MissingStartMeansActive`, `EditKeepsId` and `SubmitDefaults` |
| ProductAdmin.Submit | src/components/ProductTable.tsx:36-55 | a submission happens exactly when the schema accepts the values, and then has a positive base price and duration and a non-zero current bid |
| ProductAdmin.DerivedStatusRule | src/components/ProductTable.tsx:105-116 | for a positive duration: finished iff now is at or after the end, active iff between start and end, upcoming iff before the start |
| ProductAdmin.FormStatusIsOverridden | src/components/ProductTable.tsx:106-116 | the status chosen in the form has no effect on what is submitted |
| ProductAdmin.MissingStartMeansActive | src/components/ProductTable.tsx:96-116 | without a start time the start is now, and a positive duration makes the product active |
| ProductAdmin.EditKeepsId | src/components/ProductTable.tsx:128-132 | editing submits under the edited product's id; otherwise the product is added |
| ProductAdmin.SubmitDefaults | src/components/ProductTable.tsx:118-126 | an empty current bid becomes the base price, a given one is kept; an empty bidder becomes none, a given one is kept |
| ClientServerAgreement.ApplyEventsPointwise | src/hooks/useAuction.ts:159-211 | handling a sequence of events rewrites each product on its own |
| ClientServerAgreement.ClientFollowsTick | src/hooks/useAuction.ts:154-211 | with distinct ids, a viewer holding the server's products that handles one tick's events in order holds the server's products after the tick |
| ClientServerAgreement.ClientFollowsBid | server/index.js:58-84 | with distinct ids, the broadcast `bid_update` rewrites a viewer's copy exactly as the server rewrote its products, and the viewer records the server's bid |
| ClientServerAgreement.ChatRoundTrip | src/hooks/useAuction.ts:182-191 | the message a viewer stores from `chat_message` is the record the server stored, global chat included |
| ClientServerAgreement.EchoedBidChangesNothing | src/hooks/useAuction.ts:159-170 | after the bidder's optimistic update, the echoed `bid_update` changes no product |
| ClientServerAgreement.CountdownAgreesWithServer | src/hooks/useAuction.ts:137-149 | the viewer's countdown equals the server's `timer_update` at the same instant, and reaches 0 exactly when the server ends the auction |
| ClientServerAgreement.FormStatusAgreesWithClock | src/components/ProductTable.tsx:105-116 | a form-derived status survives the clock at the same instant, except in the last second, where the clock already finishes the auction |

## Left out

- Reading and writing `db.json`, and JSON encoding: the store is an in-memory snapshot. A read or write failure is a boolean parameter of the operation.
- Express routing, HTTP status codes and headers, CORS and `app.listen`: transport plumbing. The endpoints become methods whose results are a success flag or the reply record.
- Server-sent-events framing (`data: …`) and serialising payloads: an event is a datatype value. A channel's write failure is membership in a set of failing channels passed to the operation.
- The `setInterval` schedule, and the race between a tick and an intake request that both read-modify-write the snapshot: concurrency. Each tick and each request is one atomic method call.
- AuctionServer.Server.Tick: uses one `now` for the whole tick, whereas the source samples the clock once per product.
- AuctionServer.Server.Tick: a write failure after broadcasts is modelled, but the single failing set applies to every broadcast of the tick. The source could fail different channels on different writes.
- ServerProperties.EndedAtMostOnce: holds only over ticks whose writes all succeed. After a failed write the source announces the same auction's end again; `EndedRepeatsAfterFailedWrite` states that case.
- ProductAdmin.HandleSubmit: uses one `now` for the default start time and the status derivation, whereas the source reads the clock twice.
- ProductAdmin.SchemaAccepts: counts the lengths of the title and description in Unicode scalar values. The source's minimum lengths count UTF-16 code units, so a character outside the Basic Multilingual Plane counts once here and twice there.
- AuctionServer.Server.UpdateBid: uses one instant for the stored bid and the broadcast timestamp. The source reads the clock twice.
- Timestamps are ISO strings in the source. Here they are the integer milliseconds they denote; parsing and formatting them (and the admin form's time-zone shifts) are host-library behaviour.
- `parseInt` and `Number` coercions, and floating-point prices: ids and prices are integers.
- Countdown.FormatTime: covers whole seconds only. The source also accepts fractional numbers.
- ProductAdmin.SchemaAccepts: requires a non-empty image but does not model the URL syntax check.
- `src/api/api.ts` is not part of this model: it wraps HTTP calls, whose outcomes are parameters here.
- UseAuction.AuctionHook: the React memoisation of `product`, `productBids`, `productChat` and `globalChat` is not modelled. These are the store queries evaluated on the current state. State updates are applied in order rather than batched into renders.
- The `EventSource` lifecycle, and the parse errors of malformed event data: transport.
- The dialog open/close state of the admin form, rendering, translations and every component or page not named above: presentation.
