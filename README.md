# pay2bid: a verified model of the auction house core

pay2bid is a distributed auction house. A server holds the registered clients, a FIFO queue of
auctions and the auction in progress. Each auction runs in rounds. Every client not flagged as the
seller counts down 30 seconds and then calls `timeElapsed`. When the count of owed responses reaches
exactly 0, one of two things happens:

- a round with bids sets the price to the highest bid and starts a new round;
- a round without bids ends the auction, and every client is told the winner on record.

A connection daemon removes clients that no longer answer. Clients keep the current auction, a
countdown task and GUI observers.

The model is in Dafny, one module per concern:

- `Basics` (`basics.dfy`): Java's `int`, nullable values, client and observer handles, client states, UUIDs.
- `Seqs` (`seqs.dfy`): `List.remove(Object)` and the filtering done by the daemon's probe loop and `removeAll`.
- `AuctionBeans` (`auction_bean.dfy`): the `Auction` value, the mutable `AuctionBean` class and `toString`.
- `ValueComparators` (`value_comparator.dfy`): the bid comparator.
- `ServerSpec` (`server_spec.dfy`): the server as pure transitions on a `State` value. Remote pushes to clients are returned as a list of `Call`s.
- `Servers` (`server.dfy`): the `Server` class. Its fields are updated in place, and each method is proved to perform the `ServerSpec` transition. This includes the max-bid loop and the daemon's probe loop.
- `IntendedServer` (`server_intended.dfy`): four defects of the server repaired. It proves the invariant the repairs restore, and traces that show each defect in the code as written.
- `Decimal` (`decimal.dfy`): Java's truncating `/`, and `Long.toString` with its inverse.
- `Clients` (`client.dfy`): the `Client` and `TimerManager` classes, and the countdown's properties.

Inputs the code gets from outside are parameters:

- Random UUIDs.
- The state a client reports through `getState()`.
- Whether `client.getName()` answers, for both of its calls in `timeElapsed`.
- The set of clients whose connection is dead.
- Which top bidder the iteration over the bid `HashMap` meets first. This is the ghost out-parameter `choice`, constrained by `ServerSpec.Chosen`.

Auctions cross the network by serialisation, so the server and the clients hold `Auction` values.

The code makes these choices, which the model follows:

- **Tied top bids:** the code keeps the first maximal entry in hash order, not a random draw. The model allows any top bidder.
- **Registration:** it does not start pending auctions (see Findings).
- **Departing leader:** a departing round leader is not recomputed away.
- **Sellers:** a seller is not refused as a bidder.
- **Push failures:** a failing push aborts the loop it is in rather than being isolated.
- **Concurrency:** only one auction runs at a time.

## Model

| member | source | states |
|---|---|---|
| Seqs.FirstIndex | src/main/java/com/alma/pay2bid/server/Server.java:137 | the position `List.remove` finds is the first occurrence of the element |
| Seqs.RemoveFirst | src/main/java/com/alma/pay2bid/server/Server.java:137 | removing a client leaves the list unchanged if it is absent; otherwise its first occurrence goes and the elements before and after it keep their order |
| Seqs.Filter | src/main/java/com/alma/pay2bid/server/Server.java:27-36 | the probe-and-`removeAll` result holds exactly the listed clients on the requested side of the dead set |
| Seqs.FilterCount | src/main/java/com/alma/pay2bid/server/Server.java:36 | `removeAll` drops every occurrence of a removed client and keeps every occurrence of the others |
| Seqs.FilterSnoc | src/main/java/com/alma/pay2bid/server/Server.java:28-35 | each probe step extends the collected list by the probed client exactly when its probe fails |
| Seqs.FilterAppend | src/main/java/com/alma/pay2bid/server/Server.java:36 | `removeAll` keeps the survivors in list order: filtering a concatenation filters each part |
| Seqs.FilterSameOn | src/main/java/com/alma/pay2bid/server/Server.java:36 | removing the collected clients equals removing the dead set, as both agree on every listed client |
| Seqs.FilterPartition | src/main/java/com/alma/pay2bid/server/Server.java:36-45 | removed plus kept entries number the whole list, so the daemon's decrements equal the entries removed |
| AuctionBeans.OpeningPrice | src/main/java/com/alma/pay2bid/bean/AuctionBean.java:18-20 | the stored price is non-negative, at least the asked price, and is either the asked price or 0 |
| AuctionBeans.UuidString | src/main/java/com/alma/pay2bid/bean/AuctionBean.java:68 | a set UUID renders as its own 36-character text, an unset one as `null` |
| AuctionBeans.Describe | src/main/java/com/alma/pay2bid/bean/AuctionBean.java:67-69 | the text starts with `uuid : `, shows the UUID text (or `null`) from position 7 and the name after a fixed head, with a two-character tail |
| AuctionBeans.DescribeLayout | src/main/java/com/alma/pay2bid/bean/AuctionBean.java:67-69 | `toString` is a head fixed by the UUID, the name, then a two-character tail; the name is recoverable by position |
| AuctionBeans.DescribeDeterminesName | src/main/java/com/alma/pay2bid/bean/AuctionBean.java:67-69 | for equal UUIDs, equal texts mean equal names |
| AuctionBeans.DescribeIdentifies | src/main/java/com/alma/pay2bid/bean/AuctionBean.java:67-69 | once UUIDs are set, the text determines both UUID and name |
| AuctionBeans.AuctionBean.constructor | src/main/java/com/alma/pay2bid/bean/AuctionBean.java:18-24 | a new bean has no UUID, the clamped price and the given name, description and seller |
| AuctionBeans.AuctionBean.GetUUID | src/main/java/com/alma/pay2bid/bean/AuctionBean.java:27-29 | returns the UUID the bean holds |
| AuctionBeans.AuctionBean.GetPrice | src/main/java/com/alma/pay2bid/bean/AuctionBean.java:35-37 | returns the price the bean holds |
| AuctionBeans.AuctionBean.GetName | src/main/java/com/alma/pay2bid/bean/AuctionBean.java:43-45 | returns the name the bean holds |
| AuctionBeans.AuctionBean.GetDescription | src/main/java/com/alma/pay2bid/bean/AuctionBean.java:51-53 | returns the description the bean holds |
| AuctionBeans.AuctionBean.GetSeller | src/main/java/com/alma/pay2bid/bean/AuctionBean.java:59-61 | returns the seller the bean holds |
| AuctionBeans.AuctionBean.ToString | src/main/java/com/alma/pay2bid/bean/AuctionBean.java:67-69 | the bean's text shows its UUID (or `null`) and its name at fixed positions; with a UUID it is 55 characters longer than the name |
| AuctionBeans.AuctionBean.SetUuid | src/main/java/com/alma/pay2bid/bean/AuctionBean.java:31-33 | only the UUID changes |
| AuctionBeans.AuctionBean.SetPrice | src/main/java/com/alma/pay2bid/bean/AuctionBean.java:39-41 | only the price changes, to any value (no clamp) |
| AuctionBeans.AuctionBean.SetName | src/main/java/com/alma/pay2bid/bean/AuctionBean.java:47-49 | only the name changes |
| AuctionBeans.AuctionBean.SetDescription | src/main/java/com/alma/pay2bid/bean/AuctionBean.java:55-57 | only the description changes |
| AuctionBeans.AuctionBean.SetVendeur | src/main/java/com/alma/pay2bid/bean/AuctionBean.java:63-65 | only the seller changes |
| ValueComparators.ValueComparator.Compare | src/main/java/com/alma/pay2bid/server/ValueComparator.java:10-21 | over its own copy of the bids, -1 or 1, and -1 exactly when the first client's bid is at least the second's |
| ValueComparators.CompareSelf | src/main/java/com/alma/pay2bid/server/ValueComparator.java:15-21 | a client compared with itself yields -1 |
| ValueComparators.CompareAntisymmetric | src/main/java/com/alma/pay2bid/server/ValueComparator.java:15-21 | for different bids, swapping the arguments negates the result |
| ValueComparators.CompareTies | src/main/java/com/alma/pay2bid/server/ValueComparator.java:15-21 | for equal bids both orders yield -1, breaking the comparator contract |
| ValueComparators.OrderedIsDescending | src/main/java/com/alma/pay2bid/server/ValueComparator.java:15-21 | a list in comparator order is exactly a list by descending bid |
| ServerSpec.Broadcast | src/main/java/com/alma/pay2bid/server/Server.java:83-85 | the loop pushes the message once to each client, in list order |
| ServerSpec.MaxBid | src/main/java/com/alma/pay2bid/server/Server.java:190-196 | the round's price is one of the bids and no bid exceeds it |
| ServerSpec.Launch | src/main/java/com/alma/pay2bid/server/Server.java:75-86 | the queue head becomes current (FIFO), the auction is running, every client but the seller owes a response, and every client hears of it |
| ServerSpec.PlaceAuction | src/main/java/com/alma/pay2bid/server/Server.java:94-102 | the auction gets its UUID and joins the queue's tail; it starts at once exactly when nothing runs, nothing else waits and a quorum is registered, and then the step is exactly `Launch` of the queue holding only it |
| ServerSpec.Register | src/main/java/com/alma/pay2bid/server/Server.java:110-120 | the client joins the tail of the list and nothing else changes |
| ServerSpec.RaiseBid | src/main/java/com/alma/pay2bid/server/Server.java:155-161 | the bid is recorded and the client set to RAISING exactly when it is WAITING and beats the price; a WAITING client before any auction dereferences null; the state invariants are kept |
| ServerSpec.TimeElapsed | src/main/java/com/alma/pay2bid/server/Server.java:170-211 | a response is counted and the invariant is kept |
| ServerSpec.Disconnect | src/main/java/com/alma/pay2bid/server/Server.java:129-138 | the departing client's `timeElapsed` then its removal keep the invariant |
| ServerSpec.Sweep | src/main/java/com/alma/pay2bid/server/Server.java:23-47 | dead clients leave (every occurrence), live ones keep their multiplicity, the count drops by the entries removed, nothing else changes |
| ServerSpec.CountsDown | src/main/java/com/alma/pay2bid/server/Server.java:171-173 | unless the count is exactly 1, a response only decrements it, even below zero |
| ServerSpec.RoundWithBids | src/main/java/com/alma/pay2bid/server/Server.java:188-209 | the new price is the highest bid, held by the new winner, strictly above the old price when all bids were; count restarts, bids cleared, every client hears the price |
| ServerSpec.BlankRound | src/main/java/com/alma/pay2bid/server/Server.java:175-187 | every client hears the winner on record, which is kept, and the clients stay; the next auction starts exactly when one waits and a quorum is registered, and then every client hears of it and all but the seller owe a response; otherwise the current auction stays and the count is 0 |
| ServerSpec.DisconnectAfterElapse | src/main/java/com/alma/pay2bid/server/Server.java:136-137 | disconnecting a registered client makes the same calls as `timeElapsed` and then removes one occurrence of the client |
| Servers.Server.constructor | src/main/java/com/alma/pay2bid/server/Server.java:52-70 | no auction, no winner, no client, an empty queue and no bids |
| Servers.Server.Notify | src/main/java/com/alma/pay2bid/server/Server.java:83-85 | the push loop makes exactly the broadcast calls |
| Servers.Server.LaunchAuction | src/main/java/com/alma/pay2bid/server/Server.java:75-86 | performs `ServerSpec.Launch` in place |
| Servers.Server.PlaceAuction | src/main/java/com/alma/pay2bid/server/Server.java:94-102 | performs `ServerSpec.PlaceAuction` in place |
| Servers.Server.Register | src/main/java/com/alma/pay2bid/server/Server.java:110-120 | performs `ServerSpec.Register` in place |
| Servers.Server.ValidateRegistrations | src/main/java/com/alma/pay2bid/server/Server.java:143-146 | clears the in-progress flag and changes nothing else |
| Servers.Server.RaiseBid | src/main/java/com/alma/pay2bid/server/Server.java:155-161 | performs `ServerSpec.RaiseBid` in place, null dereference included |
| Servers.Server.TimeElapsed | src/main/java/com/alma/pay2bid/server/Server.java:170-211 | when the caller answers, performs `ServerSpec.TimeElapsed` with a top bidder found by the max loop; otherwise only the decrement happens before the throw |
| Servers.Server.Disconnect | src/main/java/com/alma/pay2bid/server/Server.java:129-138 | performs `ServerSpec.Disconnect` in place |
| Servers.Server.CheckConnections | src/main/java/com/alma/pay2bid/server/Server.java:23-47 | performs `ServerSpec.Sweep` in place and makes no calls |
| IntendedServer.RaiseBidInAuction | src/main/java/com/alma/pay2bid/server/Server.java:155-161 | never dereferences null in a consistent state; changes the bids only while an auction runs |
| IntendedServer.TimeElapsedResetting | src/main/java/com/alma/pay2bid/server/Server.java:170-211 | keeps the invariant |
| IntendedServer.RegisterAndLaunch | src/main/java/com/alma/pay2bid/server/Server.java:110-120 | the client joins the tail, and the auction at the head of the queue starts exactly when one waits and the quorum is met |
| IntendedServer.DisconnectResetting | src/main/java/com/alma/pay2bid/server/Server.java:129-138 | keeps the invariant |
| IntendedServer.ElapseAll | src/main/java/com/alma/pay2bid/server/Server.java:37-45 | keeps the invariant |
| IntendedServer.SweepElapsing | src/main/java/com/alma/pay2bid/server/Server.java:23-47 | keeps the invariant |
| IntendedServer.InitialSound | src/main/java/com/alma/pay2bid/server/Server.java:52-58 | the initial server satisfies `Sound` |
| IntendedServer.PlaceKeepsSound | src/main/java/com/alma/pay2bid/server/Server.java:94-102 | placing an auction keeps `Sound` |
| IntendedServer.RegisterKeepsSound | src/main/java/com/alma/pay2bid/server/Server.java:110-120 | registering with the repair keeps `Sound` |
| IntendedServer.RaiseBidKeepsSound | src/main/java/com/alma/pay2bid/server/Server.java:155-161 | a bid never fails and keeps `Sound` |
| IntendedServer.TimeElapsedKeepsSound | src/main/java/com/alma/pay2bid/server/Server.java:170-211 | a response with a legal top-bidder choice keeps `Sound` |
| IntendedServer.DisconnectKeepsSound | src/main/java/com/alma/pay2bid/server/Server.java:129-138 | a disconnect keeps `Sound` |
| IntendedServer.ElapseAllKeepsSound | src/main/java/com/alma/pay2bid/server/Server.java:37-45 | any number of responses keep `Sound` |
| IntendedServer.SweepKeepsSound | src/main/java/com/alma/pay2bid/server/Server.java:23-47 | the repaired daemon keeps `Sound` |
| IntendedServer.PricedRoundRaisesPrice | src/main/java/com/alma/pay2bid/server/Server.java:188-209 | every round with bids strictly raises the price |
| IntendedServer.LaunchStartsWithoutWinner | src/main/java/com/alma/pay2bid/server/Server.java:94-120 | with the repairs, an auction launched by placing it or by the registration that completes the quorum has no winner on record |
| IntendedServer.RelaunchStartsWithoutWinner | src/main/java/com/alma/pay2bid/server/Server.java:175-187 | after a blank round no winner is on record |
| IntendedServer.SweepClosesRound | src/main/java/com/alma/pay2bid/server/Server.java:23-47 | in a round without bids and with nothing queued, a crash that owed the last response ends the auction and the survivors hear the outcome |
| IntendedServer.SweepClosesPricedRound | src/main/java/com/alma/pay2bid/server/Server.java:23-47 | in a round with bids, a crash that owed the last response closes the round: the price becomes the highest bid, strictly above the old one, the chosen top bidder is the winner, the bids are cleared, the count restarts over the survivors and they hear the new price |
| IntendedServer.BlankAuctionSoldToPreviousWinner | src/main/java/com/alma/pay2bid/server/Server.java:175-187 | the buyer wins at 150; a second auction without bids is then announced as sold to that buyer again |
| IntendedServer.BlankAuctionSoldToNobody | src/main/java/com/alma/pay2bid/server/Server.java:175-187 | with the repair the second auction is announced as sold to nobody |
| IntendedServer.QueuedAuctionNeverStarts | src/main/java/com/alma/pay2bid/server/Server.java:99 | an auction placed before the quorum is still waiting after the quorum arrives and after another is placed |
| IntendedServer.WaitingQueueStaysStuck | src/main/java/com/alma/pay2bid/server/Server.java:94-120 | with nothing running and a nonempty queue, neither registering nor placing starts anything |
| IntendedServer.RegistrationStartsQueuedAuction | src/main/java/com/alma/pay2bid/server/Server.java:110-120 | with the repair the second registration starts the waiting auction |
| IntendedServer.StaleBidLowersPrice | src/main/java/com/alma/pay2bid/server/Server.java:155-161 | a bid between auctions carries over; the next auction's price falls from 1000 to 11 and the late bidder wins |
| IntendedServer.StaleBidIgnored | src/main/java/com/alma/pay2bid/server/Server.java:155-161 | with the repair the same bid changes nothing |
| IntendedServer.DaemonStallsRound | src/main/java/com/alma/pay2bid/server/Server.java:23-47 | after a crash owing the last response, the auction stays open with the count at 0, then -1, and no calls |
| IntendedServer.StalledRoundStaysOpen | src/main/java/com/alma/pay2bid/server/Server.java:171-173 | a running auction whose count is not positive is never closed by `timeElapsed` |
| IntendedServer.DaemonClosesRound | src/main/java/com/alma/pay2bid/server/Server.java:23-47 | with the repair the same crash ends the auction, announced to both survivors |
| Decimal.JavaDiv | src/main/java/com/alma/pay2bid/client/Client.java:44 | the quotient truncates toward zero: the remainder has the dividend's sign and is smaller than the divisor |
| Decimal.NatToString | src/main/java/com/alma/pay2bid/client/Client.java:44 | at least one digit, digits only, no leading zero |
| Decimal.IntToString | src/main/java/com/alma/pay2bid/client/Client.java:44 | `Long.toString`: at least one character, a leading minus exactly for negative values, digits elsewhere |
| Decimal.NatRoundTrip | src/main/java/com/alma/pay2bid/client/Client.java:44 | digits read back as the number |
| Decimal.IntRoundTrip | src/main/java/com/alma/pay2bid/client/Client.java:44 | the displayed text reads back as the value, negative values included |
| Clients.Identifier | src/main/java/com/alma/pay2bid/client/Client.java:102-103 | the identifier is the name followed by " #" and the UUID's first four characters |
| Clients.IdentifierDeterminesName | src/main/java/com/alma/pay2bid/client/Client.java:102-103 | equal identifiers mean equal names and equal UUID prefixes |
| Clients.Updates | src/main/java/com/alma/pay2bid/client/Client.java:133-135 | each observer receives the event once, in collection order |
| Clients.Publish | src/main/java/com/alma/pay2bid/client/Client.java:133-135 | the notification loop makes exactly those updates |
| Clients.Tick | src/main/java/com/alma/pay2bid/client/Client.java:41-59 | one run with one refresh left calls `timeElapsed` unless the client is the seller, and nothing else; any other run updates every timer observer, in order, with a timer event |
| Clients.Countdown | src/main/java/com/alma/pay2bid/client/Client.java:41-59 | successive runs make only this client's `timeElapsed` calls and timer updates to its observers |
| Clients.TickSends | src/main/java/com/alma/pay2bid/client/Client.java:41-59 | a run calls the server exactly when one refresh was left and the client is not the seller; otherwise it only shows observers the seconds left, as text that reads back as that number |
| Clients.CountdownSendsOnce | src/main/java/com/alma/pay2bid/client/Client.java:41-53 | from m refreshes left, the countdown calls the server once, at run m if reached and not seller then, and never again |
| Clients.FreshCountdown | src/main/java/com/alma/pay2bid/client/Client.java:34 | a fresh countdown calls the server at most once, exactly when it reaches its 30th run as a non-seller |
| Clients.SellerNeverRecognised | src/main/java/com/alma/pay2bid/client/Client.java:118-123 | the seller field holding the client's name never equals its identifier, so a seller is not flagged and its fresh countdown calls `timeElapsed` once |
| Clients.SellerRecognised | src/main/java/com/alma/pay2bid/client/Client.java:118-123 | compared with the name, the seller field flags the seller, whose countdown never calls `timeElapsed` |
| Clients.TimerManager.constructor | src/main/java/com/alma/pay2bid/client/Client.java:33-38 | a task starts with 30000 ms, no text and not cancelled |
| Clients.TimerManager.Run | src/main/java/com/alma/pay2bid/client/Client.java:41-59 | one run removes a refresh, stores the seconds-left text and makes the effects of `Tick` |
| Clients.TimerManager.Cancel | src/main/java/com/alma/pay2bid/client/Client.java:163 | the task is cancelled and its clock is untouched |
| Clients.Client.constructor | src/main/java/com/alma/pay2bid/client/Client.java:98-110 | the identity holds the UUID, the name as login, the default password and the identifier; the client is WAITING, not a seller, with no auction, no timer and no observers |
| Clients.Client.GetIdentifier | src/main/java/com/alma/pay2bid/client/Client.java:275-276 | returns the identifier recorded in the identity at construction |
| Clients.Client.GetState | src/main/java/com/alma/pay2bid/client/Client.java:217-220 | returns the client's current state |
| Clients.Client.SetState | src/main/java/com/alma/pay2bid/client/Client.java:222-225 | only the state changes, and the class invariant is kept |
| Clients.Client.NewAuction | src/main/java/com/alma/pay2bid/client/Client.java:118-136 | the client is seller exactly when its identifier is the auction's seller; the auction becomes current, a fresh countdown with no text starts (an older one is not cancelled), the client is WAITING, observers hear of the auction |
| Clients.Client.NewPrice | src/main/java/com/alma/pay2bid/client/Client.java:184-203 | without a current auction it fails and changes nothing; otherwise the current auction takes the price whatever the UUID, the old countdown is cancelled with its clock untouched and a fresh one with no text starts, the client is WAITING, observers hear the price |
| Clients.Client.BidSold | src/main/java/com/alma/pay2bid/client/Client.java:155-175 | without a current auction it fails and changes nothing; otherwise auction and timer are cleared, the countdown is cancelled with its clock untouched, the client is ENDING and not a seller, observers hear the buyer or that there is none |
| Clients.Client.AddNewPriceObserver | src/main/java/com/alma/pay2bid/client/Client.java:227-230 | appends the observer and reports success |
| Clients.Client.RemoveNewPriceObserver | src/main/java/com/alma/pay2bid/client/Client.java:232-235 | removes its first occurrence and reports whether it was there |
| Clients.Client.AddBidSoldObserver | src/main/java/com/alma/pay2bid/client/Client.java:237-240 | appends the observer and reports success |
| Clients.Client.RemoveBidSoldObserver | src/main/java/com/alma/pay2bid/client/Client.java:242-245 | removes its first occurrence and reports whether it was there |
| Clients.Client.AddNewAuctionObserver | src/main/java/com/alma/pay2bid/client/Client.java:247-250 | appends the observer and reports success |
| Clients.Client.RemoveNewAuctionObserver | src/main/java/com/alma/pay2bid/client/Client.java:252-255 | removes its first occurrence and reports whether it was there |
| Clients.Client.AddTimerObserver | src/main/java/com/alma/pay2bid/client/Client.java:257-260 | appends the observer and reports success |
| Clients.Client.RemoveTimerObserver | src/main/java/com/alma/pay2bid/client/Client.java:262-265 | removes its first occurrence and reports whether it was there |
| Clients.AddThenRemove | src/main/java/com/alma/pay2bid/client/Client.java:227-235 | removing a newly added observer that was not already registered restores the collection |

## Left out

- Logging is not modelled. This includes Server.java:80 and :98, which call a `getVendeur` getter that `AuctionBean` does not declare.
- The GUI, `Main` and the RMI registry are not modelled. Nor are `Client.submit`, `getServer`, `getName`/`setName`, `getIsSeller`/`setIsSeller` (folded into `NewAuction`), the `ClientBean` accessors or `TimerManager.getTimeString`/`setTimeString`.
- The server's getters `GetCurrentAuction` and `GetWinner` are plain field reads with no contract.
- Timer scheduling is not modelled: the 1000 ms period of the countdown and the 5000 ms period of the daemon. Each `Run` or `CheckConnections` call is one scheduled run.
- `synchronized`, `wait` and `notifyAll` are not modelled, nor the interleavings of remote calls (`disconnect` is not synchronized).
- Servers.Server.Register: the wait while an auction runs is its precondition `!auctionInProgress`, not a blocking wait.
- A `RemoteException` from a client during a push loop is not modelled: in the code it aborts the loop, and the model always makes every call.
- The remote `getIdentifier` call on the buyer in `bidSold`'s log line is not modelled.
- ServerSpec.TimeElapsed: `nbParticipants` is an unbounded integer, so the 32-bit wrap-around after 2^31 decrements of a stalled round is not modelled.
- Random UUIDs are parameters. The format of their text is reduced to its length of 36.
- The order in which `HashMap` iterates is not modelled: the winner of a round is any top bidder (`ServerSpec.Chosen`).
- Servers.Server.TimeElapsed: one `answers` flag covers both `client.getName()` calls, at Server.java:172 and :199. A client that answers the first call but fails the second would throw after the price and winner are set and before the count is reset, the bids are cleared and the new price is pushed; that case is not modelled.
- Servers.Server.Disconnect: the departing client is the caller, so its `getName()` is taken to answer.
- Clients.Client.BidSold: requires the class invariant that a current auction has a countdown. This excludes a second null dereference at `timer.cancel()`, which the code never reaches.
- ValueComparators.ValueComparator.Compare: requires both clients to have a bid. The `NullPointerException` that `compare` throws when one has none (ValueComparator.java:16) is not modelled; the server never uses the comparator.
- Servers.Server.CheckConnections: passes `answers = false` for every removed client. This assumes that a client whose probe failed also fails the second `getName()` at Server.java:172, as a closed connection does; a client that failed only transiently and answers again is not modelled. The first finding rests on this assumption.
- Null arguments are not modelled (setters given null, a null auction placed), since the GUI never passes them.
- The `ValueComparator` constructor's copy is the value semantics of the datatype. The server never uses the comparator.

## Findings

| source | as written | input that shows it | evidently intended | confidence | as-written member | corrected member |
|---|---|---|---|---|---|---|
| src/main/java/com/alma/pay2bid/server/Server.java:37-45 | the daemon calls `timeElapsed` on a removed client, whose `getName()` on line 172 throws after the decrement and before the closure test | clients S, B, L; an auction starts (2 owed); B times out; L crashes: the count reaches 0 with the auction still open, and every later `timeElapsed` goes below 0 | a crashed client counts as a full timeout, so the round closes | not executed | IntendedServer.DaemonStallsRound | IntendedServer.SweepElapsing |
| src/main/java/com/alma/pay2bid/server/Server.java:175-187 | `winner` is never reset, so a blank round announces whoever won the previous round, even in another auction | B wins the first auction at 150; the next auction gets no bid and is announced as sold to B | an auction whose rounds get no bid is sold to nobody | not executed | IntendedServer.BlankAuctionSoldToPreviousWinner | IntendedServer.TimeElapsedResetting |
| src/main/java/com/alma/pay2bid/server/Server.java:99-120 | `register` never starts a waiting auction, and `placeAuction` starts one only when the queue holds exactly it | S registers and places an auction; B registers; another auction is placed: two auctions wait, a quorum is present, and nothing runs | reaching the quorum starts the auction at the head of the queue | not executed | IntendedServer.QueuedAuctionNeverStarts | IntendedServer.RegisterAndLaunch |
| src/main/java/com/alma/pay2bid/server/Server.java:155-161 | `raiseBid` does not check that an auction is in progress, and the bids are not cleared at launch | an auction at 10 ends blank; a new client bids 11; an auction at 1000 starts; nobody else bids: its price becomes 11 and the late bidder wins | bids count only during an auction, and a round only raises the price | not executed | IntendedServer.StaleBidLowersPrice | IntendedServer.RaiseBidInAuction |
| src/main/java/com/alma/pay2bid/client/Client.java:118-123 | `newAuction` flags the seller by comparing the auction's seller field with the identifier (name, " #", four UUID characters), while the auction form (gui/listeners/SubmitAuctionListener.java:31) fills that field with the name | a client named alice places an auction; the seller field is "alice" and the identifier "alice #1a2b": the client is not flagged, its countdown calls `timeElapsed`, and since `launchAuction` owes only one response per non-seller, each round closes one response early | the seller recognises its own auction and never answers the countdown | not executed | Clients.SellerNeverRecognised | Clients.SellerRecognised |
