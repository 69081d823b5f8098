/** The auction house's server as a state machine over values. One auction
    runs at a time; the others wait in a FIFO queue. A round ends when the
    count of responses still owed reaches exactly 0; a round without bids ends
    the auction, a round with bids sets the price to the highest bid.
    Remote calls the server makes on its clients are returned, in order, as
    `Call`s. */
module ServerSpec {
  import opened Basics
  import opened Seqs
  import opened AuctionBeans

  /** An auction starts only when at least this many clients are registered. */
  const MIN_NUMBER_CLIENTS: nat := 2

  /** A remote call the server makes on a client. */
  datatype Message =
    | NewAuction(auction: Auction)
    | NewPrice(uuid: Option<Uuid>, price: Int32)
    | BidSold(buyer: Option<ClientId>)
    | SetState(state: ClientState)

  datatype Call = Call(to: ClientId, msg: Message)

  /** The fields of the server. */
  datatype State = State(
    auctionInProgress: bool,
    currentAuction: Option<Auction>,
    winner: Option<ClientId>,
    nbParticipants: int,
    clients: seq<ClientId>,
    auctions: seq<Auction>,
    bidByClient: map<ClientId, Int32>)

  /** The state after an operation and the calls it made on the way. */
  datatype Step = Step(next: State, calls: seq<Call>)

  /** How an operation that may dereference a null auction ends. */
  datatype Reply = Returned(step: Step) | NullDereference

  const Initial: State := State(false, None, None, 0, [], [], map[])

  /** What every reachable state satisfies: a running auction and recorded
      bids imply a current auction, and no bid is `Integer.MIN_VALUE` (a bid
      always exceeds some price). */
  predicate Inv(s: State)
  {
    && (s.auctionInProgress ==> s.currentAuction.Some?)
    && (s.bidByClient != map[] ==> s.currentAuction.Some?)
    && (forall c :: c in s.bidByClient ==> s.bidByClient[c] > INT32_MIN)
  }

  /** Every recorded bid exceeds the current price. */
  predicate BidsAbovePrice(s: State)
  {
    forall c :: c in s.bidByClient ==>
      s.currentAuction.Some? && s.bidByClient[c] > s.currentAuction.value.price
  }

  /** The same message sent to each client of the list, in list order. */
  function Broadcast(clients: seq<ClientId>, msg: Message): (r: seq<Call>)
    ensures |r| == |clients|
    ensures forall i :: 0 <= i < |r| ==> r[i] == Call(clients[i], msg)
  {
    if clients == [] then []
    else Broadcast(clients[..|clients| - 1], msg) + [Call(clients[|clients| - 1], msg)]
  }

  /** The highest bid of a round. */
  ghost function MaxBid(bids: map<ClientId, Int32>): (m: Int32)
    requires bids != map[]
    ensures m in bids.Values
    ensures forall c :: c in bids ==> bids[c] <= m
    decreases |bids|
  {
    var c :| c in bids;
    var rest := bids - {c};
    assert bids[c] in bids.Values;
    assert forall d :: d in bids && d != c ==> d in rest && rest[d] == bids[d];
    if rest == map[] then bids[c]
    else
      var m := MaxBid(rest);
      var k :| k in rest && rest[k] == m;
      assert bids[k] == m;
      if bids[c] <= m then m else bids[c]
  }

  /** `launchAuction`: the head of the queue becomes the current auction and
      every registered client but the seller owes a response. */
  function Launch(s: State): (r: Step)
    requires s.auctions != []
    ensures r.next.currentAuction == Some(s.auctions[0])
    ensures s.auctions == [s.auctions[0]] + r.next.auctions
    ensures r.next.auctionInProgress
    ensures r.next.nbParticipants == |s.clients| - 1
    ensures r.next.clients == s.clients && r.next.winner == s.winner
    ensures r.next.bidByClient == s.bidByClient
    ensures |r.calls| == |s.clients|
    ensures forall i :: 0 <= i < |s.clients| ==> r.calls[i] == Call(s.clients[i], NewAuction(s.auctions[0]))
  {
    var head := s.auctions[0];
    var next := s.(
      auctionInProgress := true,
      nbParticipants := |s.clients| - 1,
      currentAuction := Some(head),
      auctions := s.auctions[1..]);
    Step(next, Broadcast(s.clients, NewAuction(head)))
  }

  /** Whether `placeAuction` starts the auction it is given. */
  predicate PlaceLaunches(s: State)
  {
    !s.auctionInProgress && s.auctions == [] && |s.clients| >= MIN_NUMBER_CLIENTS
  }

  /** `placeAuction`: the auction gets its UUID and joins the tail of the
      queue; it starts at once exactly when nothing runs, nothing else
      waits and there is a quorum. */
  function PlaceAuction(s: State, auction: Auction, id: Uuid): (r: Step)
    ensures PlaceLaunches(s) ==>
      && r.next.auctionInProgress
      && r.next.currentAuction == Some(auction.(uuid := Some(id)))
      && r.next.auctions == []
      && |r.calls| == |s.clients|
    ensures PlaceLaunches(s) ==> r == Launch(s.(auctions := [auction.(uuid := Some(id))]))
    ensures !PlaceLaunches(s) ==>
      && r.next == s.(auctions := s.auctions + [auction.(uuid := Some(id))])
      && r.calls == []
  {
    var queued := s.(auctions := s.auctions + [auction.(uuid := Some(id))]);
    if !queued.auctionInProgress && |queued.auctions| == 1 && |queued.clients| >= MIN_NUMBER_CLIENTS then
      Launch(queued)
    else
      Step(queued, [])
  }

  /** `register`, once no auction is in progress: the client joins the tail of the list. */
  function Register(s: State, c: ClientId): (r: State)
    requires !s.auctionInProgress
    ensures r.clients == s.clients + [c]
    ensures r.(clients := s.clients) == s
  {
    s.(clients := s.clients + [c])
  }

  /** Whether `raiseBid` records a bid, given the state the client reports. */
  predicate Accepts(s: State, st: ClientState, bid: Int32)
  {
    st == Waiting && s.currentAuction.Some? && bid > s.currentAuction.value.price
  }

  /** `raiseBid`: records the bid and sets the client to `RAISING` exactly when
      the client is `WAITING` and the bid beats the current price; a waiting
      client before any auction dereferences a null auction. */
  function RaiseBid(s: State, c: ClientId, st: ClientState, bid: Int32): (r: Reply)
    ensures r.NullDereference? <==> st == Waiting && s.currentAuction.None?
    ensures r.Returned? && Accepts(s, st, bid) ==>
      r.step == Step(s.(bidByClient := s.bidByClient[c := bid]), [Call(c, SetState(Raising))])
    ensures r.Returned? && !Accepts(s, st, bid) ==> r.step == Step(s, [])
    ensures Inv(s) && r.Returned? ==> Inv(r.step.next)
    ensures BidsAbovePrice(s) && r.Returned? ==> BidsAbovePrice(r.step.next)
  {
    if st != Waiting then Returned(Step(s, []))
    else if s.currentAuction.None? then NullDereference
    else if bid > s.currentAuction.value.price then
      Returned(Step(s.(bidByClient := s.bidByClient[c := bid]), [Call(c, SetState(Raising))]))
    else Returned(Step(s, []))
  }

  /** Whether the next `timeElapsed` closes a round that had bids. */
  predicate ClosesWithBids(s: State)
  {
    s.nbParticipants == 1 && s.bidByClient != map[]
  }

  /** Whether the next `timeElapsed` closes a round without bids. */
  predicate ClosesBlank(s: State)
  {
    s.nbParticipants == 1 && s.bidByClient == map[]
  }

  /** The loop over the bid map keeps the first maximal entry in the map's
      iteration order, which is unspecified: `w` may be any top bidder. */
  ghost predicate Chosen(s: State, w: ClientId)
  {
    ClosesWithBids(s) ==> w in s.bidByClient && s.bidByClient[w] == MaxBid(s.bidByClient)
  }

  /** `timeElapsed` for a client that answers: one response fewer is owed;
      the round closes only when that makes the count exactly 0. */
  ghost function TimeElapsed(s: State, w: ClientId): (r: Step)
    requires Inv(s)
    ensures Inv(r.next)
  {
    var n := s.nbParticipants - 1;
    if n != 0 then
      Step(s.(nbParticipants := n), [])
    else if s.bidByClient == map[] then
      var sold := Broadcast(s.clients, BidSold(s.winner));
      var ended := s.(nbParticipants := n, auctionInProgress := false);
      if ended.auctions != [] && |ended.clients| >= MIN_NUMBER_CLIENTS then
        var launched := Launch(ended);
        Step(launched.next, sold + launched.calls)
      else
        Step(ended, sold)
    else
      var price := MaxBid(s.bidByClient);
      var auction := s.currentAuction.value;
      var next := s.(
        currentAuction := Some(auction.(price := price)),
        winner := Some(w),
        nbParticipants := |s.clients| - 1,
        bidByClient := map[]);
      Step(next, Broadcast(s.clients, NewPrice(auction.uuid, price)))
  }

  /** `disconnect`: the client's `timeElapsed`, then the first occurrence of
      the client leaves the list. */
  ghost function Disconnect(s: State, c: ClientId, w: ClientId): (r: Step)
    requires Inv(s)
    ensures Inv(r.next)
  {
    var t := TimeElapsed(s, w);
    Step(t.next.(clients := RemoveFirst(t.next.clients, c)), t.calls)
  }

  /** `ConnectionDaemon.run` as the code stands: every client that fails the
      probe leaves the list, then `timeElapsed` runs once per removed entry.
      Each of those calls decrements the count and then fails on the log
      line's `getName()` on the dead client, before the closure test. */
  function Sweep(s: State, dead: set<ClientId>): (r: State)
    ensures forall c :: c in r.clients <==> c in s.clients && c !in dead
    ensures forall c :: c !in dead ==> multiset(r.clients)[c] == multiset(s.clients)[c]
    ensures r.nbParticipants == s.nbParticipants - (|s.clients| - |r.clients|)
    ensures r.(clients := s.clients, nbParticipants := s.nbParticipants) == s
  {
    FilterPartition(s.clients, dead);
    forall c | c !in dead
      ensures multiset(Filter(s.clients, dead, false))[c] == multiset(s.clients)[c]
    {
      FilterCount(s.clients, dead, false, c);
    }
    var gone := Filter(s.clients, dead, true);
    s.(clients := Filter(s.clients, dead, false), nbParticipants := s.nbParticipants - |gone|)
  }

  // ---------------------------------------------------------------------
  // Properties of round closure

  /** A `timeElapsed` that does not bring the count to exactly 0 only counts
      down, whatever the count was, negative included. */
  lemma CountsDown(s: State, w: ClientId)
    requires Inv(s)
    requires s.nbParticipants != 1
    ensures TimeElapsed(s, w) == Step(s.(nbParticipants := s.nbParticipants - 1), [])
  {
  }

  /** A round with bids: the price becomes the highest bid, which the new
      winner holds and which beats the old price when every bid did; the
      count restarts, the bids are cleared and every client hears the price. */
  lemma RoundWithBids(s: State, w: ClientId)
    requires Inv(s) && ClosesWithBids(s) && Chosen(s, w)
    ensures var r := TimeElapsed(s, w);
      && r.next.currentAuction.Some?
      && var price := r.next.currentAuction.value.price;
      && price in s.bidByClient.Values
      && (forall c :: c in s.bidByClient ==> s.bidByClient[c] <= price)
      && r.next.winner == Some(w) && s.bidByClient[w] == price
      && (BidsAbovePrice(s) ==> price > s.currentAuction.value.price)
      && r.next.currentAuction.value == s.currentAuction.value.(price := price)
      && r.next.nbParticipants == |s.clients| - 1
      && r.next.bidByClient == map[]
      && r.next.auctionInProgress == s.auctionInProgress
      && r.next.clients == s.clients && r.next.auctions == s.auctions
      && r.calls == Broadcast(s.clients, NewPrice(s.currentAuction.value.uuid, price))
  {
  }

  /** A round without bids ends the auction: every client hears the winner on
      record, which is left as it was; the next queued auction starts exactly
      when there is one and a quorum. */
  lemma BlankRound(s: State, w: ClientId)
    requires Inv(s) && ClosesBlank(s)
    ensures var r := TimeElapsed(s, w);
      var relaunch := s.auctions != [] && |s.clients| >= MIN_NUMBER_CLIENTS;
      && r.next.winner == s.winner
      && r.next.auctionInProgress == relaunch
      && r.calls[..|s.clients|] == Broadcast(s.clients, BidSold(s.winner))
      && (relaunch ==> r.next.currentAuction == Some(s.auctions[0]) && r.next.auctions == s.auctions[1..])
      && (!relaunch ==> r.calls == Broadcast(s.clients, BidSold(s.winner)) && r.next.auctions == s.auctions)
      && r.next.bidByClient == map[]
      && r.next.nbParticipants == (if relaunch then |s.clients| - 1 else 0)
      && r.next.clients == s.clients
      && (!relaunch ==> r.next.currentAuction == s.currentAuction)
      && (relaunch ==> r.calls[|s.clients|..] == Broadcast(s.clients, NewAuction(s.auctions[0])))
  {
  }

  /** A departing client is still counted, and still told, when its own
      `timeElapsed` closes the round; afterwards one occurrence of it is gone. */
  lemma DisconnectAfterElapse(s: State, c: ClientId, w: ClientId)
    requires Inv(s)
    requires c in s.clients
    ensures var r := Disconnect(s, c, w);
      var t := TimeElapsed(s, w);
      && r.calls == t.calls
      && multiset(r.next.clients) == multiset(t.next.clients) - multiset{c}
      && r.next.nbParticipants == t.next.nbParticipants
  {
    var t := TimeElapsed(s, w);
    assert t.next.clients == s.clients;
  }
}
