/** The server with four defects of the code repaired, each by one change to
    the operation concerned, and the invariant `Sound` that the repaired
    operations keep. The code's own behaviour is `ServerSpec`; the traces at
    the end of this module show what each defect does there.

    The repairs:
    - `RaiseBidInAuction`: a bid is considered only while an auction runs;
    - `TimeElapsedResetting`: a blank round forgets the winner it announced;
    - `RegisterAndLaunch`: a registration that completes the quorum starts
      the auction waiting at the head of the queue;
    - `SweepElapsing`: a client found dead counts as one full `timeElapsed`,
      closure included. */
module IntendedServer {
  import opened Basics
  import opened Seqs
  import opened AuctionBeans
  import opened ServerSpec

  /** `raiseBid`, ignoring bids while no auction is in progress. */
  function RaiseBidInAuction(s: State, c: ClientId, st: ClientState, bid: Int32): (r: Reply)
    ensures Inv(s) ==> r.Returned?
    ensures r.Returned? && r.step.next.bidByClient != s.bidByClient ==> s.auctionInProgress
  {
    if s.auctionInProgress then RaiseBid(s, c, st, bid) else Returned(Step(s, []))
  }

  /** `timeElapsed`, resetting the winner once a blank round has announced it. */
  ghost function TimeElapsedResetting(s: State, w: ClientId): (r: Step)
    requires Inv(s)
    ensures Inv(r.next)
  {
    var t := TimeElapsed(s, w);
    if ClosesBlank(s) then Step(t.next.(winner := None), t.calls) else t
  }

  /** `register`, then launching the head of the queue if that completes the quorum. */
  function RegisterAndLaunch(s: State, c: ClientId): (r: Step)
    requires !s.auctionInProgress
    ensures r.next.clients == s.clients + [c]
    ensures r.next.auctionInProgress <==> s.auctions != [] && |s.clients| + 1 >= MIN_NUMBER_CLIENTS
    ensures r.next.auctionInProgress ==> r.next.currentAuction == Some(s.auctions[0])
  {
    var r := Register(s, c);
    if r.auctions != [] && |r.clients| >= MIN_NUMBER_CLIENTS then Launch(r) else Step(r, [])
  }

  /** `disconnect` over the repaired `timeElapsed`. */
  ghost function DisconnectResetting(s: State, c: ClientId, w: ClientId): (r: Step)
    requires Inv(s)
    ensures Inv(r.next)
  {
    var t := TimeElapsedResetting(s, w);
    Step(t.next.(clients := RemoveFirst(t.next.clients, c)), t.calls)
  }

  /** One repaired `timeElapsed` per entry of `ws`, the top bidder each picks. */
  ghost function ElapseAll(s: State, ws: seq<ClientId>): (r: Step)
    requires Inv(s)
    ensures Inv(r.next)
    decreases |ws|
  {
    if ws == [] then Step(s, [])
    else
      var t := TimeElapsedResetting(s, ws[0]);
      var u := ElapseAll(t.next, ws[1..]);
      Step(u.next, t.calls + u.calls)
  }

  /** Every pick of `ws` is a top bidder in the state it is made in. */
  ghost predicate AllChosen(s: State, ws: seq<ClientId>)
    requires Inv(s)
    decreases |ws|
  {
    ws == [] || (Chosen(s, ws[0]) && AllChosen(TimeElapsedResetting(s, ws[0]).next, ws[1..]))
  }

  /** The connection daemon with each dead client counted as a timeout. */
  ghost function SweepElapsing(s: State, dead: set<ClientId>, ws: seq<ClientId>): (r: Step)
    requires Inv(s)
    requires |ws| == |Filter(s.clients, dead, true)|
    ensures Inv(r.next)
  {
    ElapseAll(s.(clients := Filter(s.clients, dead, false)), ws)
  }

  /** What the repaired server keeps: bids beat the current price; between
      auctions there are no bids, no winner and no response owed; and no
      auction waits while nothing runs and a quorum is registered. */
  ghost predicate Sound(s: State)
  {
    && Inv(s)
    && BidsAbovePrice(s)
    && (!s.auctionInProgress ==>
          && s.bidByClient == map[]
          && s.winner == None
          && s.nbParticipants <= 0
          && (s.auctions == [] || |s.clients| < MIN_NUMBER_CLIENTS))
  }

  // ---------------------------------------------------------------------
  // The repaired operations keep `Sound`

  lemma InitialSound()
    ensures Sound(Initial)
  {
  }

  lemma PlaceKeepsSound(s: State, a: Auction, id: Uuid)
    requires Sound(s)
    ensures Sound(PlaceAuction(s, a, id).next)
  {
  }

  lemma RegisterKeepsSound(s: State, c: ClientId)
    requires Sound(s) && !s.auctionInProgress
    ensures Sound(RegisterAndLaunch(s, c).next)
  {
  }

  /** A bid is considered only during an auction, which always has a price. */
  lemma RaiseBidKeepsSound(s: State, c: ClientId, st: ClientState, bid: Int32)
    requires Sound(s)
    ensures RaiseBidInAuction(s, c, st, bid).Returned?
    ensures Sound(RaiseBidInAuction(s, c, st, bid).step.next)
  {
  }

  lemma TimeElapsedKeepsSound(s: State, w: ClientId)
    requires Sound(s) && Chosen(s, w)
    ensures Sound(TimeElapsedResetting(s, w).next)
  {
    if ClosesWithBids(s) {
      RoundWithBids(s, w);
    } else if ClosesBlank(s) {
      BlankRound(s, w);
    }
  }

  lemma DisconnectKeepsSound(s: State, c: ClientId, w: ClientId)
    requires Sound(s) && Chosen(s, w)
    ensures Sound(DisconnectResetting(s, c, w).next)
  {
    TimeElapsedKeepsSound(s, w);
  }

  lemma {:induction false} ElapseAllKeepsSound(s: State, ws: seq<ClientId>)
    requires Sound(s) && AllChosen(s, ws)
    ensures Sound(ElapseAll(s, ws).next)
    decreases |ws|
  {
    if ws != [] {
      TimeElapsedKeepsSound(s, ws[0]);
      ElapseAllKeepsSound(TimeElapsedResetting(s, ws[0]).next, ws[1..]);
    }
  }

  lemma SweepKeepsSound(s: State, dead: set<ClientId>, ws: seq<ClientId>)
    requires Sound(s)
    requires |ws| == |Filter(s.clients, dead, true)|
    requires AllChosen(s.(clients := Filter(s.clients, dead, false)), ws)
    ensures Sound(SweepElapsing(s, dead, ws).next)
  {
    ElapseAllKeepsSound(s.(clients := Filter(s.clients, dead, false)), ws);
  }

  // ---------------------------------------------------------------------
  // What `Sound` buys

  /** Every round with bids raises the price strictly. */
  lemma PricedRoundRaisesPrice(s: State, w: ClientId)
    requires Sound(s) && ClosesWithBids(s) && Chosen(s, w)
    ensures TimeElapsedResetting(s, w).next.currentAuction.value.price > s.currentAuction.value.price
  {
    RoundWithBids(s, w);
  }

  /** Every first launch, by placing an auction or by the registration that
      completes the quorum, starts with no winner on record, so a first
      round without bids sells to nobody. */
  lemma LaunchStartsWithoutWinner(s: State, a: Auction, id: Uuid, c: ClientId)
    requires Sound(s) && !s.auctionInProgress
    ensures PlaceAuction(s, a, id).next.winner == None
    ensures RegisterAndLaunch(s, c).next.winner == None
  {
  }

  /** A blank round after a relaunch by the repaired `timeElapsed` also finds no winner. */
  lemma RelaunchStartsWithoutWinner(s: State, w: ClientId)
    requires Sound(s) && ClosesBlank(s)
    ensures TimeElapsedResetting(s, w).next.winner == None
  {
  }

  /** A crash that owes the last response closes the round: with no bids and
      nothing queued, the auction ends and the remaining clients are told. */
  lemma SweepClosesRound(s: State, dead: set<ClientId>, w: ClientId)
    requires Sound(s) && s.auctionInProgress
    requires s.nbParticipants == 1 && s.bidByClient == map[] && s.auctions == []
    requires |Filter(s.clients, dead, true)| == 1
    ensures var r := SweepElapsing(s, dead, [w]);
      && !r.next.auctionInProgress
      && r.calls == Broadcast(Filter(s.clients, dead, false), BidSold(s.winner))
  {
    var t := s.(clients := Filter(s.clients, dead, false));
    BlankRound(t, w);
    var e := TimeElapsedResetting(t, w);
    assert [w][1..] == [];
    assert ElapseAll(t, [w]) == Step(e.next, e.calls + []);
    assert e.calls + [] == e.calls;
  }

  /** A crash that owes the last response of a round with bids closes that
      round as a full response would: the price becomes the highest bid,
      strictly above the old price, held by the new winner; a new round
      starts among the survivors, who hear the new price. */
  lemma SweepClosesPricedRound(s: State, dead: set<ClientId>, w: ClientId)
    requires Sound(s) && s.auctionInProgress
    requires s.nbParticipants == 1 && s.bidByClient != map[]
    requires |Filter(s.clients, dead, true)| == 1
    requires Chosen(s, w)
    ensures var r := SweepElapsing(s, dead, [w]);
      var live := Filter(s.clients, dead, false);
      var price := MaxBid(s.bidByClient);
      && r.next.auctionInProgress
      && r.next.currentAuction == Some(s.currentAuction.value.(price := price))
      && price > s.currentAuction.value.price
      && r.next.winner == Some(w)
      && r.next.clients == live
      && r.next.nbParticipants == |live| - 1
      && r.next.bidByClient == map[]
      && r.calls == Broadcast(live, NewPrice(s.currentAuction.value.uuid, price))
  {
    var t := s.(clients := Filter(s.clients, dead, false));
    RoundWithBids(t, w);
    var e := TimeElapsedResetting(t, w);
    assert [w][1..] == [];
    assert ElapseAll(t, [w]) == Step(e.next, e.calls + []);
    assert e.calls + [] == e.calls;
  }

  // ---------------------------------------------------------------------
  // The defects, as traces of the code's own operations

  const Seller := ClientId(0)
  const Buyer := ClientId(1)
  const Latecomer := ClientId(2)
  const Id1 := Uuid("11111111-1111-1111-1111-111111111111")
  const Id2 := Uuid("22222222-2222-2222-2222-222222222222")

  function Item(price: Int32): Auction
  {
    Auction(None, price, "item", "an item", "seller")
  }

  /** The scenario of a buyer outbidding the asking price once: two clients,
      the asking price 100, one bid of 150; the next round is blank and the
      buyer wins at 150. Then a second auction, queued meanwhile, starts and
      nobody bids on it: the code announces the first auction's buyer again. */
  lemma BlankAuctionSoldToPreviousWinner()
    ensures
      var s0 := Register(Register(Initial, Seller), Buyer);
      var s1 := PlaceAuction(s0, Item(100), Id1).next;
      var s2 := PlaceAuction(s1, Item(200), Id2).next;
      var s3 := RaiseBid(s2, Buyer, Waiting, 150).step.next;
      var s4 := TimeElapsed(s3, Buyer);
      var s5 := TimeElapsed(s4.next, Buyer);
      var s6 := TimeElapsed(s5.next, Buyer);
      && s4.next.currentAuction.value.price == 150
      && s5.calls[..2] == [Call(Seller, BidSold(Some(Buyer))), Call(Buyer, BidSold(Some(Buyer)))]
      && s5.next.currentAuction == Some(Item(200).(uuid := Some(Id2)))
      && s6.calls == [Call(Seller, BidSold(Some(Buyer))), Call(Buyer, BidSold(Some(Buyer)))]
  {
    var s0 := Register(Register(Initial, Seller), Buyer);
    var s1 := PlaceAuction(s0, Item(100), Id1).next;
    var s2 := PlaceAuction(s1, Item(200), Id2).next;
    var s3 := RaiseBid(s2, Buyer, Waiting, 150).step.next;
    assert s3.bidByClient == map[Buyer := 150];
    assert Buyer in s3.bidByClient;
    assert MaxBid(s3.bidByClient) == 150;
    var s4 := TimeElapsed(s3, Buyer);
    var s5 := TimeElapsed(s4.next, Buyer);
    BlankRound(s4.next, Buyer);
  }

  /** The same trace with the repaired `timeElapsed`: the second auction,
      without bids, is sold to nobody. */
  lemma BlankAuctionSoldToNobody()
    ensures
      var s0 := Register(Register(Initial, Seller), Buyer);
      var s1 := PlaceAuction(s0, Item(100), Id1).next;
      var s2 := PlaceAuction(s1, Item(200), Id2).next;
      var s3 := RaiseBidInAuction(s2, Buyer, Waiting, 150).step.next;
      var s4 := TimeElapsedResetting(s3, Buyer);
      var s5 := TimeElapsedResetting(s4.next, Buyer);
      var s6 := TimeElapsedResetting(s5.next, Buyer);
      && s5.calls[..2] == [Call(Seller, BidSold(Some(Buyer))), Call(Buyer, BidSold(Some(Buyer)))]
      && s6.calls == [Call(Seller, BidSold(None)), Call(Buyer, BidSold(None))]
  {
    var s0 := Register(Register(Initial, Seller), Buyer);
    var s1 := PlaceAuction(s0, Item(100), Id1).next;
    var s2 := PlaceAuction(s1, Item(200), Id2).next;
    var s3 := RaiseBidInAuction(s2, Buyer, Waiting, 150).step.next;
    assert s3.bidByClient == map[Buyer := 150];
    assert Buyer in s3.bidByClient;
    assert MaxBid(s3.bidByClient) == 150;
    var s4 := TimeElapsedResetting(s3, Buyer);
    var s5 := TimeElapsedResetting(s4.next, Buyer);
    BlankRound(s4.next, Buyer);
  }

  /** An auction placed before the quorum never starts: registering the
      second client launches nothing, and a further auction only joins the
      queue, which now holds two. */
  lemma QueuedAuctionNeverStarts()
    ensures
      var s1 := PlaceAuction(Register(Initial, Seller), Item(100), Id1).next;
      var s2 := Register(s1, Buyer);
      var s3 := PlaceAuction(s2, Item(200), Id2).next;
      && |s2.clients| == MIN_NUMBER_CLIENTS && !s2.auctionInProgress && |s2.auctions| == 1
      && !s3.auctionInProgress && |s3.auctions| == 2
  {
  }

  /** Nothing the code offers a client gets such a queue moving. */
  lemma WaitingQueueStaysStuck(s: State, c: ClientId, a: Auction, id: Uuid)
    requires !s.auctionInProgress && s.auctions != []
    ensures !Register(s, c).auctionInProgress && Register(s, c).auctions != []
    ensures !PlaceAuction(s, a, id).next.auctionInProgress
    ensures |PlaceAuction(s, a, id).next.auctions| == |s.auctions| + 1
  {
  }

  /** With the repaired `register`, the second client starts the waiting auction. */
  lemma RegistrationStartsQueuedAuction()
    ensures
      var s1 := PlaceAuction(Register(Initial, Seller), Item(100), Id1).next;
      var s2 := RegisterAndLaunch(s1, Buyer).next;
      && s2.auctionInProgress && s2.currentAuction == Some(Item(100).(uuid := Some(Id1)))
      && s2.auctions == []
  {
  }

  /** A bid placed between auctions by a newly registered client, which is
      `WAITING`, is accepted against the finished auction's price and carried
      into the next auction: when nobody else bids, that auction's price
      falls from 1000 to 11 and the latecomer wins. */
  lemma StaleBidLowersPrice()
    ensures
      var s0 := Register(Register(Initial, Seller), Buyer);
      var s1 := PlaceAuction(s0, Item(10), Id1).next;
      var s2 := TimeElapsed(s1, Buyer).next;
      var s3 := Register(s2, Latecomer);
      var s4 := RaiseBid(s3, Latecomer, Waiting, 11).step.next;
      var s5 := PlaceAuction(s4, Item(1000), Id2).next;
      var s6 := TimeElapsed(s5, Latecomer).next;
      var s7 := TimeElapsed(s6, Latecomer).next;
      && !s2.auctionInProgress
      && s5.auctionInProgress && s5.currentAuction.value.price == 1000
      && Chosen(s6, Latecomer)
      && s7.currentAuction.value.price == 11
      && s7.winner == Some(Latecomer)
  {
    var s0 := Register(Register(Initial, Seller), Buyer);
    var s1 := PlaceAuction(s0, Item(10), Id1).next;
    assert s1.nbParticipants == 1 && s1.bidByClient == map[];
    var s2 := TimeElapsed(s1, Buyer).next;
    assert !s2.auctionInProgress && s2.auctions == [];
    var s3 := Register(s2, Latecomer);
    var s4 := RaiseBid(s3, Latecomer, Waiting, 11).step.next;
    assert s4.bidByClient == map[Latecomer := 11];
    var s5 := PlaceAuction(s4, Item(1000), Id2).next;
    assert |s5.clients| == 3 && s5.nbParticipants == 2;
    assert s5.bidByClient == map[Latecomer := 11];
    var s6 := TimeElapsed(s5, Latecomer).next;
    assert s6.nbParticipants == 1 && s6.bidByClient == map[Latecomer := 11];
    assert Latecomer in s6.bidByClient;
    assert MaxBid(s6.bidByClient) == 11;
  }

  /** With the repaired `raiseBid` the same bid is ignored and the next
      auction's first round, without bids, ends it at its asking price. */
  lemma StaleBidIgnored()
    ensures
      var s0 := Register(Register(Initial, Seller), Buyer);
      var s1 := PlaceAuction(s0, Item(10), Id1).next;
      var s2 := TimeElapsedResetting(s1, Buyer).next;
      var s3 := RegisterAndLaunch(s2, Latecomer).next;
      var s4 := RaiseBidInAuction(s3, Latecomer, Waiting, 11).step.next;
      && s4 == s3
      && s4.bidByClient == map[]
  {
  }

  /** As the code stands, a client dying while it owes the last response
      leaves the round open with nothing owed: the auction never ends, and
      every later `timeElapsed` only counts further below zero. */
  lemma DaemonStallsRound()
    ensures
      var s0 := Register(Register(Register(Initial, Seller), Buyer), Latecomer);
      var s1 := PlaceAuction(s0, Item(100), Id1).next;
      var s2 := TimeElapsed(s1, Buyer).next;
      var s3 := Sweep(s2, {Latecomer});
      var s4 := TimeElapsed(s3, Buyer);
      && s1.nbParticipants == 2
      && s3.clients == [Seller, Buyer]
      && s3.auctionInProgress && s3.nbParticipants == 0
      && s4.next.auctionInProgress && s4.next.nbParticipants == -1 && s4.calls == []
  {
    var a := Item(100).(uuid := Some(Id1));
    var s0 := Register(Register(Register(Initial, Seller), Buyer), Latecomer);
    assert s0 == State(false, None, None, 0, [Seller, Buyer, Latecomer], [], map[]);
    var s1 := PlaceAuction(s0, Item(100), Id1).next;
    assert s1 == State(true, Some(a), None, 2, [Seller, Buyer, Latecomer], [], map[]);
    var s2 := TimeElapsed(s1, Buyer).next;
    assert s2 == s1.(nbParticipants := 1);
    FilterTrio();
    var s3 := Sweep(s2, {Latecomer});
    assert s3 == s1.(nbParticipants := 0, clients := [Seller, Buyer]);
    CountsDown(s3, Buyer);
  }

  /** Once a running auction owes no response, no `timeElapsed` closes it again. */
  lemma StalledRoundStaysOpen(s: State, w: ClientId)
    requires Inv(s) && s.auctionInProgress && s.nbParticipants <= 0
    ensures TimeElapsed(s, w).next.auctionInProgress
    ensures TimeElapsed(s, w).next.nbParticipants < s.nbParticipants
    ensures TimeElapsed(s, w).calls == []
  {
  }

  /** With the repaired daemon, the same crash ends the auction. */
  lemma DaemonClosesRound()
    ensures
      var s0 := Register(Register(Register(Initial, Seller), Buyer), Latecomer);
      var s1 := PlaceAuction(s0, Item(100), Id1).next;
      var s2 := TimeElapsedResetting(s1, Buyer).next;
      var s3 := SweepElapsing(s2, {Latecomer}, [Buyer]);
      && !s3.next.auctionInProgress
      && s3.calls == [Call(Seller, BidSold(None)), Call(Buyer, BidSold(None))]
  {
    var a := Item(100).(uuid := Some(Id1));
    var s0 := Register(Register(Register(Initial, Seller), Buyer), Latecomer);
    assert s0 == State(false, None, None, 0, [Seller, Buyer, Latecomer], [], map[]);
    var s1 := PlaceAuction(s0, Item(100), Id1).next;
    assert s1 == State(true, Some(a), None, 2, [Seller, Buyer, Latecomer], [], map[]);
    var s2 := TimeElapsedResetting(s1, Buyer).next;
    assert s2 == s1.(nbParticipants := 1);
    FilterTrio();
    assert Sound(s2);
    SweepClosesRound(s2, {Latecomer}, Buyer);
    var b := Broadcast([Seller, Buyer], BidSold(None));
    assert b[0] == Call(Seller, BidSold(None)) && b[1] == Call(Buyer, BidSold(None));
  }

  /** Filtering the three clients of the traces for the latecomer's crash. */
  lemma FilterTrio()
    ensures Filter([Seller, Buyer, Latecomer], {Latecomer}, true) == [Latecomer]
    ensures Filter([Seller, Buyer, Latecomer], {Latecomer}, false) == [Seller, Buyer]
  {
    var p := {Latecomer};
    assert [Latecomer][1..] == [];
    assert Filter([Latecomer], p, true) == [Latecomer];
    assert Filter([Latecomer], p, false) == [];
    assert [Buyer, Latecomer][1..] == [Latecomer];
    assert Filter([Buyer, Latecomer], p, true) == [Latecomer];
    assert Filter([Buyer, Latecomer], p, false) == [Buyer];
    assert [Seller, Buyer, Latecomer][1..] == [Buyer, Latecomer];
  }
}
