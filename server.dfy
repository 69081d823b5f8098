/** The auction house's server object: its fields, updated in place by each
    remote operation, and each operation proved to perform the transition
    `ServerSpec` gives it. Remote calls on clients are returned as `Call`s. */
module Servers {
  import opened Basics
  import opened Seqs
  import opened AuctionBeans
  import opened ServerSpec

  class Server {
    var auctionInProgress: bool
    var currentAuction: Option<Auction>
    var winner: Option<ClientId>
    var nbParticipants: int
    var clients: seq<ClientId>
    var auctions: seq<Auction>
    var bidByClient: map<ClientId, Int32>

    /** The server's fields as a value. */
    function State(): ServerSpec.State
      reads this
    {
      ServerSpec.State(auctionInProgress, currentAuction, winner, nbParticipants,
                       clients, auctions, bidByClient)
    }

    predicate Valid()
      reads this
    {
      Inv(State())
    }

    /** No auction, no client; the connection daemon's scheduling is not modelled. */
    constructor ()
      ensures Valid() && State() == Initial
    {
      auctionInProgress := false;
      currentAuction := None;
      winner := None;
      nbParticipants := 0;
      clients := [];
      auctions := [];
      bidByClient := map[];
    }

    function GetCurrentAuction(): Option<Auction>
      reads this
    {
      currentAuction
    }

    function GetWinner(): Option<ClientId>
      reads this
    {
      winner
    }

    /** Sends `msg` to every registered client, in list order. */
    method Notify(msg: Message) returns (calls: seq<Call>)
      ensures calls == Broadcast(clients, msg)
    {
      calls := [];
      for i := 0 to |clients|
        invariant calls == Broadcast(clients[..i], msg)
      {
        assert clients[..i + 1][..i] == clients[..i];
        calls := calls + [Call(clients[i], msg)];
      }
      assert clients[..|clients|] == clients;
    }

    /** `launchAuction`; both callers make sure the queue is not empty. */
    method LaunchAuction() returns (calls: seq<Call>)
      requires Valid() && auctions != []
      modifies this
      ensures Valid()
      ensures Step(State(), calls) == Launch(old(State()))
    {
      auctionInProgress := true;
      nbParticipants := |clients| - 1;
      currentAuction := Some(auctions[0]);
      auctions := auctions[1..];
      calls := Notify(NewAuction(currentAuction.value));
    }

    /** `placeAuction`; `id` is the random UUID the auction receives. */
    method PlaceAuction(auction: Auction, id: Uuid) returns (calls: seq<Call>)
      requires Valid()
      modifies this
      ensures Valid()
      ensures Step(State(), calls) == ServerSpec.PlaceAuction(old(State()), auction, id)
    {
      auctions := auctions + [auction.(uuid := Some(id))];
      if !auctionInProgress && |auctions| == 1 && |clients| >= MIN_NUMBER_CLIENTS {
        calls := LaunchAuction();
      } else {
        calls := [];
      }
    }

    /** `register`; the wait while an auction is in progress is the precondition. */
    method Register(client: ClientId)
      requires Valid() && !auctionInProgress
      modifies this
      ensures Valid()
      ensures State() == ServerSpec.Register(old(State()), client)
    {
      clients := clients + [client];
    }

    /** `validateRegistrations`: ends the exclusive window; releasing the
        waiting registrations is the precondition of `Register` becoming true. */
    method ValidateRegistrations()
      requires Valid()
      modifies this
      ensures Valid()
      ensures State() == old(State()).(auctionInProgress := false)
    {
      auctionInProgress := false;
    }

    /** `raiseBid`; `reported` is what `client.getState()` answers. `npe` is
        set when a waiting client bids before any auction was launched. */
    method RaiseBid(client: ClientId, reported: ClientState, newBid: Int32)
      returns (calls: seq<Call>, npe: bool)
      requires Valid()
      modifies this
      ensures Valid()
      ensures npe ==> State() == old(State()) && calls == []
      ensures (if npe then NullDereference else Returned(Step(State(), calls)))
              == ServerSpec.RaiseBid(old(State()), client, reported, newBid)
    {
      calls, npe := [], false;
      if reported == Waiting {
        if currentAuction.None? {
          npe := true;
        } else if newBid > currentAuction.value.price {
          bidByClient := bidByClient[client := newBid];
          calls := [Call(client, SetState(Raising))];
        }
      }
    }

    /** `timeElapsed`. `answers` says whether `client.getName()`, called for
        the log line right after the decrement, returns; when it does not,
        the call ends there with `thrown`. `choice` is the top bidder the loop
        over the bid map settles on. */
    method TimeElapsed(client: ClientId, answers: bool)
      returns (calls: seq<Call>, thrown: bool, ghost choice: ClientId)
      requires Valid()
      modifies this
      ensures Valid()
      ensures thrown == !answers
      ensures !answers ==>
        (calls == [] && State() == old(State()).(nbParticipants := old(nbParticipants) - 1))
      ensures answers ==>
        (Chosen(old(State()), choice) && Step(State(), calls) == ServerSpec.TimeElapsed(old(State()), choice))
    {
      choice := client;
      nbParticipants := nbParticipants - 1;
      if !answers {
        return [], true, choice;
      }
      calls, thrown := [], false;
      if nbParticipants == 0 {
        if bidByClient == map[] {
          // a blank round: the auction is over
          calls := Notify(BidSold(winner));
          ValidateRegistrations();
          if auctions != [] && |clients| >= MIN_NUMBER_CLIENTS {
            var launched := LaunchAuction();
            calls := calls + launched;
          }
        } else {
          // the winner of the round: the first maximal entry met
          var maxBid: Int32 := INT32_MIN;
          var leader := winner;
          var remaining := bidByClient.Keys;
          ghost var seen: set<ClientId> := {};
          while remaining != {}
            invariant remaining + seen == bidByClient.Keys && remaining !! seen
            invariant seen == {} ==> maxBid == INT32_MIN
            invariant seen != {} ==> leader.Some? && leader.value in seen && bidByClient[leader.value] == maxBid
            invariant forall c :: c in seen ==> bidByClient[c] <= maxBid
            decreases remaining
          {
            var c :| c in remaining;
            if bidByClient[c] > maxBid {
              maxBid := bidByClient[c];
              leader := Some(c);
            }
            remaining := remaining - {c};
            seen := seen + {c};
          }
          assert maxBid == MaxBid(bidByClient);
          winner := leader;
          choice := leader.value;
          currentAuction := Some(currentAuction.value.(price := maxBid));
          nbParticipants := |clients| - 1;
          bidByClient := map[];
          calls := Notify(NewPrice(currentAuction.value.uuid, maxBid));
        }
      }
    }

    /** `disconnect`: the departing client is the caller, so it answers. */
    method Disconnect(client: ClientId) returns (calls: seq<Call>, ghost choice: ClientId)
      requires Valid()
      modifies this
      ensures Valid()
      ensures Chosen(old(State()), choice)
      ensures Step(State(), calls) == ServerSpec.Disconnect(old(State()), client, choice)
    {
      var thrown;
      calls, thrown, choice := TimeElapsed(client, true);
      clients := RemoveFirst(clients, client);
    }

    /** `ConnectionDaemon.run`; `dead` is the set of clients whose `getName()`
        probe fails. The `timeElapsed` calls on removed clients fail on their
        log line, and the daemon goes on with the next one. */
    method CheckConnections(dead: set<ClientId>) returns (calls: seq<Call>)
      requires Valid()
      modifies this
      ensures Valid()
      ensures State() == Sweep(old(State()), dead) && calls == []
    {
      var all := clients;
      var toRemove: seq<ClientId> := [];
      for i := 0 to |all|
        invariant toRemove == Filter(all[..i], dead, true)
        invariant State() == old(State())
      {
        assert all[..i + 1] == all[..i] + [all[i]];
        FilterSnoc(all[..i], all[i], dead, true);
        if all[i] in dead {
          toRemove := toRemove + [all[i]];
        }
      }
      assert all[..|all|] == all;
      var removing := set c | c in toRemove;
      FilterSameOn(clients, removing, dead, false);
      clients := Filter(clients, removing, false);
      ghost var swept := State();
      calls := [];
      for j := 0 to |toRemove|
        invariant Valid()
        invariant calls == []
        invariant State() == swept.(nbParticipants := swept.nbParticipants - j)
      {
        var more, thrown, choice := TimeElapsed(toRemove[j], false);
      }
    }
  }
}
