/** A participant of the auction house: its identity, the state of its
    current round, the countdown task that answers the server when time is
    up, and the GUI observers it notifies. What a client does for its
    observers and for the server is returned, in order, as `Effect`s. */
module Clients {
  import opened Basics
  import opened Seqs
  import opened AuctionBeans
  import opened Decimal

  /** Milliseconds a round lasts on the client's side. */
  const TIME_TO_RAISE_BID: int := 30000
  /** Milliseconds between two runs of the countdown task. */
  const TIME_TO_REFRESH: int := 1000

  /** The identity record of a client. */
  datatype ClientBean = ClientBean(uuid: Uuid, login: string, password: string, identifier: string)

  /** What a client tells one of its observers. */
  datatype Event =
    | AuctionEvent(auction: Auction)
    | PriceEvent(uuid: Option<Uuid>, price: Int32)
    | SoldEvent(buyer: Option<ClientId>)
    | TimerEvent(text: string)

  /** A call a client makes: `timeElapsed` on the server, or an update of an observer. */
  datatype Effect = ServerTimeElapsed(client: ClientId) | Update(observer: ObserverId, event: Event)

  /** The display identifier: the name, " #" and the first four characters of the UUID. */
  function Identifier(name: string, id: Uuid): (r: string)
    ensures |r| == |name| + 6
    ensures r[..|name|] == name
    ensures r[|name|..] == " #" + id.text[..4]
  {
    name + " #" + id.text[..4]
  }

  /** Two clients share an identifier only if they share the name and the
      UUID's first four characters. */
  lemma IdentifierDeterminesName(n1: string, u1: Uuid, n2: string, u2: Uuid)
    requires Identifier(n1, u1) == Identifier(n2, u2)
    ensures n1 == n2
    ensures u1.text[..4] == u2.text[..4]
  {
    var r := Identifier(n1, u1);
    assert |n1| == |n2|;
    assert (" #" + u1.text[..4])[2..] == u1.text[..4];
    assert (" #" + u2.text[..4])[2..] == u2.text[..4];
  }

  /** Each observer of the list, in list order, receives the event. */
  function Updates(observers: seq<ObserverId>, ev: Event): (r: seq<Effect>)
    ensures |r| == |observers|
    ensures forall i :: 0 <= i < |r| ==> r[i] == Update(observers[i], ev)
  {
    if observers == [] then []
    else Updates(observers[..|observers| - 1], ev) + [Update(observers[|observers| - 1], ev)]
  }

  /** The for-each loop that notifies a collection of observers. */
  method Publish(observers: seq<ObserverId>, ev: Event) returns (effects: seq<Effect>)
    ensures effects == Updates(observers, ev)
  {
    effects := [];
    for i := 0 to |observers|
      invariant effects == Updates(observers[..i], ev)
    {
      assert observers[..i + 1][..i] == observers[..i];
      effects := effects + [Update(observers[i], ev)];
    }
    assert observers[..|observers|] == observers;
  }

  // ---------------------------------------------------------------------
  // The countdown

  /** What one run of the countdown task does when `time` milliseconds were
      left: the clock goes down by one refresh; on reaching exactly 0 a
      client that is not the seller tells the server; otherwise the timer
      observers are shown the seconds left. */
  function Tick(time: int, seller: bool, client: ClientId, observers: seq<ObserverId>): (r: seq<Effect>)
    ensures time == TIME_TO_REFRESH ==> (r == [] <==> seller) && forall e :: e in r ==> e == ServerTimeElapsed(client)
    ensures time != TIME_TO_REFRESH ==>
      && |r| == |observers|
      && forall i :: 0 <= i < |r| ==> r[i].Update? && r[i].observer == observers[i] && r[i].event.TimerEvent?
  {
    var left := time - TIME_TO_REFRESH;
    if left == 0 then (if seller then [] else [ServerTimeElapsed(client)])
    else Updates(observers, TimerEvent(IntToString(JavaDiv(left, 1000))))
  }

  /** How many `timeElapsed` calls a list of effects makes. */
  function Sends(effects: seq<Effect>): nat
  {
    if effects == [] then 0
    else (if effects[0].ServerTimeElapsed? then 1 else 0) + Sends(effects[1..])
  }

  lemma {:induction false} SendsAppend(a: seq<Effect>, b: seq<Effect>)
    ensures Sends(a + b) == Sends(a) + Sends(b)
  {
    if a != [] {
      assert (a + b)[0] == a[0];
      assert (a + b)[1..] == a[1..] + b;
      SendsAppend(a[1..], b);
    } else {
      assert a + b == b;
    }
  }

  /** Observer updates never reach the server. */
  lemma {:induction false} UpdatesSendNothing(observers: seq<ObserverId>, ev: Event)
    ensures Sends(Updates(observers, ev)) == 0
  {
    if observers != [] {
      var init := observers[..|observers| - 1];
      UpdatesSendNothing(init, ev);
      SendsAppend(Updates(init, ev), [Update(observers[|observers| - 1], ev)]);
    }
  }

  /** One run sends `timeElapsed` exactly when one refresh was left and the
      client is not the seller; otherwise every effect is an update showing
      the seconds left, as text that reads back as that number. */
  lemma TickSends(time: int, seller: bool, client: ClientId, observers: seq<ObserverId>)
    ensures Sends(Tick(time, seller, client, observers)) == if time == TIME_TO_REFRESH && !seller then 1 else 0
    ensures time != TIME_TO_REFRESH ==>
      forall e :: e in Tick(time, seller, client, observers) ==>
        e.Update? && e.event.TimerEvent? && ParseLong(e.event.text) == JavaDiv(time - TIME_TO_REFRESH, 1000)
  {
    var left := time - TIME_TO_REFRESH;
    if left != 0 {
      var text := IntToString(JavaDiv(left, 1000));
      UpdatesSendNothing(observers, TimerEvent(text));
      IntRoundTrip(JavaDiv(left, 1000));
    } else if !seller {
      assert Sends([ServerTimeElapsed(client)]) == 1 + Sends([]);
    }
  }

  /** Consecutive runs from `time`; `sellers[k]` is whether the client is the
      seller at the `k`-th run. */
  function Countdown(time: int, sellers: seq<bool>, client: ClientId, observers: seq<ObserverId>): (r: seq<Effect>)
    ensures forall e :: e in r ==>
      e == ServerTimeElapsed(client) || (e.Update? && e.observer in observers && e.event.TimerEvent?)
    decreases |sellers|
  {
    if sellers == [] then []
    else Tick(time, sellers[0], client, observers) + Countdown(time - TIME_TO_REFRESH, sellers[1..], client, observers)
  }

  /** From `m` refreshes left, the countdown sends once, at run `m`, if it
      gets that far and the client is not the seller then, and never again. */
  lemma {:induction false} CountdownSendsOnce(m: int, sellers: seq<bool>, client: ClientId, observers: seq<ObserverId>)
    ensures Sends(Countdown(m * TIME_TO_REFRESH, sellers, client, observers)) ==
      if 1 <= m <= |sellers| && !sellers[m - 1] then 1 else 0
    decreases |sellers|
  {
    if sellers != [] {
      var time := m * TIME_TO_REFRESH;
      TickSends(time, sellers[0], client, observers);
      assert time - TIME_TO_REFRESH == (m - 1) * TIME_TO_REFRESH;
      CountdownSendsOnce(m - 1, sellers[1..], client, observers);
      SendsAppend(Tick(time, sellers[0], client, observers),
                  Countdown(time - TIME_TO_REFRESH, sellers[1..], client, observers));
    }
  }

  /** A fresh countdown answers the server at most once, exactly at its 30th
      run, and only if the client is not the seller at that run. */
  lemma FreshCountdown(sellers: seq<bool>, client: ClientId, observers: seq<ObserverId>)
    ensures Sends(Countdown(TIME_TO_RAISE_BID, sellers, client, observers)) <= 1
    ensures Sends(Countdown(TIME_TO_RAISE_BID, sellers, client, observers)) == 1 <==>
      |sellers| >= 30 && !sellers[29]
  {
    CountdownSendsOnce(30, sellers, client, observers);
  }

  // ---------------------------------------------------------------------
  // Recognising one's own auction

  /** The seller test of `newAuction`: the client's identifier against the
      auction's seller field. */
  predicate IsSellerAsWritten(name: string, id: Uuid, seller: string)
  {
    Identifier(name, id) == seller
  }

  /** The auction form fills the seller field with the client's name, which
      is never its identifier: the seller is not recognised, and its own
      countdown answers the server at its 30th run. */
  lemma SellerNeverRecognised(name: string, id: Uuid, client: ClientId, observers: seq<ObserverId>, runs: nat)
    requires runs >= 30
    ensures !IsSellerAsWritten(name, id, name)
    ensures Sends(Countdown(TIME_TO_RAISE_BID, seq(runs, k => IsSellerAsWritten(name, id, name)), client, observers)) == 1
  {
    assert |Identifier(name, id)| == |name| + 6;
    FreshCountdown(seq(runs, k => IsSellerAsWritten(name, id, name)), client, observers);
  }

  /** The seller test against what the seller field holds: the client's name. */
  predicate IsSeller(name: string, seller: string)
  {
    name == seller
  }

  /** With that test the seller recognises its own auction, and its
      countdown never answers the server. */
  lemma SellerRecognised(name: string, client: ClientId, observers: seq<ObserverId>, runs: nat)
    ensures IsSeller(name, name)
    ensures Sends(Countdown(TIME_TO_RAISE_BID, seq(runs, k => IsSeller(name, name)), client, observers)) == 0
  {
    FreshCountdown(seq(runs, k => IsSeller(name, name)), client, observers);
  }

  // ---------------------------------------------------------------------
  // The client and its countdown task

  /** The fields of a client that its operations change. */
  datatype ClientView = ClientView(
    name: string,
    state: ClientState,
    isSeller: bool,
    timer: TimerManager?,
    currentAuction: Option<Auction>,
    timerObservers: seq<ObserverId>,
    bidSoldObservers: seq<ObserverId>,
    newAuctionObservers: seq<ObserverId>,
    newPriceObservers: seq<ObserverId>)

  /** The countdown task of a round, scheduled every `TIME_TO_REFRESH`
      milliseconds until cancelled. */
  class TimerManager {
    const owner: Client
    var time: int
    /** The last text shown; none before the first run. */
    var timeString: Option<string>
    var cancelled: bool

    constructor (owner: Client)
      ensures this.owner == owner
      ensures time == TIME_TO_RAISE_BID && timeString == None && !cancelled
    {
      this.owner := owner;
      time := TIME_TO_RAISE_BID;
      timeString := None;
      cancelled := false;
    }

    /** One scheduled run; a cancelled task runs no more. The seller flag is
        read from the owner at the time of the run. */
    method Run() returns (effects: seq<Effect>)
      requires !cancelled
      modifies this
      ensures time == old(time) - TIME_TO_REFRESH && !cancelled
      ensures timeString == Some(IntToString(JavaDiv(time, 1000)))
      ensures effects == Tick(old(time), owner.isSeller, owner.id, owner.timerObservers)
    {
      time := time - TIME_TO_REFRESH;
      timeString := Some(IntToString(JavaDiv(time, 1000)));
      if time == 0 {
        if !owner.isSeller {
          effects := [ServerTimeElapsed(owner.id)];
        } else {
          effects := [];
        }
      } else {
        effects := Publish(owner.timerObservers, TimerEvent(timeString.value));
      }
    }

    method Cancel()
      modifies this
      ensures cancelled && time == old(time) && timeString == old(timeString)
    {
      cancelled := true;
    }
  }

  class Client {
    /** The remote reference the server holds for this client. */
    const id: ClientId
    const identity: ClientBean
    var name: string
    var state: ClientState
    var isSeller: bool
    var timer: TimerManager?
    var currentAuction: Option<Auction>
    var timerObservers: seq<ObserverId>
    var bidSoldObservers: seq<ObserverId>
    var newAuctionObservers: seq<ObserverId>
    var newPriceObservers: seq<ObserverId>

    function View(): ClientView
      reads this
    {
      ClientView(name, state, isSeller, timer, currentAuction,
                 timerObservers, bidSoldObservers, newAuctionObservers, newPriceObservers)
    }

    /** The running task counts for this client, and a current auction
        always has one. */
    ghost predicate Valid()
      reads this, timer
    {
      && (timer != null ==> timer.owner == this)
      && (currentAuction.Some? ==> timer != null)
    }

    /** `uuid` is the random UUID drawn for the client. */
    constructor (id: ClientId, uuid: Uuid, name: string)
      ensures Valid()
      ensures this.id == id
      ensures identity == ClientBean(uuid, name, "default password", Identifier(name, uuid))
      ensures View() == ClientView(name, Waiting, false, null, None, [], [], [], [])
    {
      this.id := id;
      identity := ClientBean(uuid, name, "default password", Identifier(name, uuid));
      this.name := name;
      state := Waiting;
      isSeller := false;
      timer := null;
      currentAuction := None;
      timerObservers := [];
      bidSoldObservers := [];
      newAuctionObservers := [];
      newPriceObservers := [];
    }

    /** The identifier recorded in the client's identity at construction. */
    function GetIdentifier(): (r: string)
      ensures r == identity.identifier
    {
      identity.identifier
    }

    function GetState(): (r: ClientState)
      reads this
      ensures r == View().state
    {
      state
    }

    method SetState(s: ClientState)
      modifies this
      ensures old(Valid()) ==> Valid()
      ensures GetState() == s
      ensures View() == old(View()).(state := s)
    {
      state := s;
    }

    /** `newAuction`: the client is the seller exactly when its identifier is
        the auction's seller; a fresh countdown starts. A countdown already
        running is not cancelled and keeps running. */
    method NewAuction(a: Auction) returns (effects: seq<Effect>)
      requires Valid()
      modifies this
      ensures Valid()
      ensures fresh(timer) && timer.time == TIME_TO_RAISE_BID && timer.timeString == None && !timer.cancelled
      ensures View() == old(View()).(
        isSeller := GetIdentifier() == a.seller, currentAuction := Some(a), timer := timer, state := Waiting)
      ensures old(timer) != null ==> old(timer).cancelled == old(timer.cancelled)
      ensures effects == Updates(newAuctionObservers, AuctionEvent(a))
    {
      isSeller := GetIdentifier() == a.seller;
      currentAuction := Some(a);
      timer := new TimerManager(this);
      state := Waiting;
      effects := Publish(newAuctionObservers, AuctionEvent(a));
    }

    /** `newPrice`: the current auction takes the price, whatever auction
        the UUID names; the countdown restarts. Without a current auction
        the first dereference fails and nothing changes. */
    method NewPrice(auctionId: Option<Uuid>, price: Int32) returns (effects: seq<Effect>, npe: bool)
      requires Valid()
      modifies this, timer
      ensures Valid()
      ensures npe <==> old(currentAuction).None?
      ensures npe ==> View() == old(View()) && effects == []
      ensures !npe ==>
        && fresh(timer) && timer.time == TIME_TO_RAISE_BID && timer.timeString == None && !timer.cancelled
        && (old(timer) != null ==> old(timer).cancelled)
        && View() == old(View()).(
             currentAuction := Some(old(currentAuction).value.(price := price)),
             timer := timer, state := Waiting)
        && effects == Updates(newPriceObservers, PriceEvent(auctionId, price))
      ensures old(timer) != null ==>
        old(timer).time == old(timer.time) && old(timer).timeString == old(timer.timeString)
    {
      if currentAuction.None? {
        npe := true;
        effects := [];
        return;
      }
      npe := false;
      currentAuction := Some(currentAuction.value.(price := price));
      if timer != null {
        timer.Cancel();
        timer := null;
      }
      timer := new TimerManager(this);
      state := Waiting;
      effects := Publish(newPriceObservers, PriceEvent(auctionId, price));
    }

    /** `bidSold`: the auction is over; the countdown stops and every
        observer hears the buyer, or that there is none. Without a current
        auction the log line's dereference fails and nothing changes. */
    method BidSold(buyer: Option<ClientId>) returns (effects: seq<Effect>, npe: bool)
      requires Valid()
      modifies this, timer
      ensures Valid()
      ensures npe <==> old(currentAuction).None?
      ensures npe ==> View() == old(View()) && effects == []
      ensures !npe ==>
        && old(timer).cancelled
        && old(timer).time == old(timer.time) && old(timer).timeString == old(timer.timeString)
        && View() == old(View()).(currentAuction := None, isSeller := false, timer := null, state := Ending)
        && effects == Updates(bidSoldObservers, SoldEvent(buyer))
    {
      if currentAuction.None? {
        npe := true;
        effects := [];
        return;
      }
      npe := false;
      currentAuction := None;
      isSeller := false;
      timer.Cancel();
      timer := null;
      state := Ending;
      effects := Publish(bidSoldObservers, SoldEvent(buyer));
    }

    method AddNewPriceObserver(o: ObserverId) returns (added: bool)
      modifies this
      ensures old(Valid()) ==> Valid()
      ensures added
      ensures View() == old(View()).(newPriceObservers := old(newPriceObservers) + [o])
    {
      newPriceObservers := newPriceObservers + [o];
      added := true;
    }

    method RemoveNewPriceObserver(o: ObserverId) returns (removed: bool)
      modifies this
      ensures old(Valid()) ==> Valid()
      ensures removed <==> o in old(newPriceObservers)
      ensures View() == old(View()).(newPriceObservers := RemoveFirst(old(newPriceObservers), o))
    {
      removed := o in newPriceObservers;
      newPriceObservers := RemoveFirst(newPriceObservers, o);
    }

    method AddBidSoldObserver(o: ObserverId) returns (added: bool)
      modifies this
      ensures old(Valid()) ==> Valid()
      ensures added
      ensures View() == old(View()).(bidSoldObservers := old(bidSoldObservers) + [o])
    {
      bidSoldObservers := bidSoldObservers + [o];
      added := true;
    }

    method RemoveBidSoldObserver(o: ObserverId) returns (removed: bool)
      modifies this
      ensures old(Valid()) ==> Valid()
      ensures removed <==> o in old(bidSoldObservers)
      ensures View() == old(View()).(bidSoldObservers := RemoveFirst(old(bidSoldObservers), o))
    {
      removed := o in bidSoldObservers;
      bidSoldObservers := RemoveFirst(bidSoldObservers, o);
    }

    method AddNewAuctionObserver(o: ObserverId) returns (added: bool)
      modifies this
      ensures old(Valid()) ==> Valid()
      ensures added
      ensures View() == old(View()).(newAuctionObservers := old(newAuctionObservers) + [o])
    {
      newAuctionObservers := newAuctionObservers + [o];
      added := true;
    }

    method RemoveNewAuctionObserver(o: ObserverId) returns (removed: bool)
      modifies this
      ensures old(Valid()) ==> Valid()
      ensures removed <==> o in old(newAuctionObservers)
      ensures View() == old(View()).(newAuctionObservers := RemoveFirst(old(newAuctionObservers), o))
    {
      removed := o in newAuctionObservers;
      newAuctionObservers := RemoveFirst(newAuctionObservers, o);
    }

    method AddTimerObserver(o: ObserverId) returns (added: bool)
      modifies this
      ensures old(Valid()) ==> Valid()
      ensures added
      ensures View() == old(View()).(timerObservers := old(timerObservers) + [o])
    {
      timerObservers := timerObservers + [o];
      added := true;
    }

    method RemoveTimerObserver(o: ObserverId) returns (removed: bool)
      modifies this
      ensures old(Valid()) ==> Valid()
      ensures removed <==> o in old(timerObservers)
      ensures View() == old(View()).(timerObservers := RemoveFirst(old(timerObservers), o))
    {
      removed := o in timerObservers;
      timerObservers := RemoveFirst(timerObservers, o);
    }
  }

  /** Removing an observer that was just added restores the collection when
      it was not already registered. */
  lemma AddThenRemove(observers: seq<ObserverId>, o: ObserverId)
    requires o !in observers
    ensures RemoveFirst(observers + [o], o) == observers
  {
    var k := FirstIndex(observers + [o], o);
    assert k == |observers|;
    assert (observers + [o])[..k] == observers;
  }
}
