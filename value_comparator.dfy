/** The comparator that orders clients by their bid. Its constructor copies
    the bid map it is given; a Dafny map is a value, so later changes to the
    caller's map cannot reach the copy. */
module ValueComparators {
  import opened Basics

  datatype ValueComparator = ValueComparator(bids: map<ClientId, Int32>) {

    /** Both clients must have a bid: looking up a missing key and unboxing
        the null it yields fails. A client with the larger (or an equal) bid
        comes first. */
    function Compare(s1: ClientId, s2: ClientId): (r: int)
      requires s1 in bids && s2 in bids
      ensures r == -1 || r == 1
      ensures r < 0 <==> bids[s1] >= bids[s2]
    {
      if bids[s1] >= bids[s2] then -1 else 1
    }

    /** `s` is in the order this comparator asks a sort for. */
    ghost predicate OrderedBy(s: seq<ClientId>)
      requires forall i :: 0 <= i < |s| ==> s[i] in bids
    {
      forall i, j :: 0 <= i < j < |s| ==> Compare(s[i], s[j]) < 0
    }
  }

  /** Clients listed from the highest bid down. */
  ghost predicate Descending(bids: map<ClientId, Int32>, s: seq<ClientId>)
    requires forall i :: 0 <= i < |s| ==> s[i] in bids
  {
    forall i, j :: 0 <= i < j < |s| ==> bids[s[i]] >= bids[s[j]]
  }

  /** The result is never 0: a client compared with itself comes "before" itself. */
  lemma CompareSelf(c: ValueComparator, x: ClientId)
    requires x in c.bids
    ensures c.Compare(x, x) == -1
  {
  }

  /** For clients with different bids the comparator is antisymmetric. */
  lemma CompareAntisymmetric(c: ValueComparator, a: ClientId, b: ClientId)
    requires a in c.bids && b in c.bids
    requires c.bids[a] != c.bids[b]
    ensures c.Compare(a, b) == -c.Compare(b, a)
  {
  }

  /** For clients with equal bids it is not: each comes before the other. */
  lemma CompareTies(c: ValueComparator, a: ClientId, b: ClientId)
    requires a in c.bids && b in c.bids
    requires c.bids[a] == c.bids[b]
    ensures c.Compare(a, b) == c.Compare(b, a) == -1
  {
  }

  /** A list in the comparator's order is exactly a list by descending bid. */
  lemma OrderedIsDescending(c: ValueComparator, s: seq<ClientId>)
    requires forall i :: 0 <= i < |s| ==> s[i] in c.bids
    ensures c.OrderedBy(s) <==> Descending(c.bids, s)
  {
  }
}
