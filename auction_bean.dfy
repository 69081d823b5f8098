/** An auction item: the mutable `AuctionBean` record and the value it holds,
    which is also what remote calls carry (the bean is serialised). */
module AuctionBeans {
  import opened Basics

  /** The contents of an auction bean. */
  datatype Auction = Auction(
    uuid: Option<Uuid>,
    price: Int32,
    name: string,
    description: string,
    seller: string)

  /** The price the bean's constructor stores for an asking price: the least
      non-negative price that is at least the asking price. */
  function OpeningPrice(asked: Int32): (p: Int32)
    ensures p >= 0 && p >= asked
    ensures p == asked || p == 0
  {
    if asked > 0 then asked else 0
  }

  /** How string concatenation renders a possibly-null UUID. */
  function UuidString(id: Option<Uuid>): (t: string)
    ensures id.Some? ==> t == id.value.text && |t| == 36
    ensures id.None? ==> t == "null"
  {
    match id
    case None => "null"
    case Some(u) => u.text
  }

  /** `AuctionBean.toString`. */
  function Describe(a: Auction): (r: string)
    ensures |r| == 19 + |UuidString(a.uuid)| + |a.name|
    ensures r[..7] == "uuid : "
    ensures r[7..7 + |UuidString(a.uuid)|] == UuidString(a.uuid)
    ensures r[17 + |UuidString(a.uuid)|..17 + |UuidString(a.uuid)| + |a.name|] == a.name
  {
    "uuid : " + UuidString(a.uuid) + " \n name : " + a.name + " \n"
  }

  /** The text before the name in `Describe(a)`. */
  function DescribeHead(a: Auction): string
  {
    "uuid : " + UuidString(a.uuid) + " \n name : "
  }

  /** The name sits between a head fixed by the UUID and a two-character tail. */
  lemma DescribeLayout(a: Auction)
    ensures Describe(a) == DescribeHead(a) + a.name + " \n"
    ensures Describe(a)[|DescribeHead(a)|..|DescribeHead(a)| + |a.name|] == a.name
    ensures |DescribeHead(a)| == 17 + |UuidString(a.uuid)|
  {
    var h, n := DescribeHead(a), a.name;
    assert (h + n + " \n")[|h|..|h| + |n|] == n;
  }

  /** For the same UUID, different names give different texts. */
  lemma DescribeDeterminesName(a: Auction, b: Auction)
    requires a.uuid == b.uuid
    requires Describe(a) == Describe(b)
    ensures a.name == b.name
  {
    DescribeLayout(a);
    DescribeLayout(b);
  }

  /** Once an auction carries its UUID, its text determines both the UUID and the name. */
  lemma DescribeIdentifies(a: Auction, b: Auction)
    requires a.uuid.Some? && b.uuid.Some?
    requires Describe(a) == Describe(b)
    ensures a.uuid == b.uuid && a.name == b.name
  {
    DescribeLayout(a);
    DescribeLayout(b);
    var s := Describe(a);
    assert UuidString(a.uuid) == DescribeHead(a)[7..43] == s[7..43];
    assert UuidString(b.uuid) == DescribeHead(b)[7..43] == s[7..43];
  }

  /** The mutable auction record. */
  class AuctionBean {
    var uuid: Option<Uuid>
    var price: Int32
    var name: string
    var description: string
    var seller: string

    /** Everything the bean holds. */
    function Value(): Auction
      reads this
    {
      Auction(uuid, price, name, description, seller)
    }

    /** The UUID stays unset until `SetUuid`; the asking price is clamped at 0. */
    constructor (price: Int32, name: string, description: string, seller: string)
      ensures Value() == Auction(None, OpeningPrice(price), name, description, seller)
    {
      this.price := if price > 0 then price else 0;
      this.name := name;
      this.description := description;
      this.seller := seller;
      this.uuid := None;
    }

    function GetUUID(): (r: Option<Uuid>)
      reads this
      ensures r == Value().uuid
    {
      uuid
    }

    method SetUuid(id: Uuid)
      modifies this
      ensures GetUUID() == Some(id)
      ensures Value() == old(Value()).(uuid := Some(id))
    {
      uuid := Some(id);
    }

    function GetPrice(): (r: Int32)
      reads this
      ensures r == Value().price
    {
      price
    }

    /** Unlike the constructor, the setter stores any price as it is. */
    method SetPrice(p: Int32)
      modifies this
      ensures GetPrice() == p
      ensures Value() == old(Value()).(price := p)
    {
      price := p;
    }

    function GetName(): (r: string)
      reads this
      ensures r == Value().name
    {
      name
    }

    method SetName(n: string)
      modifies this
      ensures GetName() == n
      ensures Value() == old(Value()).(name := n)
    {
      name := n;
    }

    function GetDescription(): (r: string)
      reads this
      ensures r == Value().description
    {
      description
    }

    method SetDescription(d: string)
      modifies this
      ensures GetDescription() == d
      ensures Value() == old(Value()).(description := d)
    {
      description := d;
    }

    function GetSeller(): (r: string)
      reads this
      ensures r == Value().seller
    {
      seller
    }

    /** The seller's setter (named `setVendeur` in the bean). */
    method SetVendeur(s: string)
      modifies this
      ensures GetSeller() == s
      ensures Value() == old(Value()).(seller := s)
    {
      seller := s;
    }

    /** The text shows the bean's UUID (or "null") and its name, at fixed positions. */
    function ToString(): (r: string)
      reads this
      ensures |r| == 19 + |UuidString(uuid)| + |name|
      ensures r[7..7 + |UuidString(uuid)|] == UuidString(uuid)
      ensures r[17 + |UuidString(uuid)|..17 + |UuidString(uuid)| + |name|] == name
      ensures uuid.Some? ==> |r| == 55 + |name|
    {
      Describe(Value())
    }
  }
}
