/** The alternative order book of go/internal/trading-pairs/trading-pair.go:
    per side, a slice of offers, a map from price string to an id, and a
    counter that hands out the ids. The Go struct keeps the six fields side by
    side (`asksCount`, `askIds`, `asks` and their bid twins); here the three
    fields of one side form a `SideBook`, and `OrderBook` holds one per side. */
module TradingPair {
  import opened Common
  import opened Sorting

  /** `askOffer` / `bidOffer`: the parsed price and the quantity string as sent. */
  datatype Offer = Offer(price: real, quantity: string)

  function Price(o: Offer): real { o.price }

  /** One side as values: the counter, the id map and the offers slice. */
  datatype Side = Side(count: int, ids: map<string, int>, offers: seq<Offer>)

  /** Why the update loop stopped: it ran to the end, it met a removal (which
      returns at once, with the id looked up before the map entry went), or a
      price did not parse. */
  datatype BatchEnd = Completed | Removal(id: int) | PriceParseError

  datatype Processed = Processed(side: Side, end: BatchEnd)

  /** The update loop of `UpdateAsks` / `UpdateBids` up to the point where it
      leaves, without the shift of a removal and the final sort: an unseen
      price gets the counter as its id and the counter moves on before the
      price is parsed; a parsed price is appended with its raw quantity; a
      known price with any other quantity than "0.000" is ignored. */
  function Process(s: Side, updates: seq<Level>, parse: Parser): Processed
    decreases |updates|
  {
    if updates == [] then Processed(s, Completed)
    else
      var u := updates[0];
      var id := if u.price in s.ids then s.ids[u.price] else 0;
      if u.quantity == RemovalQuantity then Processed(s.(ids := s.ids - {u.price}), Removal(id))
      else if u.price in s.ids then Process(s, updates[1..], parse)
      else
        var s1 := s.(count := s.count + 1, ids := s.ids[u.price := s.count]);
        match parse(u.price)
        case None => Processed(s1, PriceParseError)
        case Some(p) => Process(s1.(offers := s.offers + [Offer(p, u.quantity)]), updates[1..], parse)
  }

  /** `slices.Delete(offers, id, id+1)` does not panic. */
  predicate DeletableAt(offers: seq<Offer>, id: int) {
    0 <= id && id + 1 <= |offers|
  }

  /** `after` is `before` once `slices.Delete(before, id, id+1)` ran and its
      result was dropped: the same length, the offers after `id` moved one
      place left; the vacated last slot is left unspecified. */
  predicate ShiftedOut(before: seq<Offer>, after: seq<Offer>, id: int) {
    && DeletableAt(before, id)
    && |after| == |before|
    && (forall j :: 0 <= j < id ==> after[j] == before[j])
    && (forall j :: id <= j < |before| - 1 ==> after[j] == before[j + 1])
  }

  /** nil, an error, or the panic of `slices.Delete`. */
  datatype Status = Ok | Err | Panic

  /** `after` is the side once an update call on `before` returned `status`
      (after a panic nothing is said about it). */
  ghost predicate UpdatedBy(before: Side, after: Side, updates: seq<Level>, parse: Parser,
                            descending: bool, status: Status) {
    var r := Process(before, updates, parse);
    && after.count == r.side.count
    && after.ids == r.side.ids
    && match r.end
       case Completed =>
         status == Ok && multiset(after.offers) == multiset(r.side.offers)
         && OrderedBy(after.offers, Price, descending)
       case PriceParseError =>
         status == Err && after.offers == r.side.offers
       case Removal(id) =>
         if id == 0 then status == Ok && after.offers == r.side.offers
         else if DeletableAt(r.side.offers, id) then status == Ok && ShiftedOut(r.side.offers, after.offers, id)
         else status == Panic
  }

  /** Holds of every side the code can reach: ids are distinct, nonnegative
      and below the counter. */
  predicate Valid(s: Side) {
    && 0 <= s.count
    && (forall p :: p in s.ids ==> 0 <= s.ids[p] < s.count)
    && (forall p, q :: p in s.ids && q in s.ids && p != q ==> s.ids[p] != s.ids[q])
  }

  /** Valid, and one offer for every id handed out. */
  predicate Indexed(s: Side) {
    Valid(s) && |s.offers| == s.count
  }

  /** `append` to a slice, as a fresh copy one longer. */
  method Append(a: array<Offer>, x: Offer) returns (b: array<Offer>)
    ensures fresh(b) && b[..] == a[..] + [x]
  {
    b := new Offer[a.Length + 1];
    var k := 0;
    while k < a.Length
      invariant 0 <= k <= a.Length
      invariant forall j :: 0 <= j < k ==> b[j] == a[j]
    {
      b[k] := a[k];
      k := k + 1;
    }
    b[a.Length] := x;
  }

  /** `slices.Delete(a, i, i+1)` on the backing array, its result discarded. */
  method DeleteAt(a: array<Offer>, i: int)
    requires DeletableAt(a[..], i)
    modifies a
    ensures ShiftedOut(old(a[..]), a[..], i)
  {
    var k := i;
    while k < a.Length - 1
      invariant i <= k <= a.Length - 1
      invariant forall j :: 0 <= j < i ==> a[j] == old(a[j])
      invariant forall j :: i <= j < k ==> a[j] == old(a[j + 1])
      invariant forall j :: k < j < a.Length ==> a[j] == old(a[j])
    {
      a[k] := a[k + 1];
      k := k + 1;
    }
    a[a.Length - 1] := Offer(0.0, "");
  }

  class SideBook {
    var count: int
    var ids: map<string, int>
    var offers: array<Offer>

    ghost function Abstract(): Side
      reads this, offers
    {
      Side(count, ids, offers[..])
    }

    constructor ()
      ensures Abstract() == Side(0, map[], []) && fresh(offers)
    {
      count := 0;
      ids := map[];
      offers := new Offer[0];
    }

    /** The body shared by `UpdateAsks` (ascending) and `UpdateBids`
        (descending). */
    method Update(updates: seq<Level>, parse: Parser, descending: bool) returns (status: Status)
      modifies this, offers
      ensures offers == old(offers) || fresh(offers)
      ensures UpdatedBy(old(Abstract()), Abstract(), updates, parse, descending, status)
    {
      var i := 0;
      while i < |updates|
        invariant 0 <= i <= |updates|
        invariant offers == old(offers) || fresh(offers)
        invariant Process(old(Abstract()), updates, parse) == Process(Abstract(), updates[i..], parse)
      {
        var price, quantity := updates[i].price, updates[i].quantity;
        assert updates[i..][1..] == updates[i + 1..];
        var id := if price in ids then ids[price] else 0;
        if quantity == RemovalQuantity {
          ids := ids - {price};
          if id != 0 {
            if !DeletableAt(offers[..], id) {
              return Panic;
            }
            DeleteAt(offers, id);
          }
          return Ok;
        }
        if price !in ids {
          ids := ids[price := count];
          count := count + 1;
          match parse(price) {
            case None =>
              return Err;
            case Some(p) =>
              offers := Append(offers, Offer(p, quantity));
          }
        }
        i := i + 1;
      }
      SortBy(offers, Price, descending);
      return Ok;
    }
  }

  class OrderBook {
    const asks: SideBook
    const bids: SideBook

    ghost predicate SidesDisjoint()
      reads this, asks, bids
    {
      asks != bids && asks.offers != bids.offers
    }

    /** `NewOrderBook`: both counters 0, both maps and both slices empty. */
    constructor ()
      ensures SidesDisjoint() && fresh(asks) && fresh(bids)
      ensures asks.Abstract() == Side(0, map[], []) && bids.Abstract() == Side(0, map[], [])
    {
      asks := new SideBook();
      bids := new SideBook();
    }

    /** `UpdateAsks`, then `maintainAsksOrder` (lowest ask first). */
    method UpdateAsks(updates: seq<Level>, parse: Parser) returns (status: Status)
      requires SidesDisjoint()
      modifies asks, asks.offers
      ensures SidesDisjoint()
      ensures UpdatedBy(old(asks.Abstract()), asks.Abstract(), updates, parse, false, status)
      ensures bids.Abstract() == old(bids.Abstract())
    {
      status := asks.Update(updates, parse, false);
    }

    /** `UpdateBids`, then `maintainBidsOrder` (highest bid first). */
    method UpdateBids(updates: seq<Level>, parse: Parser) returns (status: Status)
      requires SidesDisjoint()
      modifies bids, bids.offers
      ensures SidesDisjoint()
      ensures UpdatedBy(old(bids.Abstract()), bids.Abstract(), updates, parse, true, status)
      ensures asks.Abstract() == old(asks.Abstract())
    {
      status := bids.Update(updates, parse, true);
    }
  }

  // ---------------------------------------------------------------------
  // Properties of the update loop

  /** The loop keeps the ids valid, only ever appends to the offers, and opens
      a gap between the counter and the number of offers only when a price
      fails to parse. A removal's id is nonnegative and, unless 0, below the
      counter. */
  lemma {:induction false} ProcessInvariants(s: Side, updates: seq<Level>, parse: Parser)
    requires Valid(s)
    ensures var r := Process(s, updates, parse);
      && Valid(r.side)
      && s.offers <= r.side.offers
      && r.side.count - |r.side.offers| == s.count - |s.offers| + (if r.end == PriceParseError then 1 else 0)
      && (r.end.Removal? ==> 0 <= r.end.id && (r.end.id != 0 ==> r.end.id < r.side.count))
    decreases |updates|
  {
    if updates != [] {
      var u := updates[0];
      if u.quantity != RemovalQuantity && u.price !in s.ids {
        var s1 := s.(count := s.count + 1, ids := s.ids[u.price := s.count]);
        assert Valid(s1);
        if parse(u.price).Some? {
          ProcessInvariants(s1.(offers := s.offers + [Offer(parse(u.price).value, u.quantity)]), updates[1..], parse);
        }
      } else if u.quantity != RemovalQuantity {
        ProcessInvariants(s, updates[1..], parse);
      }
    }
  }

  /** `len(offers) == count` with every id below `count` survives every update
      call that returns nil, and then the removal shift never panics; a price
      that fails to parse leaves the counter one ahead of the slice. */
  lemma UpdateKeepsIndexed(before: Side, after: Side, updates: seq<Level>, parse: Parser,
                           descending: bool, status: Status)
    requires Indexed(before)
    requires UpdatedBy(before, after, updates, parse, descending, status)
    ensures status != Panic
    ensures status == Ok ==> Indexed(after)
    ensures status == Err ==> Valid(after) && |after.offers| + 1 == after.count
  {
    ProcessInvariants(before, updates, parse);
    var r := Process(before, updates, parse);
    if r.end == Completed {
      assert |after.offers| == |multiset(after.offers)| == |multiset(r.side.offers)| == |r.side.offers|;
    }
  }

  /** An unseen price with any quantity other than "0.000" gets the counter as
      its id, the counter moves on, and an offer with the parsed price and the
      raw quantity string is appended. */
  lemma InsertUnseen(s: Side, p: string, q: string, rest: seq<Level>, parse: Parser, v: real)
    requires p !in s.ids && q != RemovalQuantity && parse(p) == Some(v)
    ensures Process(s, [Level(p, q)] + rest, parse)
         == Process(Side(s.count + 1, s.ids[p := s.count], s.offers + [Offer(v, q)]), rest, parse)
  {
    assert ([Level(p, q)] + rest)[1..] == rest;
  }

  /** A price that already has an id is ignored unless the quantity is "0.000". */
  lemma KnownPriceIgnored(s: Side, p: string, q: string, rest: seq<Level>, parse: Parser)
    requires p in s.ids && q != RemovalQuantity
    ensures Process(s, [Level(p, q)] + rest, parse) == Process(s, rest, parse)
  {
    assert ([Level(p, q)] + rest)[1..] == rest;
  }

  /** A price that fails to parse still consumes an id and a count, but no
      offer is appended and the rest of the batch is dropped. */
  lemma UnparsablePriceConsumesId(s: Side, p: string, q: string, rest: seq<Level>, parse: Parser)
    requires p !in s.ids && q != RemovalQuantity && parse(p).None?
    ensures Process(s, [Level(p, q)] + rest, parse)
         == Processed(Side(s.count + 1, s.ids[p := s.count], s.offers), PriceParseError)
  {
  }

  /** A removal drops the price's id and ends the call at once: the rest of
      the batch is skipped and no sort happens. When the looked-up id is 0
      (the price is absent, or it was the first one ever inserted) the offers
      are left as they were. */
  lemma RemovalEndsBatch(before: Side, after: Side, p: string, rest: seq<Level>, parse: Parser,
                         descending: bool, status: Status)
    requires UpdatedBy(before, after, [Level(p, RemovalQuantity)] + rest, parse, descending, status)
    ensures after.ids == before.ids - {p} && after.count == before.count
    ensures (p !in before.ids || before.ids[p] == 0) ==> status == Ok && after.offers == before.offers
    ensures p in before.ids && before.ids[p] != 0 && DeletableAt(before.offers, before.ids[p]) ==>
      status == Ok && ShiftedOut(before.offers, after.offers, before.ids[p])
  {
  }

  /** The loop over asks "3", "1", "2" on an empty side hands out ids 0, 1, 2
      and appends in arrival order. */
  lemma ThreeInsertions(parse: Parser)
    requires parse("3") == Some(3.0) && parse("1") == Some(1.0) && parse("2") == Some(2.0)
    ensures Process(Side(0, map[], []), [Level("3", "5"), Level("1", "5"), Level("2", "5")], parse)
         == Processed(Side(3, map["3" := 0, "1" := 1, "2" := 2],
                           [Offer(3.0, "5"), Offer(1.0, "5"), Offer(2.0, "5")]), Completed)
  {
    var batch := [Level("3", "5"), Level("1", "5"), Level("2", "5")];
    InsertUnseen(Side(0, map[], []), "3", "5", batch[1..], parse, 3.0);
    assert [Level("3", "5")] + batch[1..] == batch;
    InsertUnseen(Side(1, map["3" := 0], [Offer(3.0, "5")]), "1", "5", batch[2..], parse, 1.0);
    assert [Level("1", "5")] + batch[2..] == batch[1..];
    InsertUnseen(Side(2, map["3" := 0, "1" := 1], [Offer(3.0, "5"), Offer(1.0, "5")]), "2", "5", [], parse, 2.0);
    assert [Level("2", "5")] + [] == batch[2..];
  }

  /** With distinct prices, the ascending arrangement of three offers is unique. */
  lemma SortedThree(t: seq<Offer>, o1: Offer, o2: Offer, o3: Offer)
    requires o1.price < o2.price < o3.price
    requires OrderedBy(t, Price, false) && multiset(t) == multiset([o3, o1, o2])
    ensures t == [o1, o2, o3]
  {
    assert |t| == 3 by {
      assert |t| == |multiset(t)| == |multiset([o3, o1, o2])|;
    }
    assert forall i :: 0 <= i < 3 ==> t[i] in multiset(t);
    assert o1 in multiset(t) && o3 in multiset(t);
    assert t[0] == o1 by {
      var k :| 0 <= k < 3 && t[k] == o1;
      assert k == 0 || Precedes(Price(t[0]), Price(t[k]), false);
    }
    assert t[2] == o3 by {
      var k :| 0 <= k < 3 && t[k] == o3;
      assert k == 2 || Precedes(Price(t[k]), Price(t[2]), false);
    }
    assert t[1] == o2 by {
      assert t == [o1, t[1], o3];
      assert multiset(t)[o2] == 1;
    }
  }

  /** The id counts insertions, but `slices.Delete` uses it as a position in
      the sorted slice. Asks "3", "1", "2" inserted in that order get ids 0, 1
      and 2 and are sorted to prices 1, 2, 3; removing "1" (id 1) then shifts
      out the offer at position 1, which has price 2, and the offer at price 1
      stays. */
  lemma RemovalShiftsByInsertionId(parse: Parser, s1: Side, s2: Side, st1: Status, st2: Status)
    requires parse("3") == Some(3.0) && parse("1") == Some(1.0) && parse("2") == Some(2.0)
    requires UpdatedBy(Side(0, map[], []), s1, [Level("3", "5"), Level("1", "5"), Level("2", "5")], parse, false, st1)
    requires UpdatedBy(s1, s2, [Level("1", RemovalQuantity)], parse, false, st2)
    ensures st1 == Ok && st2 == Ok
    ensures s1.offers == [Offer(1.0, "5"), Offer(2.0, "5"), Offer(3.0, "5")]
    ensures "1" !in s2.ids && s2.offers[..2] == [Offer(1.0, "5"), Offer(3.0, "5")]
  {
    ThreeInsertions(parse);
    SortedThree(s1.offers, Offer(1.0, "5"), Offer(2.0, "5"), Offer(3.0, "5"));
    assert s1.ids["1"] == 1;
  }
}
