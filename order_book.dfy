/** The order book the event handler uses (go/internal/order-book.go): one
    `map[string]float64` per side, keyed by the price string exactly as sent
    and holding the parsed quantity. */
module MapOrderBook {
  import opened Common
  import opened Sorting

  /** One side after a batch, and whether the batch stopped early because a
      quantity did not parse. */
  datatype Applied = Applied(levels: map<string, real>, failed: bool)

  /** The update loop of `UpdateAsks` / `UpdateBids`, in wire order: quantity
      "0.000" deletes the price, an unseen price is inserted with its parsed
      quantity, a price already present is left as it is (the first write
      wins). The batch stops at the first unseen price whose quantity does not
      parse; what came before it stays applied. */
  function ApplyUpdates(m: map<string, real>, updates: seq<Level>, parse: Parser): Applied
    decreases |updates|
  {
    if updates == [] then Applied(m, false)
    else
      var u := updates[0];
      if u.quantity == RemovalQuantity then ApplyUpdates(m - {u.price}, updates[1..], parse)
      else if u.price in m then ApplyUpdates(m, updates[1..], parse)
      else match parse(u.quantity)
        case None => Applied(m, true)
        case Some(q) => ApplyUpdates(m[u.price := q], updates[1..], parse)
  }

  /** The loop itself, run over a copy of the side's map. */
  method ApplyBatch(m: map<string, real>, updates: seq<Level>, parse: Parser)
    returns (levels: map<string, real>, failed: bool)
    ensures Applied(levels, failed) == ApplyUpdates(m, updates, parse)
  {
    levels := m;
    var i := 0;
    while i < |updates|
      invariant 0 <= i <= |updates|
      invariant ApplyUpdates(levels, updates[i..], parse) == ApplyUpdates(m, updates, parse)
    {
      var price, quantity := updates[i].price, updates[i].quantity;
      assert updates[i..][1..] == updates[i + 1..];
      if quantity == RemovalQuantity {
        levels := levels - {price};
      } else if price !in levels {
        match parse(quantity) {
          case None =>
            return levels, true;
          case Some(q) =>
            levels := levels[price := q];
        }
      }
      i := i + 1;
    }
    return levels, false;
  }

  // ---------------------------------------------------------------------
  // What a batch does to the map

  /** A price the batch never names keeps its entry, or stays absent, even
      when the batch stops at a bad quantity. */
  lemma {:induction false} UntouchedPricesKept(m: map<string, real>, updates: seq<Level>, parse: Parser, p: string)
    requires forall i :: 0 <= i < |updates| ==> updates[i].price != p
    ensures var r := ApplyUpdates(m, updates, parse).levels;
      (p in r <==> p in m) && (p in m ==> r[p] == m[p])
    decreases updates
  {
    if updates != [] {
      var u, rest := updates[0], updates[1..];
      assert u.price != p;
      assert forall i :: 0 <= i < |rest| ==> rest[i] == updates[i + 1];
      if u.quantity == RemovalQuantity {
        UntouchedPricesKept(m - {u.price}, rest, parse, p);
      } else if u.price in m {
        UntouchedPricesKept(m, rest, parse, p);
      } else if parse(u.quantity).Some? {
        UntouchedPricesKept(m[u.price := parse(u.quantity).value], rest, parse, p);
      }
    }
  }

  /** Applying `a + b` is applying `a` and then, unless `a` stopped at a bad
      quantity, applying `b` to the result. */
  lemma {:induction false} BatchSplit(m: map<string, real>, a: seq<Level>, b: seq<Level>, parse: Parser)
    ensures ApplyUpdates(m, a + b, parse) ==
      var ra := ApplyUpdates(m, a, parse); if ra.failed then ra else ApplyUpdates(ra.levels, b, parse)
    decreases a
  {
    if a == [] {
      assert a + b == b;
    } else {
      var u := a[0];
      assert (a + b)[0] == u && (a + b)[1..] == a[1..] + b;
      if u.quantity == RemovalQuantity {
        BatchSplit(m - {u.price}, a[1..], b, parse);
      } else if u.price in m {
        BatchSplit(m, a[1..], b, parse);
      } else if parse(u.quantity).Some? {
        BatchSplit(m[u.price := parse(u.quantity).value], a[1..], b, parse);
      }
    }
  }

  /** A price already on the book keeps its old quantity whatever nonzero
      quantities later updates carry for it: only a removal can touch it. */
  lemma {:induction false} ExistingLevelKept(m: map<string, real>, updates: seq<Level>, parse: Parser, p: string)
    requires p in m
    requires forall i :: 0 <= i < |updates| && updates[i].price == p ==> updates[i].quantity != RemovalQuantity
    ensures var r := ApplyUpdates(m, updates, parse).levels; p in r && r[p] == m[p]
    decreases updates
  {
    if updates != [] {
      var u, rest := updates[0], updates[1..];
      assert forall i :: 0 <= i < |rest| ==> rest[i] == updates[i + 1];
      if u.quantity == RemovalQuantity {
        assert u.price != p;
        ExistingLevelKept(m - {u.price}, rest, parse, p);
      } else if u.price in m {
        ExistingLevelKept(m, rest, parse, p);
      } else if parse(u.quantity).Some? {
        ExistingLevelKept(m[u.price := parse(u.quantity).value], rest, parse, p);
      }
    }
  }

  /** When a batch names an unseen price several times without removing it,
      the first quantity is the one stored. */
  lemma FirstWriteWins(m: map<string, real>, pre: seq<Level>, p: string, q: string, post: seq<Level>,
                       parse: Parser, v: real)
    requires p !in m && forall i :: 0 <= i < |pre| ==> pre[i].price != p
    requires !ApplyUpdates(m, pre, parse).failed
    requires q != RemovalQuantity && parse(q) == Some(v)
    requires forall i :: 0 <= i < |post| && post[i].price == p ==> post[i].quantity != RemovalQuantity
    ensures var r := ApplyUpdates(m, pre + [Level(p, q)] + post, parse).levels; p in r && r[p] == v
  {
    assert pre + [Level(p, q)] + post == pre + ([Level(p, q)] + post);
    BatchSplit(m, pre, [Level(p, q)] + post, parse);
    var ra := ApplyUpdates(m, pre, parse);
    UntouchedPricesKept(m, pre, parse, p);
    assert ([Level(p, q)] + post)[1..] == post;
    ExistingLevelKept(ra.levels[p := v], post, parse, p);
  }

  /** A removal deletes the price for good unless a later update of the same
      batch names it again (and unless an earlier update stopped the batch). */
  lemma RemovalDeletes(m: map<string, real>, pre: seq<Level>, p: string, post: seq<Level>, parse: Parser)
    requires !ApplyUpdates(m, pre, parse).failed
    requires forall i :: 0 <= i < |post| ==> post[i].price != p
    ensures p !in ApplyUpdates(m, pre + [Level(p, RemovalQuantity)] + post, parse).levels
  {
    assert pre + [Level(p, RemovalQuantity)] + post == pre + ([Level(p, RemovalQuantity)] + post);
    BatchSplit(m, pre, [Level(p, RemovalQuantity)] + post, parse);
    assert ([Level(p, RemovalQuantity)] + post)[1..] == post;
    UntouchedPricesKept(ApplyUpdates(m, pre, parse).levels - {p}, post, parse, p);
  }

  /** Removing a price that is not on the book changes nothing. */
  lemma RemovalOfAbsentIsNoOp(m: map<string, real>, p: string, parse: Parser)
    requires p !in m
    ensures ApplyUpdates(m, [Level(p, RemovalQuantity)], parse) == Applied(m, false)
  {
    assert m - {p} == m;
  }

  /** Only the literal "0.000" removes: a zero spelled "0" is stored as a level
      of quantity zero. */
  lemma OtherZeroSpellingInserted(m: map<string, real>, p: string, parse: Parser)
    requires p !in m && parse("0") == Some(0.0)
    ensures ApplyUpdates(m, [Level(p, "0")], parse) == Applied(m[p := 0.0], false)
  {
  }

  /** A quantity that does not parse stops the batch with an error; the updates
      before it stay applied and the ones after it are not applied. */
  lemma FailureKeepsEarlierUpdates(m: map<string, real>, pre: seq<Level>, p: string, q: string,
                                   post: seq<Level>, parse: Parser)
    requires !ApplyUpdates(m, pre, parse).failed
    requires q != RemovalQuantity && parse(q).None?
    requires p !in ApplyUpdates(m, pre, parse).levels
    ensures ApplyUpdates(m, pre + [Level(p, q)] + post, parse)
         == Applied(ApplyUpdates(m, pre, parse).levels, true)
  {
    assert pre + [Level(p, q)] + post == pre + ([Level(p, q)] + post);
    BatchSplit(m, pre, [Level(p, q)] + post, parse);
  }

  // ---------------------------------------------------------------------
  // sortPrices and the touch prices

  predicate AllParse(keys: set<string>, parse: Parser) {
    forall k :: k in keys ==> parse(k).Some?
  }

  /** The parsed values of a set of price strings, with multiplicity: two
      spellings of one number count twice, as they are two keys of the map. */
  ghost function PriceBag(keys: set<string>, parse: Parser): multiset<real>
    requires AllParse(keys, parse)
    decreases keys
  {
    if keys == {} then multiset{}
    else var k :| k in keys; PriceBag(keys - {k}, parse) + multiset{parse(k).value}
  }

  /** Any key may be taken out of the bag first, so the order in which a map
      is iterated does not matter. */
  lemma {:induction false} PriceBagPick(keys: set<string>, parse: Parser, k: string)
    requires AllParse(keys, parse) && k in keys
    ensures PriceBag(keys, parse) == PriceBag(keys - {k}, parse) + multiset{parse(k).value}
    decreases keys
  {
    var j :| j in keys && PriceBag(keys, parse) == PriceBag(keys - {j}, parse) + multiset{parse(j).value};
    if j != k {
      PriceBagPick(keys - {j}, parse, k);
      PriceBagPick(keys - {k}, parse, j);
      assert keys - {j} - {k} == keys - {k} - {j};
    }
  }

  /** Adding one more key adds its parsed value to the bag. */
  lemma PriceBagAdd(done: set<string>, parse: Parser, k: string)
    requires AllParse(done + {k}, parse) && k !in done
    ensures PriceBag(done + {k}, parse) == PriceBag(done, parse) + multiset{parse(k).value}
  {
    PriceBagPick(done + {k}, parse, k);
    assert done + {k} - {k} == done;
  }

  lemma {:induction false} PriceBagSize(keys: set<string>, parse: Parser)
    requires AllParse(keys, parse)
    ensures |PriceBag(keys, parse)| == |keys|
    decreases keys
  {
    if keys != {} {
      var k :| k in keys;
      PriceBagPick(keys, parse, k);
      PriceBagSize(keys - {k}, parse);
    }
  }

  lemma {:induction false} KeyInPriceBag(keys: set<string>, parse: Parser, k: string)
    requires AllParse(keys, parse) && k in keys
    ensures parse(k).value in PriceBag(keys, parse)
  {
    PriceBagPick(keys, parse, k);
  }

  lemma {:induction false} PriceBagFromKeys(keys: set<string>, parse: Parser, x: real)
    requires AllParse(keys, parse) && x in PriceBag(keys, parse)
    ensures exists k :: k in keys && parse(k) == Some(x)
    decreases keys
  {
    var k :| k in keys;
    PriceBagPick(keys, parse, k);
    if parse(k) != Some(x) {
      PriceBagFromKeys(keys - {k}, parse, x);
    }
  }

  /** `s` is a slice `sortPrices` may return for a side whose price strings are
      `keys`: the parsed prices, each key once, best first. */
  ghost predicate IsLadder(s: seq<real>, keys: set<string>, parse: Parser, descending: bool) {
    AllParse(keys, parse) && OrderedBy(s, Id, descending) && multiset(s) == PriceBag(keys, parse)
  }

  /** The sorted price list is determined by the side, whatever order the map
      was iterated in. */
  lemma LadderUnique(s: seq<real>, t: seq<real>, keys: set<string>, parse: Parser, descending: bool)
    requires IsLadder(s, keys, parse, descending) && IsLadder(t, keys, parse, descending)
    ensures s == t
  {
    OrderedUnique(s, t, descending);
  }

  /** The ladder has one rung per price string; its head is the best price:
      the lowest for asks, the highest for bids. */
  lemma LadderShape(s: seq<real>, keys: set<string>, parse: Parser, descending: bool)
    requires IsLadder(s, keys, parse, descending)
    ensures |s| == |keys|
    ensures forall k :: k in keys ==> parse(k).value in s
    ensures forall i :: 0 <= i < |s| ==> exists k :: k in keys && parse(k) == Some(s[i])
    ensures |s| > 0 ==> forall k :: k in keys ==> Precedes(s[0], parse(k).value, descending)
  {
    PriceBagSize(keys, parse);
    assert |s| == |multiset(s)|;
    forall k | k in keys ensures parse(k).value in s {
      KeyInPriceBag(keys, parse, k);
    }
    forall i | 0 <= i < |s| ensures exists k :: k in keys && parse(k) == Some(s[i]) {
      assert s[i] in multiset(s);
      PriceBagFromKeys(keys, parse, s[i]);
    }
    forall k | k in keys && |s| > 0 ensures Precedes(s[0], parse(k).value, descending) {
      HeadPrecedes(s, parse(k).value, descending);
    }
  }

  /** `sortPrices`: parse every key of the map into a fresh slice, then sort it
      in place, ascending for asks and descending for bids. Any key that does
      not parse makes it fail. */
  method SortPrices(prices: map<string, real>, parse: Parser, descending: bool) returns (sorted: Option<seq<real>>)
    ensures sorted.None? <==> !AllParse(prices.Keys, parse)
    ensures sorted.Some? ==> IsLadder(sorted.value, prices.Keys, parse, descending)
  {
    var keys: seq<real> := [];
    var rest := prices.Keys;
    ghost var done: set<string> := {};
    while rest != {}
      invariant rest !! done && rest + done == prices.Keys
      invariant AllParse(done, parse)
      invariant multiset(keys) == PriceBag(done, parse)
      decreases rest
    {
      var price :| price in rest;
      match parse(price) {
        case None =>
          return None;
        case Some(p) =>
          PriceBagAdd(done, parse, price);
          rest, done := rest - {price}, done + {price};
          keys := keys + [p];
      }
    }
    assert done == prices.Keys;
    var a := new real[|keys|](i requires 0 <= i < |keys| => keys[i]);
    assert a[..] == keys;
    SortBy(a, Id, descending);
    return Some(a[..]);
  }

  /** How an update call ends: both touch prices are returned, an error is
      returned (a quantity or a stored price does not parse), or indexing the
      empty sorted slice panics. */
  datatype SideStatus = Quoted | Unparsable | EmptySide

  /** The `(float64, float64, error)` an update call returns; both prices are 0
      unless `status` is `Quoted`. */
  datatype Quote = Quote(best: real, tenth: real, status: SideStatus)

  function StatusOf(a: Applied, parse: Parser): SideStatus {
    if a.failed || !AllParse(a.levels.Keys, parse) then Unparsable
    else if a.levels == map[] then EmptySide
    else Quoted
  }

  /** `best` is element 0 and `tenth` element 9 (or 0 when there are fewer than
      ten levels) of the sorted prices of `levels`. */
  ghost predicate IsTouch(levels: map<string, real>, parse: Parser, descending: bool, best: real, tenth: real) {
    exists s :: IsLadder(s, levels.Keys, parse, descending) && |s| > 0
      && best == s[0] && tenth == (if |s| > 9 then s[9] else 0.0)
  }

  /** The tail of `UpdateAsks` / `UpdateBids`: after the loop, return the error
      if there was one, sort the prices, and read off elements 0 and 9. */
  method QuoteSide(a: Applied, parse: Parser, descending: bool) returns (q: Quote)
    ensures q.status == StatusOf(a, parse)
    ensures q.status != Quoted ==> q.best == 0.0 && q.tenth == 0.0
    ensures q.status == Quoted ==> IsTouch(a.levels, parse, descending, q.best, q.tenth)
    ensures q.status == Quoted ==>
      (exists k :: k in a.levels && parse(k) == Some(q.best)) &&
      (forall k :: k in a.levels ==> Precedes(q.best, parse(k).value, descending))
    ensures q.status == Quoted && |a.levels| < 10 ==> q.tenth == 0.0
  {
    if a.failed {
      return Quote(0.0, 0.0, Unparsable);
    }
    var sorted := SortPrices(a.levels, parse, descending);
    if sorted.None? {
      return Quote(0.0, 0.0, Unparsable);
    }
    var s := sorted.value;
    LadderShape(s, a.levels.Keys, parse, descending);
    if |s| == 0 {
      assert a.levels.Keys == {};
      return Quote(0.0, 0.0, EmptySide);
    }
    var tenth := if |s| > 9 then s[9] else 0.0;
    q := Quote(s[0], tenth, Quoted);
  }

  /** Only the quantity is parsed when a level is inserted, so a price string
      that does not parse is stored, and every later update call on that side
      returns an error until a removal names it. */
  lemma UnparsablePriceKeyPersists(m: map<string, real>, updates: seq<Level>, parse: Parser, p: string)
    requires p in m && parse(p).None?
    requires forall i :: 0 <= i < |updates| && updates[i].price == p ==> updates[i].quantity != RemovalQuantity
    ensures StatusOf(ApplyUpdates(m, updates, parse), parse) == Unparsable
  {
    ExistingLevelKept(m, updates, parse, p);
  }

  class OrderBook {
    var asks: map<string, real>
    var bids: map<string, real>

    /** `NewOrderBook`: both sides empty. */
    constructor ()
      ensures asks == map[] && bids == map[]
    {
      asks := map[];
      bids := map[];
    }

    /** Applies the batch to the asks and returns the lowest ask and the tenth
        lowest; the bids are untouched. */
    method UpdateAsks(updates: seq<Level>, parse: Parser) returns (q: Quote)
      modifies this
      ensures var a := ApplyUpdates(old(asks), updates, parse);
        asks == a.levels && q.status == StatusOf(a, parse)
      ensures bids == old(bids)
      ensures q.status != Quoted ==> q.best == 0.0 && q.tenth == 0.0
      ensures q.status == Quoted ==> IsTouch(asks, parse, false, q.best, q.tenth)
    {
      var levels, failed := ApplyBatch(asks, updates, parse);
      asks := levels;
      q := QuoteSide(Applied(levels, failed), parse, false);
    }

    /** Applies the batch to the bids and returns the highest bid and the tenth
        highest; the asks are untouched. */
    method UpdateBids(updates: seq<Level>, parse: Parser) returns (q: Quote)
      modifies this
      ensures var a := ApplyUpdates(old(bids), updates, parse);
        bids == a.levels && q.status == StatusOf(a, parse)
      ensures asks == old(asks)
      ensures q.status != Quoted ==> q.best == 0.0 && q.tenth == 0.0
      ensures q.status == Quoted ==> IsTouch(bids, parse, true, q.best, q.tenth)
    {
      var levels, failed := ApplyBatch(bids, updates, parse);
      bids := levels;
      q := QuoteSide(Applied(levels, failed), parse, true);
    }
  }
}
