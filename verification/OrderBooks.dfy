/** The order book: open orders indexed by trading pair, and the pair of each order. */
module OrderBooks {
  import opened Common

  /** A trading pair, or some other text from the configuration that names no pair. */
  datatype Pair = PairOf(inAsset: Id, outAsset: Id) | Text(text: string)

  const ALL_PAIRS: Pair := Text("*")

  datatype BookOrder = BookOrder(id: Id, owner: PublicKey, inTick: uint64, outTick: uint64, remaining: uint64)

  /** The heap of a pair, as the bag of its entries by order id. */
  type Heap = map<Id, BookOrder>

  /** What the book says of one order. */
  datatype Listing = Listing(pair: Pair, order: BookOrder)

  /** The entries of a heap, each once, in an order that is up to the heap. */
  method Items(h: Heap) returns (items: seq<BookOrder>)
    ensures |items| == |h|
    ensures forall i :: 0 <= i < |items| ==> exists id :: id in h && h[id] == items[i]
    ensures (forall id :: id in h ==> h[id].id == id) ==>
      forall i, j :: 0 <= i < j < |items| ==> items[i].id != items[j].id
  {
    items := [];
    var rest := h;
    while rest != map[]
      invariant rest.Keys <= h.Keys && forall id :: id in rest ==> rest[id] == h[id]
      invariant |items| + |rest| == |h|
      invariant forall i :: 0 <= i < |items| ==> exists id :: id in h && id !in rest && h[id] == items[i]
      invariant (forall id :: id in h ==> h[id].id == id) ==>
        forall i, j :: 0 <= i < j < |items| ==> items[i].id != items[j].id
      decreases |rest|
    {
      var id :| id in rest;
      items := items + [rest[id]];
      assert (rest - {id}).Keys == rest.Keys - {id};
      rest := rest - {id};
    }
  }

  /** The heaps and the index of pairs are in bijection. */
  ghost predicate InSync(orders: map<Pair, Heap>, orderToPair: map<Id, Pair>) {
    && (forall id :: id in orderToPair ==> orderToPair[id] in orders && id in orders[orderToPair[id]])
    && (forall pair, id :: pair in orders && id in orders[pair] ==>
          id in orderToPair && orderToPair[id] == pair && orders[pair][id].id == id)
  }

  ghost function Index(orders: map<Pair, Heap>, orderToPair: map<Id, Pair>): map<Id, Listing>
    requires InSync(orders, orderToPair)
  {
    map id | id in orderToPair :: Listing(orderToPair[id], orders[orderToPair[id]][id])
  }

  lemma PutInSync(orders: map<Pair, Heap>, orderToPair: map<Id, Pair>, pair: Pair, h: Heap, o: BookOrder)
    requires InSync(orders, orderToPair) && h == (if pair in orders then orders[pair] else map[])
    requires o.id in orderToPair ==> orderToPair[o.id] == pair
    ensures InSync(orders[pair := h[o.id := o]], orderToPair[o.id := pair])
  {
  }

  /** An entry under a pair is added, or replaced where it was. */
  lemma PutEntry(orders: map<Pair, Heap>, orderToPair: map<Id, Pair>, pair: Pair, h: Heap, o: BookOrder)
    requires InSync(orders, orderToPair) && h == (if pair in orders then orders[pair] else map[])
    requires o.id in orderToPair ==> orderToPair[o.id] == pair
    ensures InSync(orders[pair := h[o.id := o]], orderToPair[o.id := pair])
    ensures Index(orders[pair := h[o.id := o]], orderToPair[o.id := pair])
         == Index(orders, orderToPair)[o.id := Listing(pair, o)]
  {
    PutInSync(orders, orderToPair, pair, h, o);
  }

  lemma DropEntry(orders: map<Pair, Heap>, orderToPair: map<Id, Pair>, id: Id)
    requires InSync(orders, orderToPair) && id in orderToPair
    ensures var pair := orderToPair[id];
      && InSync(orders[pair := orders[pair] - {id}], orderToPair - {id})
      && Index(orders[pair := orders[pair] - {id}], orderToPair - {id}) == Index(orders, orderToPair) - {id}
  {
  }

  lemma UnderPair(orders: map<Pair, Heap>, orderToPair: map<Id, Pair>, pair: Pair)
    requires InSync(orders, orderToPair) && pair in orders
    ensures forall id :: id in orders[pair] ==>
      orders[pair][id].id == id && id in Index(orders, orderToPair)
      && Index(orders, orderToPair)[id] == Listing(pair, orders[pair][id])
  {
  }

  class OrderBook {
    var orders: map<Pair, Heap>
    var orderToPair: map<Id, Pair>
    const trackAll: bool

    ghost predicate Valid()
      reads this
    {
      InSync(orders, orderToPair)
    }

    /** Everything the book lists, by order id. */
    ghost function Listings(): map<Id, Listing>
      reads this
      requires Valid()
    {
      Index(orders, orderToPair)
    }

    predicate Tracks(pair: Pair)
      reads this
    {
      trackAll || pair in orders
    }

    constructor (trackedPairs: seq<Pair>)
      ensures Valid() && Listings() == map[]
      ensures trackAll <==> trackedPairs == [ALL_PAIRS]
      ensures orders.Keys == if trackAll then {} else set p | p in trackedPairs
    {
      var m: map<Pair, Heap> := map[];
      var all := false;
      if |trackedPairs| == 1 && trackedPairs[0] == ALL_PAIRS {
        all := true;
      } else {
        for i := 0 to |trackedPairs|
          invariant m.Keys == set p | p in trackedPairs[..i]
          invariant forall p :: p in m ==> m[p] == map[]
        {
          m := m[trackedPairs[i] := map[]];
        }
        assert trackedPairs[..|trackedPairs|] == trackedPairs;
      }
      orders := m;
      orderToPair := map[];
      trackAll := all;
    }

    method Add(txId: Id, actor: PublicKey, inAsset: Id, inTick: uint64, outAsset: Id, outTick: uint64, supply: uint64)
      requires Valid() && txId !in Listings()
      modifies this
      ensures Valid()
      ensures var pair := PairOf(inAsset, outAsset);
        Listings() == if old(Tracks(pair))
                      then old(Listings())[txId := Listing(pair, BookOrder(txId, actor, inTick, outTick, supply))]
                      else old(Listings())
      ensures orders.Keys == if trackAll then old(orders.Keys) + {PairOf(inAsset, outAsset)} else old(orders.Keys)
    {
      var pair := PairOf(inAsset, outAsset);
      var order := BookOrder(txId, actor, inTick, outTick, supply);
      if pair !in orders && !trackAll {
        return;
      }
      var h: Heap := map[];
      if pair in orders {
        h := orders[pair];
      }
      PutEntry(orders, orderToPair, pair, h, order);
      h := h[txId := order];
      orders := orders[pair := h];
      orderToPair := orderToPair[txId := pair];
    }

    method Remove(id: Id)
      requires Valid()
      modifies this
      ensures Valid() && Listings() == old(Listings()) - {id} && orders.Keys == old(orders.Keys)
    {
      if id !in orderToPair {
        return;
      }
      DropEntry(orders, orderToPair, id);
      var pair := orderToPair[id];
      orderToPair := orderToPair - {id};
      // neither the heap nor its entry can be missing
      assert pair in orders && id in orders[pair];
      var h: Heap := orders[pair] - {id};
      orders := orders[pair := h];
    }

    method UpdateRemaining(id: Id, remaining: uint64)
      requires Valid()
      modifies this
      ensures Valid() && orders.Keys == old(orders.Keys)
      ensures Listings() == if id in old(Listings())
                            then var l := old(Listings())[id];
                                 old(Listings())[id := l.(order := l.order.(remaining := remaining))]
                            else old(Listings())
    {
      if id !in orderToPair {
        return;
      }
      var pair := orderToPair[id];
      // neither the heap nor its entry can be missing
      assert pair in orders && id in orders[pair];
      var h: Heap := orders[pair];
      PutEntry(orders, orderToPair, pair, h, h[id].(remaining := remaining));
      h := h[id := h[id].(remaining := remaining)];
      assert orderToPair[id := pair] == orderToPair;
      orders := orders[pair := h];
    }

    /** At most `limit` open orders of a pair, none twice; all of them when there are no more than that. A
        page of negative length panics. */
    method Orders(pair: Pair, limit: int) returns (panicked: bool, page: seq<BookOrder>)
      requires Valid()
      ensures panicked <==> pair in orders && limit < 0
      ensures forall i :: 0 <= i < |page| ==>
        page[i].id in Listings() && Listings()[page[i].id] == Listing(pair, page[i])
      ensures forall i, j :: 0 <= i < j < |page| ==> page[i].id != page[j].id
      ensures |page| == if pair !in orders || limit < 0 then 0
                        else if limit < |orders[pair]| then limit else |orders[pair]|
    {
      panicked, page := false, [];
      if pair !in orders {
        return;
      }
      var h: Heap := orders[pair];
      UnderPair(orders, orderToPair, pair);
      var items := Items(h);
      var arrLen := |items|;
      if limit < arrLen {
        arrLen := limit;
      }
      if arrLen < 0 {
        return true, [];
      }
      for i := 0 to arrLen
        invariant page == items[..i]
      {
        page := page + [items[i]];
      }
      assert forall i :: 0 <= i < |page| ==> page[i] == items[i];
      forall i | 0 <= i < |page| ensures page[i].id in Listings() && Listings()[page[i].id] == Listing(pair, page[i]) {
        var id :| id in h && h[id] == items[i];
      }
    }
  }
}
