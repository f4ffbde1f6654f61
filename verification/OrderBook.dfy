/** The order book as the engine mutates it. */
module OrderBooks {
  import opened Types
  import opened PriceTime
  import opened Levels
  import opened BookModel

  class OrderBook {
    var orders: Slab
    var index: map<OrderId, nat>
    var bids: PriceMap
    var asks: PriceMap

    ghost function State(): Book
      reads this
    {
      Book.Book(orders, index, bids, asks)
    }

    constructor ()
      ensures State() == EmptyBook
    {
      orders := Slab(map[], [], 0);
      index, bids, asks := map[], map[], map[];
    }

    /** Rest a priced order of positive quantity; anything else is refused and changes nothing. */
    method InsertOrder(order: Order) returns (r: Result<nat, InsertError>)
      modifies this
      ensures order.price.None? ==> r == Err(MarketOrderNotAllowed) && State() == old(State())
      ensures order.price.Some? && order.quantity <= 0 ==> r == Err(NonPositiveQuantity) && State() == old(State())
      ensures order.price.Some? && 0 < order.quantity ==>
                r == Ok(old(orders).VacantKey()) && State() == Insert(old(State()), order)
      ensures r.Ok? ==> r.value == if old(orders).free == [] then old(orders).capacity else old(orders).free[0]
      ensures r.Ok? ==> r.value in orders.entries && orders.entries[r.value] == order
      ensures r.Ok? && WellFormed(old(State())) ==>
                (WellFormed(State()) <==> order.id !in old(index))
      ensures r.Ok? && Sound(old(State())) ==>
                && Sound(State())
                && var own := ViewOf(old(State())).On(order.side);
                   ViewOf(State()) == ViewOf(old(State())).With(order.side, Rest(order.side, own, order))
    {
      hide Sound, AllIndexed, Flat, Rest;
      if order.price.None? {
        return Err(MarketOrderNotAllowed);
      }
      if order.quantity <= 0 {
        return Err(NonPositiveQuantity);
      }
      var price := order.price.value;
      var key := orders.VacantKey();
      orders := orders.Put(order);
      index := index[order.id := key];
      if order.side.Bid? {
        bids := bids[price := Queue(bids, price) + [key]];
      } else {
        asks := asks[price := Queue(asks, price) + [key]];
      }
      ghost var before := old(State());
      if Sound(before) {
        InsertRefines(before, order);
      }
      if WellFormed(before) {
        InsertNeedsFreshId(before, order);
      }
      return Ok(key);
    }

    /** Cancel by id.  An unknown id and a completed order are refused and change nothing. */
    method CancelOrder(id: OrderId) returns (r: Result<(), CancelError>)
      requires id in index ==> index[id] in orders.entries
      modifies this
      ensures id !in old(index) ==> r == Err(NotFound(id))
      ensures id in old(index) ==>
                var order := old(orders).entries[old(index)[id]];
                r == if order.IsComplete() then Err(AlreadyComplete(id))
                     else if order.price.None? then Err(NotFound(id))
                     else Ok(())
      ensures r.Err? ==> State() == old(State())
      ensures r.Ok? ==> index == old(index) - {id} && orders.free == [old(index)[id]] + old(orders).free
      ensures r.Ok? && Sound(old(State())) ==>
                State() == Remove(old(State()), old(index)[id]) && Sound(State())
      ensures r.Ok? && WellFormed(old(State())) ==>
                && WellFormed(State())
                && var side := old(orders).entries[old(index)[id]].side;
                   ViewOf(State()) == ViewOf(old(State())).With(side, Without(ViewOf(old(State())).On(side), id))
    {
      hide Sound, AllIndexed, Flat, Drop, Without, Remove;
      if id !in index {
        return Err(NotFound(id));
      }
      var key := index[id];
      var order := orders.entries[key];
      if order.IsComplete() {
        return Err(AlreadyComplete(id));
      }
      if order.price.None? {
        return Err(NotFound(id));
      }
      ghost var before := State();
      var price := order.price.value;
      orders := orders.(entries := orders.entries[key := order.(status := Cancelled)]);
      if order.side.Bid? {
        if price in bids {
          bids := SetQueue(bids, price, Drop(bids[price], key));
        }
      } else {
        if price in asks {
          asks := SetQueue(asks, price, Drop(asks[price], key));
        }
      }
      orders := orders.Take(key);
      index := index - {id};
      if Sound(before) {
        Unlinked(before, id, State());
      }
      return Ok(());
    }

    /** The highest bid. */
    method BestBid() returns (p: Option<Price>)
      ensures p == if bids == map[] then None else Some(Best(Bid, bids.Keys))
      ensures p.Some? ==> p.value in bids && forall q :: q in bids ==> q <= p.value
    {
      if bids == map[] {
        return None;
      }
      BestExists(Bid, bids.Keys);
      var best :| best in bids.Keys && forall q :: q in bids.Keys ==> q <= best;
      assert Rank(Bid, Best(Bid, bids.Keys)) <= Rank(Bid, best);
      return Some(best);
    }

    /** The lowest ask. */
    method BestAsk() returns (p: Option<Price>)
      ensures p == if asks == map[] then None else Some(Best(Ask, asks.Keys))
      ensures p.Some? ==> p.value in asks && forall q :: q in asks ==> p.value <= q
    {
      if asks == map[] {
        return None;
      }
      BestExists(Ask, asks.Keys);
      var best :| best in asks.Keys && forall q :: q in asks.Keys ==> best <= q;
      assert Rank(Ask, Best(Ask, asks.Keys)) <= Rank(Ask, best);
      return Some(best);
    }

    /** How many orders rest at a price: the length of that level in the view. */
    function LevelDepth(side: Side, price: Price): (n: nat)
      requires Sound(State())
      reads this
      ensures n == |AtPrice(SideOrders(State(), side), price)|
    {
      var m := if side.Bid? then bids else asks;
      LevelsArePriced(State().slab.entries, side, State().On(side));
      LevelOfFlatten(side, OrderLevels(State().slab.entries, State().On(side)), price);
      if price in m then |m[price]| else 0
    }

    method BestBidFront() returns (k: Option<nat>)
      ensures k.None? <==> bids == map[] || bids[Best(Bid, bids.Keys)] == []
      ensures k.Some? ==> IsFront(Bid, bids, k.value)
    {
      var p := BestBid();
      if p.None? || |bids[p.value]| == 0 {
        return None;
      }
      return Some(bids[p.value][0]);
    }

    method BestAskFront() returns (k: Option<nat>)
      ensures k.None? <==> asks == map[] || asks[Best(Ask, asks.Keys)] == []
      ensures k.Some? ==> IsFront(Ask, asks, k.value)
    {
      var p := BestAsk();
      if p.None? || |asks[p.value]| == 0 {
        return None;
      }
      return Some(asks[p.value][0]);
    }

    /** Drop the front order of a level from all four structures. */
    method PopFront(side: Side, price: Price)
      modifies this
      ensures State() == BookModel.PopFront(old(State()), side, price)
    {
      var m := if side.Bid? then bids else asks;
      if price !in m {
        return;
      }
      var level := m[price];
      if |level| > 0 {
        var key := level[0];
        level := level[1..];
        if key in orders.entries {
          var id := orders.entries[key].id;
          orders := orders.Take(key);
          index := index - {id};
        }
      }
      m := SetQueue(m, price, level);
      if side.Bid? {
        bids := m;
      } else {
        asks := m;
      }
    }

    function GetOrder(key: nat): Option<Order>
      reads this
    {
      if key in orders.entries then Some(orders.entries[key]) else None
    }

    /** Overwrite the order under an occupied key, as a mutable borrow does. */
    method SetOrder(key: nat, order: Order)
      requires key in orders.entries
      modifies this`orders
      ensures State() == Amend(old(State()), key, order)
    {
      orders := orders.(entries := orders.entries[key := order]);
    }
  }

  /** The state a cancel leaves: the order marked, its key out of its level, then out of slab and
      index. */
  ghost predicate Unlinks(b: Book, k: nat, id: OrderId, after: Book)
    requires k in b.slab.entries && b.slab.entries[k].price.Some?
  {
    var o := b.slab.entries[k];
    var m := b.On(o.side);
    && after.slab == b.slab.(entries := b.slab.entries[k := o.(status := Cancelled)]).Take(k)
    && after.index == b.index - {id}
    && after.On(o.side.Opposite()) == b.On(o.side.Opposite())
    && after.On(o.side) == if o.price.value in m then SetQueue(m, o.price.value, Drop(m[o.price.value], k)) else m
  }

  lemma UnlinksIsRemove(b: Book, k: nat, id: OrderId, after: Book)
    requires k in b.slab.entries && b.slab.entries[k].price.Some? && b.slab.entries[k].id == id
    requires b.slab.entries[k].price.value in b.On(b.slab.entries[k].side)
    requires Unlinks(b, k, id, after)
    ensures after == Remove(b, k)
  {
    hide Drop;
    assert b.slab.entries[k := b.slab.entries[k].(status := Cancelled)] - {k} == b.slab.entries - {k};
  }

  /** So a cancel removes the key. */
  lemma Unlinked(b: Book, id: OrderId, after: Book)
    requires Sound(b) && id in b.index
    requires b.index[id] in b.slab.entries && b.slab.entries[b.index[id]].price.Some?
    requires Unlinks(b, b.index[id], id, after)
    ensures after == Remove(b, b.index[id]) && Sound(after)
    ensures WellFormed(b) ==>
            && WellFormed(after)
            && var o := b.slab.entries[b.index[id]];
            ViewOf(after) == ViewOf(b).With(o.side, Without(ViewOf(b).On(o.side), id))
  {
    var k := b.index[id];
    IndexNames(b, id);
    RemoveIsSound(b, k);
    if WellFormed(b) {
      RemoveRefines(b, k);
    }
    hide Sound, AllIndexed, Flat, Unlinks, Remove, Without;
    UnlinksIsRemove(b, k, id, after);
  }
}
