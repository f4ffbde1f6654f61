/** The benchmark's second order book: sorted vectors of levels instead of ordered maps, proved to
    go through exactly the same states. */
module VecBooks {
  import opened Types
  import opened PriceTime
  import opened Levels
  import opened BookModel
  import opened OrderBooks
  import Matching

  type Vec = seq<(Price, seq<nat>)>

  /** Levels sorted by strictly ascending price, none of them empty. */
  ghost predicate SortedVec(v: Vec) {
    && (forall i, j :: 0 <= i < j < |v| ==> v[i].0 < v[j].0)
    && (forall i :: 0 <= i < |v| ==> v[i].1 != [])
  }

  /** The price map a vector stands for. */
  ghost function ToMap(v: Vec): PriceMap {
    if v == [] then map[] else ToMap(v[1..])[v[0].0 := v[0].1]
  }

  lemma {:induction false} ToMapEntries(v: Vec)
    requires SortedVec(v)
    ensures forall p :: p in ToMap(v) <==> exists i :: 0 <= i < |v| && v[i].0 == p
    ensures forall i :: 0 <= i < |v| ==> v[i].0 in ToMap(v) && ToMap(v)[v[i].0] == v[i].1
  {
    if v != [] {
      assert forall i :: 0 < i < |v| ==> v[i] == v[1..][i - 1];
      ToMapEntries(v[1..]);
      forall p
        ensures p in ToMap(v) <==> exists i :: 0 <= i < |v| && v[i].0 == p
      {
        if p in ToMap(v[1..]) {
          var i :| 0 <= i < |v[1..]| && v[1..][i].0 == p;
          assert v[i + 1].0 == p;
        }
      }
    }
  }

  lemma TailSorted(v: Vec)
    requires SortedVec(v) && v != []
    ensures SortedVec(v[1..]) && v[0].0 !in ToMap(v[1..])
    ensures forall i :: 0 <= i < |v[1..]| ==> v[1..][i] == v[i + 1]
  {
    ToMapEntries(v[1..]);
  }

  lemma ConsMap(head: (Price, seq<nat>), tail: Vec)
    ensures ToMap([head] + tail) == ToMap(tail)[head.0 := head.1]
  {
    assert ([head] + tail)[1..] == tail;
  }

  lemma ReplaceSorted(v: Vec, i: nat, q: seq<nat>)
    requires SortedVec(v) && i < |v| && q != []
    ensures SortedVec(v[i := (v[i].0, q)])
  {
    assert forall j :: 0 <= j < |v| ==> v[i := (v[i].0, q)][j].0 == v[j].0;
  }

  lemma {:induction false} ReplaceLevel(v: Vec, i: nat, q: seq<nat>)
    requires SortedVec(v) && i < |v|
    ensures ToMap(v[i := (v[i].0, q)]) == ToMap(v)[v[i].0 := q]
  {
    var tail := v[1..];
    TailSorted(v);
    ConsMap(v[0], tail);
    assert [v[0]] + tail == v;
    if i == 0 {
      hide SortedVec, ToMap;
      ConsMap((v[0].0, q), tail);
      assert v[0 := (v[0].0, q)] == [(v[0].0, q)] + tail;
      MapAgain(ToMap(tail), v[0].0, v[0].1, q);
    } else {
      HeadDiffers(v, i);
      ReplaceLevel(tail, i - 1, q);
      hide SortedVec, ToMap;
      var x := (v[i].0, q);
      var tail' := tail[i - 1 := x];
      SliceReplace(v, i, x);
      assert ToMap(tail') == ToMap(tail)[x.0 := q];
      ConsMap(v[0], tail');
      MapSwap(ToMap(tail), v[0].0, v[0].1, x.0, q);
      assert v[i := x] == [v[0]] + tail';
    }
  }

  lemma HeadDiffers(v: Vec, i: nat)
    requires SortedVec(v) && 0 < i < |v|
    ensures v[0].0 != v[i].0
  {
  }

  lemma InsertSorted(v: Vec, i: nat, p: Price, q: seq<nat>)
    requires SortedVec(v) && i <= |v| && q != []
    requires (forall j :: 0 <= j < i ==> v[j].0 < p) && (forall j :: i <= j < |v| ==> p < v[j].0)
    ensures SortedVec(v[..i] + [(p, q)] + v[i..])
  {
  }

  lemma SliceInsert<T>(v: seq<T>, i: nat, x: T)
    requires 0 < i <= |v|
    ensures v[..i] + [x] + v[i..] == [v[0]] + (v[1..][..i - 1] + [x] + v[1..][i - 1..])
  {
  }

  lemma SliceRemove<T>(v: seq<T>, i: nat)
    requires 0 < i < |v|
    ensures v[..i] + v[i + 1..] == [v[0]] + (v[1..][..i - 1] + v[1..][i..])
  {
  }

  lemma SliceReplace<T>(v: seq<T>, i: nat, x: T)
    requires 0 < i < |v|
    ensures v[i := x] == [v[0]] + v[1..][i - 1 := x]
    ensures v[1..][i - 1] == v[i]
  {
  }

  lemma {:induction false} InsertLevel(v: Vec, i: nat, p: Price, q: seq<nat>)
    requires SortedVec(v) && i <= |v|
    requires (forall j :: 0 <= j < i ==> v[j].0 < p) && (forall j :: i <= j < |v| ==> p < v[j].0)
    ensures ToMap(v[..i] + [(p, q)] + v[i..]) == ToMap(v)[p := q]
  {
    if i == 0 {
      hide SortedVec, ToMap;
      assert v[..0] + [(p, q)] + v[0..] == [(p, q)] + v;
      ConsMap((p, q), v);
    } else {
      TailSorted(v);
      InsertLevel(v[1..], i - 1, p, q);
      hide SortedVec, ToMap;
      SliceInsert(v, i, (p, q));
      ConsMap(v[0], v[1..]);
      ConsMap(v[0], v[1..][..i - 1] + [(p, q)] + v[1..][i - 1..]);
      MapSwap(ToMap(v[1..]), v[0].0, v[0].1, p, q);
      assert [v[0]] + v[1..] == v;
    }
  }

  lemma RemoveSorted(v: Vec, i: nat)
    requires SortedVec(v) && i < |v|
    ensures SortedVec(v[..i] + v[i + 1..])
  {
  }

  lemma {:induction false} RemoveLevel(v: Vec, i: nat)
    requires SortedVec(v) && i < |v|
    ensures ToMap(v[..i] + v[i + 1..]) == ToMap(v) - {v[i].0}
  {
    TailSorted(v);
    assert [v[0]] + v[1..] == v;
    ConsMap(v[0], v[1..]);
    if i == 0 {
      hide SortedVec, ToMap;
      assert v[..0] + v[1..] == v[1..];
      MapUndo(ToMap(v[1..]), v[0].0, v[0].1);
    } else {
      HeadDiffers(v, i);
      RemoveLevel(v[1..], i - 1);
      hide SortedVec, ToMap;
      SliceRemove(v, i);
      assert v[1..][i - 1] == v[i];
      ConsMap(v[0], v[1..][..i - 1] + v[1..][i..]);
      MapRemove(ToMap(v[1..]), v[0].0, v[0].1, v[i].0);
    }
  }

  lemma MapSwap(m: PriceMap, p: Price, q: seq<nat>, p': Price, q': seq<nat>)
    requires p != p'
    ensures m[p := q][p' := q'] == m[p' := q'][p := q]
  {
  }

  lemma MapAgain(m: PriceMap, p: Price, q: seq<nat>, q': seq<nat>)
    ensures m[p := q][p := q'] == m[p := q']
  {
  }

  lemma MapUndo(m: PriceMap, p: Price, q: seq<nat>)
    requires p !in m
    ensures m[p := q] - {p} == m
  {
  }

  lemma MapRemove(m: PriceMap, p: Price, q: seq<nat>, x: Price)
    requires p != x
    ensures m[p := q] - {x} == (m - {x})[p := q]
  {
  }

  /** Binary search for a price: its index, or where it would have to be inserted. */
  method BinarySearch(v: Vec, price: Price) returns (found: bool, i: nat)
    requires SortedVec(v)
    ensures i <= |v| && (found ==> i < |v| && v[i].0 == price)
    ensures !found ==> (forall j :: 0 <= j < i ==> v[j].0 < price) && (forall j :: i <= j < |v| ==> price < v[j].0)
    ensures found <==> price in ToMap(v)
  {
    ToMapEntries(v);
    var lo, hi := 0, |v|;
    while lo < hi
      invariant lo <= hi <= |v|
      invariant forall j :: 0 <= j < lo ==> v[j].0 < price
      invariant forall j :: hi <= j < |v| ==> price < v[j].0
    {
      var mid := (lo + hi) / 2;
      if v[mid].0 < price {
        lo := mid + 1;
      } else if price < v[mid].0 {
        hi := mid;
      } else {
        return true, mid;
      }
    }
    return false, lo;
  }

  class VecBook {
    var orders: Slab
    var index: map<OrderId, nat>
    var bids: Vec
    var asks: Vec

    /** The ordered-map book this one stands for. */
    ghost function State(): Book
      reads this
    {
      Book.Book(orders, index, ToMap(bids), ToMap(asks))
    }

    ghost predicate Valid()
      reads this
    {
      SortedVec(bids) && SortedVec(asks)
    }

    constructor ()
      ensures Valid() && State() == EmptyBook
    {
      orders := Slab(map[], [], 0);
      index, bids, asks := map[], [], [];
    }

    /** Any priced order is inserted; an order without a price is ignored. */
    method Insert(order: Order)
      requires Valid()
      modifies this
      ensures Valid()
      ensures State() == if order.price.None? then old(State()) else BookModel.Insert(old(State()), order)
    {
      hide SortedVec, ToMap;
      if order.price.None? {
        return;
      }
      var price := order.price.value;
      var key := orders.VacantKey();
      orders := orders.Put(order);
      index := index[order.id := key];
      var levels := if order.side.Bid? then bids else asks;
      ToMapEntries(levels);
      var found, i := BinarySearch(levels, price);
      if found {
        var queue := levels[i].1 + [key];
        ReplaceSorted(levels, i, queue);
        ReplaceLevel(levels, i, queue);
        levels := levels[i := (levels[i].0, queue)];
      } else {
        InsertSorted(levels, i, price, [key]);
        InsertLevel(levels, i, price, [key]);
        assert [] + [key] == [key];
        levels := levels[..i] + [(price, [key])] + levels[i..];
      }
      if order.side.Bid? {
        bids := levels;
      } else {
        asks := levels;
      }
    }

    /** Cancel by id; an unknown id is ignored. */
    method Cancel(id: OrderId)
      requires Valid()
      modifies this
      ensures Valid()
      ensures id !in old(index) ==> State() == old(State())
      ensures id in old(index) && Sound(old(State())) ==> State() == Remove(old(State()), old(index)[id])
    {
      hide Sound, AllIndexed, SortedVec;
      if id !in index {
        return;
      }
      ghost var before := State();
      if Sound(before) {
        IndexNames(before, id);
        RemoveIsSound(before, index[id]);
      }
      var key := index[id];
      index := index - {id};
      if key !in orders.entries {
        return;
      }
      var order := orders.entries[key];
      orders := orders.Take(key);
      if order.price.None? {
        return;
      }
      var price := order.price.value;
      var levels := if order.side.Bid? then bids else asks;
      ToMapEntries(levels);
      var found, i := BinarySearch(levels, price);
      if found {
        var queue := Drop(levels[i].1, key);
        if |queue| == 0 {
          RemoveSorted(levels, i);
          RemoveLevel(levels, i);
          levels := levels[..i] + levels[i + 1..];
        } else {
          ReplaceSorted(levels, i, queue);
          ReplaceLevel(levels, i, queue);
          levels := levels[i := (levels[i].0, queue)];
        }
      }
      if order.side.Bid? {
        bids := levels;
      } else {
        asks := levels;
      }
      if Sound(before) {
        assert State() == Remove(before, key);
      }
    }

    /** The last level holds the highest bid. */
    method BestBid() returns (p: Option<Price>)
      requires Valid()
      ensures p == if State().bids == map[] then None else Some(Best(Bid, State().bids.Keys))
      ensures p.Some? ==> p.value in State().bids && forall q :: q in State().bids ==> q <= p.value
    {
      ToMapEntries(bids);
      if |bids| == 0 {
        return None;
      }
      var best := bids[|bids| - 1].0;
      assert best in State().bids.Keys;
      assert IsBest(Bid, State().bids.Keys, best);
      BestUnique(Bid, State().bids.Keys, best);
      return Some(best);
    }

    /** The first level holds the lowest ask. */
    method BestAsk() returns (p: Option<Price>)
      requires Valid()
      ensures p == if State().asks == map[] then None else Some(Best(Ask, State().asks.Keys))
      ensures p.Some? ==> p.value in State().asks && forall q :: q in State().asks ==> p.value <= q
    {
      ToMapEntries(asks);
      if |asks| == 0 {
        return None;
      }
      var best := asks[0].0;
      assert best in State().asks.Keys;
      assert IsBest(Ask, State().asks.Keys, best);
      BestUnique(Ask, State().asks.Keys, best);
      return Some(best);
    }
  }

  lemma BestUnique(side: Side, prices: set<Price>, p: Price)
    requires IsBest(side, prices, p)
    ensures Best(side, prices) == p
  {
    var b := Best(side, prices);
    assert Rank(side, b) <= Rank(side, p) <= Rank(side, b);
  }

  // ---------- The two books side by side ----------

  datatype BookOp = AddOrder(order: Order) | DropOrder(id: OrderId)

  /** Inserts with a price have a quantity and are not complete; inserts without one may be anything. */
  ghost predicate GoodOps(ops: seq<BookOp>) {
    forall i :: 0 <= i < |ops| && Inserts(ops[i]) ==> 0 < ops[i].order.quantity && !ops[i].order.IsComplete()
  }

  predicate Inserts(op: BookOp) {
    op.AddOrder? && op.order.price.Some?
  }

  ghost predicate NoneComplete(entries: map<nat, Order>) {
    forall k :: k in entries ==> !entries[k].IsComplete()
  }

  /** The two books are in the same state, and every order in it can be cancelled. */
  ghost predicate Alike(book: OrderBook, vec: VecBook)
    reads book, vec
  {
    Sound(book.State()) && NoneComplete(book.orders.entries) && vec.Valid() && vec.State() == book.State()
  }

  lemma InsertKeepsIncomplete(b: Book, o: Order)
    requires Sound(b) && NoneComplete(b.slab.entries) && o.price.Some? && !o.IsComplete()
    ensures NoneComplete(Insert(b, o).slab.entries)
  {
    PutIsValid(b.slab, o);
    hide Sound;
    assert Insert(b, o).slab == b.slab.Put(o);
  }

  /** One insert on both books. */
  method AddToBoth(book: OrderBook, vec: VecBook, order: Order)
    requires Alike(book, vec)
    requires order.price.Some? ==> 0 < order.quantity && !order.IsComplete()
    modifies book, vec
    ensures Alike(book, vec)
  {
    hide Sound, AllIndexed, NoneComplete, Flat, Rest, Insert;
    if order.price.Some? {
      InsertKeepsIncomplete(book.State(), order);
    }
    var inserted := book.InsertOrder(order);
    vec.Insert(order);
  }

  lemma RemoveKeepsIncomplete(b: Book, id: OrderId)
    requires Sound(b) && NoneComplete(b.slab.entries) && id in b.index
    ensures var k := b.index[id];
            && k in b.slab.entries && b.slab.entries[k].price.Some? && !b.slab.entries[k].IsComplete()
            && NoneComplete(Remove(b, k).slab.entries)
  {
    IndexNames(b, id);
    RemoveIsSound(b, b.index[id]);
    hide Sound, AllIndexed, Flat;
  }

  /** One cancel on both books. */
  method DropFromBoth(book: OrderBook, vec: VecBook, id: OrderId)
    requires Alike(book, vec)
    modifies book, vec
    ensures Alike(book, vec)
  {
    if id in book.index {
      RemoveKeepsIncomplete(book.State(), id);
    }
    hide Sound, AllIndexed, NoneComplete, Flat, Without, Remove;
    var cancelled := book.CancelOrder(id);
    vec.Cancel(id);
  }

  /** Whatever is inserted and cancelled, the two books go through the same states: the same keys,
      the same queue at every price, and the same best prices at the end, even when ids are reused. */
  method SameStates(ops: seq<BookOp>) returns (book: OrderBook, vec: VecBook, bid: Option<Price>, ask: Option<Price>)
    requires GoodOps(ops)
    ensures Sound(book.State()) && vec.Valid() && vec.State() == book.State()
    ensures bid == BestPrice(SideOrders(book.State(), Bid)) && ask == BestPrice(SideOrders(book.State(), Ask))
  {
    hide Sound, AllIndexed, NoneComplete, Flat, Best;
    book := new OrderBook();
    vec := new VecBook();
    Matching.EmptyBookView();
    EmptyIsAlike();
    for n := 0 to |ops|
      invariant fresh(book) && fresh(vec) && Alike(book, vec)
    {
      match ops[n] {
        case AddOrder(order) =>
          assert order.price.Some? ==> Inserts(ops[n]);
          AddToBoth(book, vec, order);
        case DropOrder(id) =>
          DropFromBoth(book, vec, id);
      }
    }
    bid := vec.BestBid();
    ask := vec.BestAsk();
    Matching.FrontOf(book.State(), Bid);
    Matching.FrontOf(book.State(), Ask);
  }

  lemma EmptyIsAlike()
    ensures Sound(EmptyBook) && NoneComplete(EmptyBook.slab.entries)
  {
  }
}
