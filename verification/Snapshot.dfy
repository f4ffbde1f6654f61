/** Snapshots: the book written out in slab-key order and rebuilt by re-insertion.  The orders, the
    depth of every level and the best prices survive; the queues survive exactly when every level
    is ascending in slab key. */
module Snapshots {
  import opened Types
  import opened PriceTime
  import opened Levels
  import opened BookModel
  import opened OrderBooks
  import opened ProcessLaws
  import Matching

  datatype SnapshotOrder = SnapshotOrder(
    id: OrderId,
    marketId: string,
    side: Side,
    orderType: OrderType,
    price: Price,
    quantity: Quantity,
    filled: Quantity,
    status: OrderStatus,
    sequence: nat
  )

  datatype BookSnapshot = BookSnapshot(marketId: string, sequence: nat, orders: seq<SnapshotOrder>)

  function ToSnapshot(o: Order): SnapshotOrder {
    SnapshotOrder(o.id, o.marketId, o.side, o.orderType, o.PriceOrZero(), o.quantity, o.filled, o.status, o.sequence)
  }

  function FromSnapshot(s: SnapshotOrder): Order {
    Order(s.id, s.marketId, s.side, s.orderType, Some(s.price), s.quantity, s.filled, s.status, s.sequence)
  }

  // ---------- What is written and what is rebuilt ----------

  function Written(entries: map<nat, Order>, n: nat): seq<SnapshotOrder> {
    if n == 0 then []
    else Written(entries, n - 1) + (if n - 1 in entries then [ToSnapshot(entries[n - 1])] else [])
  }

  function SnapshotOf(b: Book, marketId: string, sequence: nat): BookSnapshot {
    BookSnapshot(marketId, sequence, Written(b.slab.entries, b.slab.capacity))
  }

  /** Re-insert one order: completed orders and orders without quantity are skipped. */
  function Reinsert(b: Book, s: SnapshotOrder): Book {
    var o := FromSnapshot(s);
    if o.IsComplete() || o.quantity <= 0 then b else Insert(b, o)
  }

  function Restore(orders: seq<SnapshotOrder>): Book {
    if orders == [] then EmptyBook
    else Reinsert(Restore(orders[..|orders| - 1]), orders[|orders| - 1])
  }

  /** A written order says all that the order says; a missing price is written as zero. */
  predicate Records(s: SnapshotOrder, o: Order) {
    && s.id == o.id && s.marketId == o.marketId && s.side == o.side && s.orderType == o.orderType
    && s.price == (if o.price.Some? then o.price.value else 0)
    && s.quantity == o.quantity && s.filled == o.filled && s.status == o.status && s.sequence == o.sequence
  }

  /** The sequence and market as given, and the orders under the occupied keys, `keys`, in ascending
      order of key. */
  method SerializeBook(book: OrderBook, marketId: string, sequence: nat)
    returns (snapshot: BookSnapshot, ghost keys: seq<nat>)
    ensures snapshot == SnapshotOf(book.State(), marketId, sequence)
    ensures snapshot.marketId == marketId && snapshot.sequence == sequence
    ensures Ascending(keys) && forall k :: k in keys <==> k in book.orders.entries && k < book.orders.capacity
    ensures |snapshot.orders| == |keys|
    ensures forall i :: 0 <= i < |keys| ==> keys[i] in keys && Records(snapshot.orders[i], book.orders.entries[keys[i]])
  {
    hide Records, Ascending, ToSnapshot;
    var orders: seq<SnapshotOrder> := [];
    keys := [];
    NothingAscends();
    for key := 0 to book.orders.capacity
      invariant orders == Written(book.orders.entries, key) && |orders| == |keys|
      invariant Ascending(keys) && forall k :: k in keys <==> k in book.orders.entries && k < key
      invariant forall i :: 0 <= i < |keys| ==> keys[i] in keys && Records(orders[i], book.orders.entries[keys[i]])
    {
      if key in book.orders.entries {
        AscendingPush(keys, key);
        ToSnapshotRecords(book.orders.entries[key]);
        orders := orders + [ToSnapshot(book.orders.entries[key])];
        keys := keys + [key];
      }
    }
    return BookSnapshot(marketId, sequence, orders), keys;
  }

  lemma ToSnapshotRecords(o: Order)
    ensures Records(ToSnapshot(o), o)
  {
  }

  lemma NothingAscends()
    ensures Ascending([])
  {
  }

  /** The orders of a snapshot that are put back: those that are neither filled nor cancelled and
      have a quantity, as they were written. */
  function PutBack(orders: seq<SnapshotOrder>): seq<Order> {
    if orders == [] then []
    else
      var s := orders[|orders| - 1];
      PutBack(orders[..|orders| - 1]) +
      (if s.status != Filled && s.status != Cancelled && 0 < s.quantity
       then [Order(s.id, s.marketId, s.side, s.orderType, Some(s.price), s.quantity, s.filled, s.status, s.sequence)]
       else [])
  }

  /** The orders of one side at one price. */
  function OfLevel(orders: seq<Order>, side: Side, p: Price): seq<Order> {
    if orders == [] then []
    else OfLevel(orders[..|orders| - 1], side, p) +
         (if orders[|orders| - 1].side == side && orders[|orders| - 1].price == Some(p) then [orders[|orders| - 1]] else [])
  }

  lemma SoundSideSorted(b: Book, side: Side)
    requires Sound(b)
    ensures Sorted(side, SideOrders(b, side))
  {
    LevelsArePriced(b.slab.entries, side, b.On(side));
    FlattenSorted(side, OrderLevels(b.slab.entries, b.On(side)));
  }

  /** The orders are under the keys 0, 1, 2 and so on. */
  ghost predicate InKeyOrder(s: Slab, orders: seq<Order>) {
    && s.free == [] && s.capacity == |orders|
    && (forall k :: k in s.entries <==> 0 <= k < |orders|)
    && (forall k :: 0 <= k < |orders| ==> s.entries[k] == orders[k])
  }

  /** The index knows exactly their ids. */
  ghost predicate IdsOf(index: map<OrderId, nat>, orders: seq<Order>) {
    forall id :: id in index <==> exists i :: 0 <= i < |orders| && orders[i].id == id
  }

  /** The book that holds `orders`, put back one after the other: under the keys 0, 1, 2 and so on,
      and at each price in their order. */
  ghost predicate PutInOrder(b: Book, orders: seq<Order>) {
    && Sound(b)
    && InKeyOrder(b.slab, orders)
    && IdsOf(b.index, orders)
    && forall side: Side, p :: AtPrice(SideOrders(b, side), p) == OfLevel(orders, side, p)
  }

  lemma PutInOrderNext(b: Book, orders: seq<Order>, o: Order)
    requires PutInOrder(b, orders) && o.price.Some?
    ensures PutInOrder(Insert(b, o), orders + [o])
  {
    var after := Insert(b, o);
    assert after.slab == b.slab.Put(o) && after.index == b.index[o.id := b.slab.VacantKey()];
    hide Sound, ViewOf, Insert, SideOrders, AtPrice, Rest, InKeyOrder, IdsOf, OfLevel;
    InsertRefines(b, o);
    NextKey(b.slab, orders, o);
    NextId(b.index, orders, o, b.slab.VacantKey());
    forall side: Side, p
      ensures AtPrice(SideOrders(after, side), p) == OfLevel(orders + [o], side, p)
    {
      SideAfterInsert(b, o, side);
      OfLevelNext(orders, o, side, p);
      SoundSideSorted(b, side);
      if side == o.side {
        AtPriceOfRest(side, SideOrders(b, side), o, p);
      }
    }
  }

  lemma NextKey(s: Slab, orders: seq<Order>, o: Order)
    requires InKeyOrder(s, orders)
    ensures InKeyOrder(s.Put(o), orders + [o])
  {
    NewKeyIsLast(s, o);
  }

  lemma NextId(index: map<OrderId, nat>, orders: seq<Order>, o: Order, k: nat)
    requires IdsOf(index, orders)
    ensures IdsOf(index[o.id := k], orders + [o])
  {
    var more := orders + [o];
    assert more[|orders|].id == o.id;
    forall id | id in index
      ensures exists i :: 0 <= i < |more| && more[i].id == id
    {
      var i :| 0 <= i < |orders| && orders[i].id == id;
      assert more[i].id == id;
    }
  }

  lemma OfLevelNext(orders: seq<Order>, o: Order, side: Side, p: Price)
    ensures OfLevel(orders + [o], side, p)
         == OfLevel(orders, side, p) + (if o.side == side && o.price == Some(p) then [o] else [])
  {
    assert (orders + [o])[..|orders|] == orders;
  }

  lemma SideAfterInsert(b: Book, o: Order, side: Side)
    requires Sound(b) && o.price.Some? && Sound(Insert(b, o))
    ensures SideOrders(Insert(b, o), side) == if side == o.side then Rest(side, SideOrders(b, side), o) else SideOrders(b, side)
  {
    InsertRefines(b, o);
    hide Sound, Insert, SideOrders, Rest;
    assert ViewOf(Insert(b, o)).On(side) == SideOrders(Insert(b, o), side) && ViewOf(b).On(side) == SideOrders(b, side);
  }

  /** Whatever a snapshot holds, even several orders under one id. */
  lemma {:induction false} RestorePutsBack(orders: seq<SnapshotOrder>)
    ensures PutInOrder(Restore(orders), PutBack(orders))
  {
    if orders == [] {
      RestoredNothing();
    } else {
      var s := orders[|orders| - 1];
      RestorePutsBack(orders[..|orders| - 1]);
      hide PutInOrder;
      var b, kept := Restore(orders[..|orders| - 1]), PutBack(orders[..|orders| - 1]);
      if s.status != Filled && s.status != Cancelled && 0 < s.quantity {
        PutInOrderNext(b, kept, FromSnapshot(s));
      } else {
        assert kept + [] == kept;
      }
    }
  }

  lemma RestoredNothing()
    ensures PutInOrder(EmptyBook, [])
  {
    Matching.EmptyBookView();
    forall side: Side
      ensures SideOrders(EmptyBook, side) == []
    {
      assert ViewOf(EmptyBook).On(side) == [];
    }
  }

  method DeserializeBook(snapshot: BookSnapshot) returns (book: OrderBook)
    ensures fresh(book) && book.State() == Restore(snapshot.orders)
    ensures PutInOrder(book.State(), PutBack(snapshot.orders))
  {
    RestorePutsBack(snapshot.orders);
    hide PutInOrder, Insert;
    book := new OrderBook();
    var orders := snapshot.orders;
    for i := 0 to |orders|
      invariant fresh(book) && book.State() == Restore(orders[..i])
    {
      assert orders[..i + 1][..i] == orders[..i];
      var order := FromSnapshot(orders[i]);
      if !order.IsComplete() {
        var inserted := book.InsertOrder(order);
      }
    }
    assert orders[..|orders|] == orders;
  }

  // ---------- One level of the rebuilt book ----------

  /** The occupied keys below `n` of one side and price, ascending. */
  function LevelKeys(entries: map<nat, Order>, n: nat, side: Side, p: Price): seq<nat> {
    if n == 0 then []
    else LevelKeys(entries, n - 1, side, p) +
         (if n - 1 in entries && entries[n - 1].side == side && entries[n - 1].price == Some(p) then [n - 1] else [])
  }

  ghost predicate Ascending(q: seq<nat>) {
    forall i, j :: 0 <= i < j < |q| ==> q[i] < q[j]
  }

  /** Every queue of the book is ascending in slab key. */
  ghost predicate AscendingBook(b: Book) {
    && (forall p :: p in b.bids ==> Ascending(b.bids[p]))
    && (forall p :: p in b.asks ==> Ascending(b.asks[p]))
  }

  lemma AscendingPush(ks: seq<nat>, n: nat)
    requires Ascending(ks) && forall k :: k in ks ==> k < n
    ensures Ascending(ks + [n])
  {
    assert forall i :: 0 <= i < |ks| ==> ks[i] in ks;
  }

  lemma {:induction false} LevelKeysAscend(entries: map<nat, Order>, n: nat, side: Side, p: Price)
    ensures Ascending(LevelKeys(entries, n, side, p))
    ensures forall k :: k in LevelKeys(entries, n, side, p) <==>
              k < n && k in entries && entries[k].side == side && entries[k].price == Some(p)
  {
    if n != 0 {
      LevelKeysAscend(entries, n - 1, side, p);
      AscendingPush(LevelKeys(entries, n - 1, side, p), n - 1);
      hide Ascending;
    }
  }

  lemma AtPriceInsert(a: seq<Order>, o: Order, b: seq<Order>, p: Price)
    requires o.price == Some(p) ==> forall i :: 0 <= i < |b| ==> b[i].price != Some(p)
    ensures AtPrice(a + [o] + b, p) == AtPrice(a + b, p) + (if o.price == Some(p) then [o] else [])
  {
    AtPriceConcat(a, b, p);
    AtPriceConcat(a + [o], b, p);
    AtPriceConcat(a, [o], p);
    assert [o][1..] == [];
    assert AtPrice([o], p) == if o.price == Some(p) then [o] else [];
    if o.price == Some(p) {
      AtPriceNone(b, p);
    }
  }

  lemma AtPriceOfRest(side: Side, s: seq<Order>, o: Order, p: Price)
    requires Sorted(side, s) && o.price.Some?
    ensures AtPrice(Rest(side, s, o), p) == AtPrice(s, p) + (if o.price == Some(p) then [o] else [])
  {
    hide AtPrice, Rest, Sorted;
    var n := RestIsInsertion(side, s, o);
    assert s[..n] + s[n..] == s;
    AtPriceInsert(s[..n], o, s[n..], p);
  }

  lemma {:induction false} AtPriceNone(s: seq<Order>, p: Price)
    requires forall i :: 0 <= i < |s| ==> s[i].price != Some(p)
    ensures AtPrice(s, p) == []
  {
    if s != [] {
      AtPriceNone(s[1..], p);
    }
  }

  /** The book rebuilt from the keys below `n`. */
  ghost predicate Rebuilt(b: Book, n: nat, r: Book) {
    && Live(r)
    && (forall id :: id in r.index <==> id in b.index && b.index[id] < n)
    && forall side: Side, p :: AtPrice(SideOrders(r, side), p) == Orders(b.slab.entries, LevelKeysIn(b, n, side, p))
  }

  ghost function LevelKeysIn(b: Book, n: nat, side: Side, p: Price): (ks: seq<nat>)
    ensures forall k :: k in ks ==> k in b.slab.entries
  {
    LevelKeysAscend(b.slab.entries, n, side, p);
    LevelKeys(b.slab.entries, n, side, p)
  }

  lemma {:induction false} RebuildUpTo(b: Book, n: nat)
    requires Live(b)
    ensures Rebuilt(b, n, Restore(Written(b.slab.entries, n)))
  {
    hide Live, SideOrders, LevelKeysIn, Insert;
    var entries := b.slab.entries;
    if n == 0 {
      RebuiltEmpty(b);
    } else {
      RebuildUpTo(b, n - 1);
      var k := n - 1;
      var w := Written(entries, n);
      if k in entries {
        assert w[..|w| - 1] == Written(entries, k);
        RebuildOne(b, k, Restore(Written(entries, k)));
      } else {
        assert w == Written(entries, k);
        RebuildSkip(b, k, Restore(Written(entries, k)));
      }
    }
  }

  lemma RebuiltEmpty(b: Book)
    ensures Rebuilt(b, 0, EmptyBook)
  {
    Matching.EmptyBookView();
    RestoredNothing();
  }

  lemma KeyIsNotIndexed(b: Book, k: nat)
    requires WellFormed(b) && k !in b.slab.entries
    ensures forall id :: id in b.index ==> b.index[id] != k
  {
  }

  lemma LevelKeysSkip(b: Book, k: nat, side: Side, p: Price)
    requires k !in b.slab.entries
    ensures LevelKeysIn(b, k + 1, side, p) == LevelKeysIn(b, k, side, p)
  {
  }

  lemma RebuildSkip(b: Book, k: nat, r: Book)
    requires Live(b) && Rebuilt(b, k, r) && k !in b.slab.entries
    ensures Rebuilt(b, k + 1, r)
  {
    KeyIsNotIndexed(b, k);
    hide Live, Sound, AllIndexed, AllLive, Flat, AtPrice, SideOrders, LevelKeysIn;
    forall side: Side, p
      ensures LevelKeysIn(b, k + 1, side, p) == LevelKeysIn(b, k, side, p)
    {
      LevelKeysSkip(b, k, side, p);
    }
  }

  lemma RebuildOne(b: Book, k: nat, r: Book)
    requires Live(b) && Rebuilt(b, k, r) && k in b.slab.entries
    ensures Rebuilt(b, k + 1, Reinsert(r, ToSnapshot(b.slab.entries[k])))
  {
    hide Sound, AllIndexed, Flat, Sorted, AtPrice, LevelKeysIn, LevelKeys;
    var o := b.slab.entries[k];
    assert FromSnapshot(ToSnapshot(o)) == o;
    EntryNames(b, k);
    InsertRefines(r, o);
    Matching.InsertKeepsLive(r, o);
    var r' := Insert(r, o);
    InsertIndex(b, k, r);
    forall side: Side, p
      ensures AtPrice(SideOrders(r', side), p) == Orders(b.slab.entries, LevelKeysIn(b, k + 1, side, p))
    {
      SoundSideSorted(r, side);
      LevelKeysNext(b, k, side, p);
      SideAfterInsert(r, o, side);
      if side == o.side {
        AtPriceOfRest(side, SideOrders(r, side), o, p);
      }
    }
  }

  lemma LevelKeysNext(b: Book, k: nat, side: Side, p: Price)
    requires k in b.slab.entries
    ensures Orders(b.slab.entries, LevelKeysIn(b, k + 1, side, p))
         == Orders(b.slab.entries, LevelKeysIn(b, k, side, p)) +
            (if b.slab.entries[k].side == side && b.slab.entries[k].price == Some(p) then [b.slab.entries[k]] else [])
  {
  }

  lemma EntryNames(b: Book, k: nat)
    requires WellFormed(b) && k in b.slab.entries
    ensures b.slab.entries[k].id in b.index && b.index[b.slab.entries[k].id] == k
  {
  }

  lemma InsertIndex(b: Book, k: nat, r: Book)
    requires Live(b) && Rebuilt(b, k, r) && k in b.slab.entries && b.slab.entries[k].price.Some?
    ensures forall id :: id in Insert(r, b.slab.entries[k]).index <==> id in b.index && b.index[id] < k + 1
  {
  }

  /** What a restart gives back: the book restored from its own snapshot. */
  function Restored(b: Book): Book {
    Restore(Written(b.slab.entries, b.slab.capacity))
  }

  /** The queue of a level, and the queue the restart rebuilds for it. */
  lemma RestoredLevel(b: Book, side: Side, p: Price)
    requires Live(b)
    ensures Live(Restored(b))
    ensures AtPrice(SideOrders(b, side), p) == LevelOrders(b, side, p)
    ensures AtPrice(SideOrders(Restored(b), side), p) == Orders(b.slab.entries, LevelKeysIn(b, b.slab.capacity, side, p))
  {
    hide LevelKeysIn;
    RebuildUpTo(b, b.slab.capacity);
    LevelsArePriced(b.slab.entries, side, b.On(side));
    LevelOfFlatten(side, OrderLevels(b.slab.entries, b.On(side)), p);
  }

  /** The orders of a level as the book holds them. */
  ghost function LevelOrders(b: Book, side: Side, p: Price): seq<Order>
    requires WellFormed(b)
  {
    SideOkKeysIn(b.slab.entries, side, b.On(side));
    Queue(OrderLevels(b.slab.entries, b.On(side)), p)
  }

  /** A level's queue and its ascending keys name the same orders, each once. */
  lemma LevelKeysOfQueue(b: Book, side: Side, p: Price)
    requires WellFormed(b)
    ensures var q := Queue(b.On(side), p);
            var ks := LevelKeysIn(b, b.slab.capacity, side, p);
            && NoDuplicates(q) && Ascending(ks)
            && (forall k :: k in q <==> k in ks)
            && (forall k :: k in q ==> k in b.slab.entries)
            && LevelOrders(b, side, p) == Orders(b.slab.entries, q)
  {
    var entries, m := b.slab.entries, b.On(side);
    LevelKeysAscend(entries, b.slab.capacity, side, p);
    SideOkKeysIn(entries, side, m);
    assert p in m ==> LevelOk(entries, side, p, m[p]);
    forall k | k in entries && entries[k].side == side && entries[k].price == Some(p)
      ensures k in Queue(m, p)
    {
      assert Placed(entries, m, k);
    }
  }

  // ---------- Two lists with the same elements ----------

  lemma HasMember(a: seq<nat>)
    ensures a != [] <==> exists k :: k in a
  {
    if a != [] { assert a[0] in a; }
  }

  lemma {:induction false} AscendingUnique(a: seq<nat>, b: seq<nat>)
    requires Ascending(a) && Ascending(b) && forall k :: k in a <==> k in b
    ensures a == b
  {
    if a == [] || b == [] {
      HasMember(a);
      HasMember(b);
    } else {
      assert a[0] in b && b[0] in a;
      forall k
        ensures k in a[1..] <==> k in b[1..]
      {
        TailMembers(a, k);
        TailMembers(b, k);
      }
      AscendingUnique(a[1..], b[1..]);
    }
  }

  lemma TailMembers(a: seq<nat>, k: nat)
    requires Ascending(a) && a != []
    ensures k in a[1..] <==> k in a && k != a[0]
    ensures k in a ==> a[0] <= k
  {
    if k in a && k != a[0] {
      var i :| 0 <= i < |a| && a[i] == k;
      assert a[1..][i - 1] == k;
    }
  }

  lemma {:induction false} CountOnce<T>(s: seq<T>, x: T)
    requires NoDuplicates(s)
    ensures multiset(s)[x] == if x in s then 1 else 0
  {
    if s != [] {
      CountOnce(s[1..], x);
      assert s == [s[0]] + s[1..];
      assert forall i :: 0 < i < |s| ==> s[i] == s[1..][i - 1] && s[i] != s[0];
    }
  }

  lemma SameElements<T>(a: seq<T>, b: seq<T>)
    requires NoDuplicates(a) && NoDuplicates(b) && forall x :: x in a <==> x in b
    ensures multiset(a) == multiset(b) && |a| == |b|
  {
    forall x
      ensures multiset(a)[x] == multiset(b)[x]
    {
      CountOnce(a, x);
      CountOnce(b, x);
    }
    assert |a| == |multiset(a)| && |b| == |multiset(b)|;
  }

  lemma {:induction false} CountAtPrice(s: seq<Order>, x: Order, p: Price)
    requires x.price == Some(p)
    ensures multiset(AtPrice(s, p))[x] == multiset(s)[x]
  {
    if s != [] {
      CountAtPrice(s[1..], x, p);
      assert s == [s[0]] + s[1..];
    }
  }

  lemma {:induction false} AtPriceMembers(s: seq<Order>, p: Price)
    ensures forall x :: x in AtPrice(s, p) <==> x in s && x.price == Some(p)
  {
    if s != [] {
      AtPriceMembers(s[1..], p);
    }
  }

  /** The head of a live side is the head of its own level, and no order of the side is better. */
  lemma HeadOfLevel(side: Side, s: seq<Order>)
    requires LiveSide(side, s) && s != []
    ensures s[0].price.Some?
    ensures AtPrice(s, s[0].price.value) != [] && AtPrice(s, s[0].price.value)[0] == s[0]
    ensures forall x :: x in s ==> x.price.Some? && RankOf(side, s[0]) <= RankOf(side, x)
  {
    forall x | x in s
      ensures x.price.Some? && RankOf(side, s[0]) <= RankOf(side, x)
    {
      var i :| 0 <= i < |s| && s[i] == x;
    }
  }

  /** An order found in a level of `s` is in `s`, at that price. */
  lemma InLevel(s: seq<Order>, p: Price, x: Order)
    requires x in AtPrice(s, p)
    ensures x in s && x.price == Some(p)
  {
    AtPriceMembers(s, p);
  }

  /** Lists with the same levels have the same head. */
  lemma SameHead(side: Side, s: seq<Order>, t: seq<Order>)
    requires LiveSide(side, s) && LiveSide(side, t) && s != []
    requires forall p :: AtPrice(s, p) == AtPrice(t, p)
    ensures t != [] && s[0] == t[0]
  {
    hide LiveSide, AtPrice;
    HeadOfLevel(side, s);
    var p := s[0].price.value;
    assert AtPrice(s, p) == AtPrice(t, p);
    InLevel(t, p, s[0]);
    HeadOfLevel(side, t);
    var q := t[0].price.value;
    assert AtPrice(s, q) == AtPrice(t, q);
    InLevel(s, q, t[0]);
    assert p == q;
  }

  lemma AtPriceOfTail(s: seq<Order>, p: Price)
    requires s != []
    ensures AtPrice(s, p) == (if s[0].price == Some(p) then [s[0]] else []) + AtPrice(s[1..], p)
    ensures AtPrice(s[1..], p) == if s[0].price == Some(p) then AtPrice(s, p)[1..] else AtPrice(s, p)
  {
  }

  lemma LiveTail(side: Side, s: seq<Order>)
    requires LiveSide(side, s) && s != []
    ensures LiveSide(side, s[1..])
  {
  }

  /** A live side is determined by its levels. */
  lemma {:induction false} LevelsDetermineSide(side: Side, s: seq<Order>, t: seq<Order>)
    requires LiveSide(side, s) && LiveSide(side, t)
    requires forall p :: AtPrice(s, p) == AtPrice(t, p)
    ensures s == t
  {
    hide LiveSide, AtPrice;
    if s != [] {
      SameHead(side, s, t);
      forall p
        ensures AtPrice(s[1..], p) == AtPrice(t[1..], p)
      {
        AtPriceOfTail(s, p);
        AtPriceOfTail(t, p);
        assert AtPrice(s, p) == AtPrice(t, p);
        assert s[0] == t[0];
      }
      LiveTail(side, s);
      LiveTail(side, t);
      LevelsDetermineSide(side, s[1..], t[1..]);
      assert s == [s[0]] + s[1..] && t == [t[0]] + t[1..];
    } else if t != [] {
      SameHead(side, t, s);
    }
  }

  // ---------- Round trip ----------

  lemma EntriesDiffer(b: Book)
    requires WellFormed(b)
    ensures forall i, j :: i in b.slab.entries && j in b.slab.entries && i != j ==> b.slab.entries[i] != b.slab.entries[j]
  {
    DistinctEntryIds(b.slab.entries, b.index);
  }

  /** One level: the rebuilt queue holds the same orders, and in the same order exactly when the
      level was ascending in slab key. */
  lemma LevelRoundTrip(b: Book, side: Side, p: Price)
    requires Live(b)
    ensures Live(Restored(b))
    ensures var before, after := AtPrice(SideOrders(b, side), p), AtPrice(SideOrders(Restored(b), side), p);
            && multiset(before) == multiset(after)
            && |before| == |after|
            && (before == after <==> Ascending(Queue(b.On(side), p)))
  {
    hide Live, Sound, AllIndexed, SideOrders, AtPrice, LevelKeysIn, LevelOrders;
    LiveIsWellFormed(b);
    RestoredLevel(b, side, p);
    LevelKeysOfQueue(b, side, p);
    EntriesDiffer(b);
    var entries := b.slab.entries;
    var q, ks := Queue(b.On(side), p), LevelKeysIn(b, b.slab.capacity, side, p);
    var before, after := Orders(entries, q), Orders(entries, ks);
    OrdersOf(entries, q);
    OrdersOf(entries, ks);
    SameElements(before, after);
    if Ascending(q) {
      AscendingUnique(q, ks);
    }
    if before == after {
      forall i | 0 <= i < |q|
        ensures q[i] == ks[i]
      {
        assert q[i] in q && ks[i] in ks;
        assert before[i] == after[i];
      }
      assert q == ks;
    }
  }

  lemma LiveIsWellFormed(b: Book)
    requires Live(b)
    ensures WellFormed(b)
  {
  }

  lemma OrdersOf(entries: map<nat, Order>, ks: seq<nat>)
    requires NoDuplicates(ks) && forall k :: k in ks ==> k in entries
    requires forall i, j :: i in entries && j in entries && i != j ==> entries[i] != entries[j]
    ensures NoDuplicates(Orders(entries, ks))
    ensures forall x :: x in Orders(entries, ks) <==> exists k :: k in ks && entries[k] == x
  {
    var os := Orders(entries, ks);
    forall i, j | 0 <= i < j < |os|
      ensures os[i] != os[j]
    {
      assert ks[i] in ks && ks[j] in ks;
    }
    forall x
      ensures x in os <==> exists k :: k in ks && entries[k] == x
    {
      if k :| k in ks && entries[k] == x {
        var i :| 0 <= i < |ks| && ks[i] == k;
        assert os[i] == x;
      }
      if x in os {
        var i :| 0 <= i < |os| && os[i] == x;
        assert ks[i] in ks && entries[ks[i]] == x;
      }
    }
  }

  /** Every live book restores to a live book with the same orders on each side, the same number of
      orders at every price, and the same best prices. */
  lemma RoundTripContents(b: Book, side: Side)
    requires Live(b)
    ensures Live(Restored(b))
    ensures multiset(SideOrders(Restored(b), side)) == multiset(SideOrders(b, side))
    ensures forall p :: |AtPrice(SideOrders(Restored(b), side), p)| == |AtPrice(SideOrders(b, side), p)|
    ensures BestPrice(SideOrders(Restored(b), side)) == BestPrice(SideOrders(b, side))
  {
    hide Live, Sound, AllIndexed, SideOrders, AtPrice;
    LevelRoundTrip(b, side, 0);
    LiveIsWellFormed(b);
    LiveIsWellFormed(Restored(b));
    var s, t := SideOrders(b, side), SideOrders(Restored(b), side);
    LiveSideOfBook(b, side);
    LiveSideOfBook(Restored(b), side);
    forall p
      ensures |AtPrice(s, p)| == |AtPrice(t, p)| && multiset(AtPrice(s, p)) == multiset(AtPrice(t, p))
    {
      LevelRoundTrip(b, side, p);
    }
    forall x: Order
      ensures multiset(s)[x] == multiset(t)[x]
    {
      if x.price.Some? {
        CountAtPrice(s, x, x.price.value);
        CountAtPrice(t, x, x.price.value);
      } else {
        UnpricedMissing(side, s, x);
        UnpricedMissing(side, t, x);
      }
    }
    SameBest(side, s, t);
  }

  lemma UnpricedMissing(side: Side, s: seq<Order>, x: Order)
    requires LiveSide(side, s) && x.price.None?
    ensures multiset(s)[x] == 0
  {
    assert x !in s;
  }

  lemma SameBest(side: Side, s: seq<Order>, t: seq<Order>)
    requires Sorted(side, s) && Sorted(side, t) && multiset(s) == multiset(t)
    ensures BestPrice(s) == BestPrice(t)
  {
    if s != [] {
      assert s[0] in multiset(s);
      assert s[0] in t;
      assert t[0] in multiset(t);
      assert t[0] in s;
    }
  }

  /** The whole view survives the round trip exactly when every level is ascending in slab key. */
  lemma RoundTripExactly(b: Book)
    requires Live(b)
    ensures Live(Restored(b))
    ensures ViewOf(Restored(b)) == ViewOf(b) <==> AscendingBook(b)
  {
    hide Live, Sound, AllIndexed, SideOrders, AtPrice, Restored;
    LiveIsWellFormed(b);
    LevelRoundTrip(b, Bid, 0);
    LiveIsWellFormed(Restored(b));
    if AscendingBook(b) {
      forall side: Side
        ensures SideOrders(Restored(b), side) == SideOrders(b, side)
      {
        LiveSideOfBook(b, side);
        LiveSideOfBook(Restored(b), side);
        forall p
          ensures AtPrice(SideOrders(b, side), p) == AtPrice(SideOrders(Restored(b), side), p)
        {
          LevelRoundTrip(b, side, p);
        }
        LevelsDetermineSide(side, SideOrders(b, side), SideOrders(Restored(b), side));
      }
    }
    if ViewOf(Restored(b)) == ViewOf(b) {
      forall side: Side, p | p in b.On(side)
        ensures Ascending(b.On(side)[p])
      {
        assert ViewOf(Restored(b)).On(side) == ViewOf(b).On(side);
        LevelRoundTrip(b, side, p);
      }
      assert b.On(Bid) == b.bids && b.On(Ask) == b.asks;
    }
  }

  // ---------- A reachable book whose queue is reversed by a restart ----------

  /** The first two inserts of the example. */
  lemma ReorderStart(x: Order, y: Order)
    requires x.price.Some? && x.side == y.side && x.price == y.price && x.id != y.id
    ensures var two := Insert(Insert(EmptyBook, x), y);
            && two.slab == Slab(map[0 := x, 1 := y], [], 2) && two.index == map[x.id := 0, y.id := 1]
            && two.On(x.side) == map[x.price.value := [0, 1]]
  {
    var p := x.price.value;
    var one := Insert(EmptyBook, x);
    assert one.slab == Slab(map[0 := x], [], 1) && one.index == map[x.id := 0];
    assert one.On(x.side) == map[p := [0]] by { assert Queue(EmptyBook.On(x.side), p) + [0] == [0]; }
    var two := Insert(one, y);
    assert two.slab == Slab(map[0 := x, 1 := y], [], 2) && two.index == map[x.id := 0, y.id := 1];
    assert two.On(x.side) == map[p := [0, 1]] by { assert [0] + [1] == [0, 1]; }
  }

  lemma DropFirstOfTwo()
    ensures Drop<nat>([0, 1], 0) == [1]
  {
    assert [0, 1][1..] == [1];
    assert [1][1..] == [];
  }

  /** The cancel and the last insert of the example. */
  lemma ReorderCancel(two: Book, x: Order, y: Order)
    requires x.price.Some? && x.id != y.id
    requires two.slab == Slab(map[0 := x, 1 := y], [], 2) && two.index == map[x.id := 0, y.id := 1]
    requires two.On(x.side) == map[x.price.value := [0, 1]]
    ensures var three := Remove(two, 0);
            && three.slab == Slab(map[1 := y], [0], 2) && three.index == map[y.id := 1]
            && three.On(x.side) == map[x.price.value := [1]]
  {
    DropFirstOfTwo();
    var p := x.price.value;
    var m := two.On(x.side);
    assert Drop(Queue(m, p), 0) == [1] && SetQueue(m, p, [1]) == map[p := [1]];
    hide Drop, Queue, SetQueue;
    var three := Remove(two, 0);
    assert three.slab.entries == map[1 := y] && [0] + two.slab.free == [0];
    assert three.index == map[y.id := 1];
  }

  lemma ReorderAgain(three: Book, y: Order, z: Order, p: Price)
    requires z.price == Some(p)
    requires three.slab == Slab(map[1 := y], [0], 2) && three.index == map[y.id := 1]
    requires three.On(z.side) == map[p := [1]]
    ensures var four := Insert(three, z);
            && four.slab == Slab(map[0 := z, 1 := y], [], 2)
            && four.On(z.side) == map[p := [1, 0]]
  {
    var four := Insert(three, z);
    assert four.slab.entries == map[0 := z, 1 := y] && four.slab.free == [];
    assert Queue(three.On(z.side), p) + [0] == [1, 0];
    assert four.On(z.side) == map[p := [1, 0]];
  }

  lemma ReorderLive(x: Order, y: Order, z: Order)
    requires RestingOrder(x) && RestingOrder(y) && RestingOrder(z)
    requires x.side == y.side == z.side && x.price == y.price == z.price
    requires x.id != y.id && y.id != z.id && x.id != z.id
    ensures var two := Insert(Insert(EmptyBook, x), y);
            0 in two.slab.entries && two.slab.entries[0] == x && Live(Insert(Remove(two, 0), z))
  {
    hide Sound, AllIndexed, Insert, Remove;
    var one := Insert(EmptyBook, x);
    var two := Insert(one, y);
    ReorderStart(x, y);
    ReorderCancel(Insert(Insert(EmptyBook, x), y), x, y);
    ReorderAgain(Remove(Insert(Insert(EmptyBook, x), y), 0), y, z, x.price.value);
    Matching.EmptyBookView();
    Matching.InsertKeepsLive(EmptyBook, x);
    assert y.id !in one.index by { OneIndex(x); }
    Matching.InsertKeepsLive(one, y);
    RemoveRefines(two, 0);
    Matching.InsertKeepsLive(Remove(two, 0), z);
  }

  lemma OneIndex(x: Order)
    requires x.price.Some?
    ensures Insert(EmptyBook, x).index == map[x.id := 0]
  {
  }

  /** Two orders rest at a price, the first is cancelled, a third takes over its slab key: the
      restart puts the newest order in front. */
  lemma RestartCanReorder(x: Order, y: Order, z: Order)
    requires RestingOrder(x) && RestingOrder(y) && RestingOrder(z)
    requires x.side == y.side == z.side && x.price == y.price == z.price
    requires x.id != y.id && y.id != z.id && x.id != z.id
    ensures var two := Insert(Insert(EmptyBook, x), y);
            && 0 in two.slab.entries && two.slab.entries[0] == x
            && var b := Insert(Remove(two, 0), z);
            && Live(b) && Live(Restored(b))
            && AtPrice(SideOrders(b, x.side), x.price.value) == [y, z]
            && AtPrice(SideOrders(Restored(b), x.side), x.price.value) == [z, y]
  {
    hide Sound, AllIndexed, SideOrders, AtPrice, Restored, Insert, Remove;
    ReorderStart(x, y);
    ReorderCancel(Insert(Insert(EmptyBook, x), y), x, y);
    ReorderAgain(Remove(Insert(Insert(EmptyBook, x), y), 0), y, z, x.price.value);
    ReorderLive(x, y, z);
    var b := Insert(Remove(Insert(Insert(EmptyBook, x), y), 0), z);
    RestoredOfTwo(b, x.side, x.price.value, z, y);
  }

  lemma RestoredOfTwo(b: Book, side: Side, p: Price, first: Order, second: Order)
    requires Live(b) && b.slab == Slab(map[0 := first, 1 := second], [], 2)
    requires first.side == second.side == side && first.price == second.price == Some(p)
    requires b.On(side) == map[p := [1, 0]]
    ensures Live(Restored(b))
    ensures AtPrice(SideOrders(b, side), p) == [second, first]
    ensures AtPrice(SideOrders(Restored(b), side), p) == [first, second]
  {
    hide Sound, AllIndexed, SideOrders, AtPrice, Restored, AllLive, LevelOrders;
    RestoredLevel(b, side, p);
    LevelKeysOfQueue(b, side, p);
    assert LevelKeys(b.slab.entries, 1, side, p) == [0];
    assert LevelKeys(b.slab.entries, 2, side, p) == [0, 1];
    assert Queue(b.On(side), p) == [1, 0];
  }
}
