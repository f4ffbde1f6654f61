/** The order book as a value: the slab, the id index and the two price maps, how each operation
    changes all four, and what that means on the flattened view. */
module BookModel {
  import opened Types
  import opened PriceTime
  import opened Levels

  // ---------- The slab: keys are handed out again, last freed first ----------

  datatype Slab = Slab(entries: map<nat, Order>, free: seq<nat>, capacity: nat) {
    ghost predicate Valid() {
      && (forall k :: k in entries ==> k < capacity)
      && (forall i :: 0 <= i < |free| ==> free[i] < capacity && free[i] !in entries)
      && NoDuplicates(free)
    }

    function VacantKey(): nat {
      if |free| == 0 then capacity else free[0]
    }

    function Put(o: Order): Slab {
      if |free| == 0 then Slab(entries[capacity := o], free, capacity + 1)
      else Slab(entries[free[0] := o], free[1..], capacity)
    }

    function Take(k: nat): Slab {
      Slab(entries - {k}, [k] + free, capacity)
    }
  }

  /** A freed key is the next one handed out, and handing it out restores the free list. */
  lemma TakenIsNext(s: Slab, k: nat, o: Order)
    ensures s.Take(k).VacantKey() == k
    ensures s.Take(k).Put(o) == Slab(s.entries[k := o], s.free, s.capacity)
  {
    assert (s.entries - {k})[k := o] == s.entries[k := o];
  }

  /** Without freed keys the slab grows by one key at the end. */
  lemma NewKeyIsLast(s: Slab, o: Order)
    requires s.free == []
    ensures s.VacantKey() == s.capacity && s.Put(o) == Slab(s.entries[s.capacity := o], [], s.capacity + 1)
  {
  }

  function TakeAll(s: Slab, ks: seq<nat>): Slab
    decreases |ks|
  {
    if ks == [] then s else TakeAll(s.Take(ks[0]), ks[1..])
  }

  function PutAll(s: Slab, os: seq<Order>): Slab
    decreases |os|
  {
    if os == [] then s else PutAll(s.Put(os[0]), os[1..])
  }

  lemma {:induction false} TakeAllFrees(s: Slab, ks: seq<nat>)
    ensures TakeAll(s, ks).capacity == s.capacity && |TakeAll(s, ks).free| == |ks| + |s.free|
    ensures forall i :: 0 <= i < |ks| ==> TakeAll(s, ks).free[i] == ks[|ks| - 1 - i]
    ensures TakeAll(s, ks).free[|ks|..] == s.free
    decreases |ks|
  {
    if ks != [] {
      TakeAllFrees(s.Take(ks[0]), ks[1..]);
      var free := TakeAll(s, ks).free;
      assert free[|ks| - 1..] == [ks[0]] + s.free;
      assert free[|ks| - 1] == free[|ks| - 1..][0] && free[|ks|..] == free[|ks| - 1..][1..];
    }
  }

  lemma {:induction false} PutAllFills(s: Slab, os: seq<Order>)
    requires |os| <= |s.free| && NoDuplicates(s.free)
    ensures PutAll(s, os).capacity == s.capacity && PutAll(s, os).free == s.free[|os|..]
    ensures forall i :: 0 <= i < |os| ==> s.free[i] in PutAll(s, os).entries && PutAll(s, os).entries[s.free[i]] == os[i]
    ensures forall k :: k in s.entries && (forall i :: 0 <= i < |os| ==> s.free[i] != k) ==>
              k in PutAll(s, os).entries && PutAll(s, os).entries[k] == s.entries[k]
    decreases |os|
  {
    if os != [] {
      var t := s.Put(os[0]);
      assert forall i :: 0 <= i < |t.free| ==> t.free[i] == s.free[i + 1];
      PutAllFills(t, os[1..]);
      assert t.free[|os| - 1..] == s.free[|os|..];
      forall i | 0 <= i < |os|
        ensures s.free[i] in PutAll(s, os).entries && PutAll(s, os).entries[s.free[i]] == os[i]
      {
        if i == 0 {
          assert forall j :: 0 <= j < |os[1..]| ==> t.free[j] != s.free[0];
        } else {
          assert t.free[i - 1] == s.free[i] && os[1..][i - 1] == os[i];
        }
      }
      forall k | k in s.entries && (forall i :: 0 <= i < |os| ==> s.free[i] != k)
        ensures k in PutAll(s, os).entries && PutAll(s, os).entries[k] == s.entries[k]
      {
        assert s.free[0] != k;
        assert forall j :: 0 <= j < |os[1..]| ==> t.free[j] != k;
      }
    }
  }

  lemma FreedAreDistinct(s: Slab, ks: seq<nat>)
    requires s.Valid() && NoDuplicates(ks) && forall i :: 0 <= i < |ks| ==> ks[i] in s.entries
    ensures NoDuplicates(TakeAll(s, ks).free)
  {
    TakeAllFrees(s, ks);
    hide TakeAll;
    var free := TakeAll(s, ks).free;
    forall i | |ks| <= i < |free|
      ensures free[i] == s.free[i - |ks|]
    {
      assert free[i] == free[|ks|..][i - |ks|];
    }
  }

  /** Whatever occupied keys are freed one after the other, the same number of new orders get them in
      the opposite order, and then the free list is what it was. */
  lemma FreedKeysComeBack(s: Slab, ks: seq<nat>, os: seq<Order>)
    requires s.Valid() && NoDuplicates(ks) && (forall i :: 0 <= i < |ks| ==> ks[i] in s.entries) && |ks| == |os|
    ensures var after := PutAll(TakeAll(s, ks), os);
            && after.capacity == s.capacity && after.free == s.free
            && forall j :: 0 <= j < |ks| ==> ks[j] in after.entries && after.entries[ks[j]] == os[|ks| - 1 - j]
  {
    hide *;
    FreedAreDistinct(s, ks);
    TakeAllFrees(s, ks);
    var t := TakeAll(s, ks);
    PutAllFills(t, os);
    forall j | 0 <= j < |ks|
      ensures ks[j] in PutAll(t, os).entries && PutAll(t, os).entries[ks[j]] == os[|ks| - 1 - j]
    {
      assert t.free[|ks| - 1 - j] == ks[j];
    }
  }

  type PriceMap = map<Price, seq<nat>>

  datatype Book = Book(slab: Slab, index: map<OrderId, nat>, bids: PriceMap, asks: PriceMap) {
    function On(side: Side): PriceMap {
      if side.Bid? then bids else asks
    }

    function With(side: Side, m: PriceMap): Book {
      if side.Bid? then this.(bids := m) else this.(asks := m)
    }
  }

  const EmptyBook := Book(Slab(map[], [], 0), map[], map[], map[])

  // ---------- Operations ----------

  function Insert(b: Book, o: Order): Book
    requires o.price.Some?
  {
    var k := b.slab.VacantKey();
    var m := b.On(o.side);
    var p := o.price.value;
    b.(slab := b.slab.Put(o), index := b.index[o.id := k]).With(o.side, m[p := Queue(m, p) + [k]])
  }

  /** Take key `k` out of the slab, the index and its level. */
  function Remove(b: Book, k: nat): Book
    requires k in b.slab.entries && b.slab.entries[k].price.Some?
  {
    var o := b.slab.entries[k];
    var m := b.On(o.side);
    var p := o.price.value;
    b.(slab := b.slab.Take(k), index := b.index - {o.id}).With(o.side, SetQueue(m, p, Drop(Queue(m, p), k)))
  }

  /** Take the front key of a level out of the level, the slab and the index. */
  function PopFront(b: Book, side: Side, p: Price): Book {
    var m := b.On(side);
    if p !in m then b
    else if m[p] == [] then b.With(side, m - {p})
    else
      var k := m[p][0];
      var popped := b.With(side, SetQueue(m, p, m[p][1..]));
      if k in b.slab.entries then
        popped.(slab := b.slab.Take(k), index := b.index - {b.slab.entries[k].id})
      else popped
  }

  /** Overwrite the order stored under `k`. */
  function Amend(b: Book, k: nat, o: Order): Book {
    b.(slab := b.slab.(entries := b.slab.entries[k := o]))
  }

  // ---------- The representation invariant ----------

  /** Every id in the index leads to an order of that id. */
  ghost predicate IndexSafe(entries: map<nat, Order>, index: map<OrderId, nat>) {
    forall id :: id in index ==> index[id] in entries && entries[index[id]].id == id
  }

  /** Every occupied key is the one its order's id leads to. */
  ghost predicate AllIndexed(entries: map<nat, Order>, index: map<OrderId, nat>) {
    forall k :: k in entries ==> entries[k].id in index && index[entries[k].id] == k
  }

  /** A level is a non-empty queue of distinct occupied keys of its own side and price. */
  ghost predicate LevelOk(entries: map<nat, Order>, side: Side, p: Price, q: seq<nat>) {
    && q != []
    && NoDuplicates(q)
    && forall k :: k in q ==> k in entries && entries[k].side == side && entries[k].price == Some(p)
  }

  /** `k` waits in the level of its own price. */
  ghost predicate Placed(entries: map<nat, Order>, m: PriceMap, k: nat)
    requires k in entries
  {
    entries[k].price.Some? && k in Queue(m, entries[k].price.value)
  }

  /** The levels of a side hold exactly the keys of that side, each at its own price. */
  ghost predicate SideOk(entries: map<nat, Order>, side: Side, m: PriceMap) {
    && (forall p :: p in m ==> LevelOk(entries, side, p, m[p]))
    && (forall k :: k in entries && entries[k].side == side ==> Placed(entries, m, k))
  }

  /** What holds whatever orders come in, even two under one id: slab and levels agree, and the
      index leads only to orders of the right id. */
  ghost predicate Sound(b: Book) {
    && b.slab.Valid()
    && IndexSafe(b.slab.entries, b.index)
    && SideOk(b.slab.entries, Bid, b.bids)
    && SideOk(b.slab.entries, Ask, b.asks)
  }

  /** All four structures agree: the index is a bijection between ids and occupied keys. */
  ghost predicate WellFormed(b: Book) {
    Sound(b) && AllIndexed(b.slab.entries, b.index)
  }

  ghost predicate AllUnfilled(entries: map<nat, Order>) {
    forall k :: k in entries ==> 0 < entries[k].Remaining()
  }

  /** What the matching loops rely on: a sound book without exhausted orders. */
  ghost predicate Matchable(b: Book) {
    Sound(b) && AllUnfilled(b.slab.entries)
  }

  ghost predicate AllLive(entries: map<nat, Order>) {
    forall k :: k in entries ==> RestingOrder(entries[k])
  }

  /** A well-formed book all of whose orders are resting ones. */
  ghost predicate Live(b: Book) {
    WellFormed(b) && AllLive(b.slab.entries)
  }

  lemma LiveIsMatchable(b: Book)
    requires Live(b)
    ensures Matchable(b) && WellFormed(b)
  {
  }

  // ---------- The view ----------

  ghost predicate KeysIn(entries: map<nat, Order>, m: PriceMap) {
    forall p, k :: p in m && k in m[p] ==> k in entries
  }

  ghost function Orders(entries: map<nat, Order>, ks: seq<nat>): (s: seq<Order>)
    requires forall k :: k in ks ==> k in entries
    ensures |s| == |ks| && forall i :: 0 <= i < |s| ==> s[i] == entries[ks[i]]
  {
    seq(|ks|, i requires 0 <= i < |ks| => assert ks[i] in ks; entries[ks[i]])
  }

  ghost function OrderLevels(entries: map<nat, Order>, m: PriceMap): (r: map<Price, seq<Order>>)
    requires KeysIn(entries, m)
    ensures r.Keys == m.Keys
  {
    map p | p in m :: Orders(entries, m[p])
  }

  lemma SideOkKeysIn(entries: map<nat, Order>, side: Side, m: PriceMap)
    requires SideOk(entries, side, m)
    ensures KeysIn(entries, m) && NoEmptyLevel(m)
    ensures forall p, k :: p in m && k in m[p] ==> entries[k].side == side && entries[k].price == Some(p)
  {
    forall p, k | p in m && k in m[p]
      ensures k in entries && entries[k].side == side && entries[k].price == Some(p)
    {
      assert LevelOk(entries, side, p, m[p]);
    }
    assert forall p :: p in m ==> LevelOk(entries, side, p, m[p]);
  }

  /** One side of the book, best price first and oldest first within a price. */
  ghost function Flat(entries: map<nat, Order>, side: Side, m: PriceMap): seq<Order>
    requires SideOk(entries, side, m)
  {
    SideOkKeysIn(entries, side, m);
    Flatten(side, OrderLevels(entries, m))
  }

  ghost function SideOrders(b: Book, side: Side): seq<Order>
    requires Sound(b)
  {
    Flat(b.slab.entries, side, b.On(side))
  }

  ghost function ViewOf(b: Book): View
    requires Sound(b)
  {
    View(SideOrders(b, Bid), SideOrders(b, Ask))
  }

  lemma LevelsArePriced(entries: map<nat, Order>, side: Side, m: PriceMap)
    requires SideOk(entries, side, m)
    ensures KeysIn(entries, m)
    ensures PricedLevels(OrderLevels(entries, m))
    ensures NoEmptyLevel(OrderLevels(entries, m))
  {
    SideOkKeysIn(entries, side, m);
    var om: map<Price, seq<Order>> := OrderLevels(entries, m);
    forall p, i | p in om && 0 <= i < |om[p]|
      ensures om[p][i].price == Some(p)
    {
      assert m[p][i] in m[p];
    }
  }

  /** Slabs that agree on the keys of a side give it the same orders. */
  lemma LevelsAgree(entries: map<nat, Order>, entries': map<nat, Order>, m: PriceMap)
    requires KeysIn(entries, m) && KeysIn(entries', m)
    requires forall p, k :: p in m && k in m[p] ==> entries[k] == entries'[k]
    ensures OrderLevels(entries, m) == OrderLevels(entries', m)
  {
    forall p | p in m
      ensures Orders(entries, m[p]) == Orders(entries', m[p])
    {
      assert forall i :: 0 <= i < |m[p]| ==> m[p][i] in m[p];
    }
  }

  lemma OrdersConcat(entries: map<nat, Order>, a: seq<nat>, b: seq<nat>)
    requires (forall k :: k in a ==> k in entries) && (forall k :: k in b ==> k in entries)
    ensures forall k :: k in a + b ==> k in entries
    ensures Orders(entries, a + b) == Orders(entries, a) + Orders(entries, b)
  {
  }

  /** Flattening commutes with looking the keys up. */
  lemma {:induction false} FlattenOrders(side: Side, entries: map<nat, Order>, m: PriceMap)
    requires KeysIn(entries, m)
    ensures forall k :: k in Flatten(side, m) ==> k in entries
    ensures Flatten(side, OrderLevels(entries, m)) == Orders(entries, Flatten(side, m))
    decreases |m|
  {
    if m != map[] {
      var b := Best(side, m.Keys);
      FlattenOrders(side, entries, m - {b});
      assert OrderLevels(entries, m) - {b} == OrderLevels(entries, m - {b});
      FlattenFrom(side, OrderLevels(entries, m), b);
      OrdersConcat(entries, m[b], Flatten(side, m - {b}));
    }
  }

  // ---------- A key arrives ----------

  lemma PutIsValid(s: Slab, o: Order)
    requires s.Valid()
    ensures s.Put(o).Valid()
    ensures s.VacantKey() !in s.entries
    ensures s.Put(o).entries == s.entries[s.VacantKey() := o]
  {
  }

  lemma IndexPut(entries: map<nat, Order>, index: map<OrderId, nat>, k: nat, o: Order)
    requires IndexSafe(entries, index) && k !in entries
    ensures IndexSafe(entries[k := o], index[o.id := k])
    ensures AllIndexed(entries, index) ==> (AllIndexed(entries[k := o], index[o.id := k]) <==> o.id !in index)
  {
    if AllIndexed(entries, index) && o.id in index {
      var first := index[o.id];
      assert entries[k := o][first].id == o.id && index[o.id := k][o.id] != first;
    }
  }

  /** Nothing changes on the other side when a key arrives. */
  lemma SideGrows(entries: map<nat, Order>, side: Side, m: PriceMap, k: nat, o: Order)
    requires SideOk(entries, side, m) && k !in entries && o.side != side
    ensures SideOk(entries[k := o], side, m)
    ensures Flat(entries[k := o], side, m) == Flat(entries, side, m)
  {
    var entries' := entries[k := o];
    forall p | p in m
      ensures LevelOk(entries[k := o], side, p, m[p])
    {
      assert LevelOk(entries, side, p, m[p]);
    }
    forall j | j in entries' && entries'[j].side == side
      ensures Placed(entries', m, j)
    {
      assert Placed(entries, m, j);
    }
    SideOkKeysIn(entries, side, m);
    LevelsAgree(entries, entries[k := o], m);
  }

  lemma SidePushOk(entries: map<nat, Order>, m: PriceMap, k: nat, o: Order, p: Price)
    requires SideOk(entries, o.side, m) && k !in entries && o.price == Some(p)
    ensures SideOk(entries[k := o], o.side, m[p := Queue(m, p) + [k]])
  {
    SideOkKeysIn(entries, o.side, m);
    var q := Queue(m, p);
    var entries', m' := entries[k := o], m[p := q + [k]];
    forall x | x in m'
      ensures LevelOk(entries', o.side, x, m'[x])
    {
      assert x in m ==> LevelOk(entries, o.side, x, m[x]);
    }
    forall j | j in entries' && entries'[j].side == o.side
      ensures Placed(entries', m', j)
    {
      if j == k {
        assert (q + [k])[|q|] == k;
      } else {
        assert Placed(entries, m, j);
      }
    }
  }

  lemma LevelsPush(entries: map<nat, Order>, m: PriceMap, k: nat, o: Order, p: Price)
    requires KeysIn(entries, m) && k !in entries
    ensures KeysIn(entries[k := o], m[p := Queue(m, p) + [k]])
    ensures OrderLevels(entries[k := o], m[p := Queue(m, p) + [k]])
         == OrderLevels(entries, m)[p := Queue(OrderLevels(entries, m), p) + [o]]
  {
    LevelsAgree(entries, entries[k := o], m);
    assert p in m ==> Orders(entries[k := o], m[p]) == OrderLevels(entries, m)[p];
    var q := Queue(m, p);
    assert forall j :: j in q ==> j in entries;
    assert Orders(entries[k := o], q + [k]) == Orders(entries[k := o], q) + [o];
  }

  lemma SidePush(entries: map<nat, Order>, m: PriceMap, k: nat, o: Order, p: Price)
    requires SideOk(entries, o.side, m) && k !in entries && o.price == Some(p)
    ensures SideOk(entries[k := o], o.side, m[p := Queue(m, p) + [k]])
    ensures Flat(entries[k := o], o.side, m[p := Queue(m, p) + [k]]) == Rest(o.side, Flat(entries, o.side, m), o)
  {
    SidePushOk(entries, m, k, o, p);
    SideOkKeysIn(entries, o.side, m);
    LevelsPush(entries, m, k, o, p);
    LevelsArePriced(entries, o.side, m);
    FlattenPush(o.side, OrderLevels(entries, m), o, p);
  }

  /** Inserting a priced order rests it behind every equal or better price on its own side. */
  lemma InsertRefines(b: Book, o: Order)
    requires Sound(b) && o.price.Some?
    ensures Sound(Insert(b, o))
    ensures ViewOf(Insert(b, o)) == ViewOf(b).With(o.side, Rest(o.side, ViewOf(b).On(o.side), o))
    ensures WellFormed(b) && o.id !in b.index ==> WellFormed(Insert(b, o))
  {
    hide SideOk, IndexSafe, AllIndexed, Flat;
    var k := b.slab.VacantKey();
    var other := o.side.Opposite();
    PutIsValid(b.slab, o);
    IndexPut(b.slab.entries, b.index, k, o);
    SidePush(b.slab.entries, b.On(o.side), k, o, o.price.value);
    SideGrows(b.slab.entries, other, b.On(other), k, o);
  }

  /** What goes in after a removal gets the removed order's key: in slab and index, and behind
      everybody else at its price. */
  lemma InsertAfterRemove(b: Book, k: nat, o: Order)
    requires Sound(b) && k in b.slab.entries && b.slab.entries[k].price.Some? && o.price.Some?
    ensures var after := Insert(Remove(b, k), o);
            && after.slab == Slab(b.slab.entries[k := o], b.slab.free, b.slab.capacity)
            && o.id in after.index && after.index[o.id] == k
            && o.price.value in after.On(o.side)
            && var queue := after.On(o.side)[o.price.value]; queue != [] && queue[|queue| - 1] == k
  {
    hide Sound, Drop;
    TakenIsNext(b.slab, k, o);
    assert Remove(b, k).slab == b.slab.Take(k);
  }

  /** Inserting keeps the book well formed exactly for ids the index does not know yet. */
  lemma InsertNeedsFreshId(b: Book, o: Order)
    requires WellFormed(b) && o.price.Some?
    ensures WellFormed(Insert(b, o)) <==> o.id !in b.index
  {
    InsertRefines(b, o);
    hide SideOk, IndexSafe, AllIndexed;
    PutIsValid(b.slab, o);
    IndexPut(b.slab.entries, b.index, b.slab.VacantKey(), o);
  }

  // ---------- A key leaves ----------

  lemma TakeIsValid(s: Slab, k: nat)
    requires s.Valid() && k in s.entries
    ensures s.Take(k).Valid()
  {
  }

  lemma IndexTake(entries: map<nat, Order>, index: map<OrderId, nat>, k: nat)
    requires IndexSafe(entries, index) && k in entries
    ensures IndexSafe(entries - {k}, index - {entries[k].id})
    ensures AllIndexed(entries, index) ==> AllIndexed(entries - {k}, index - {entries[k].id})
  {
  }

  lemma DistinctEntryIds(entries: map<nat, Order>, index: map<OrderId, nat>)
    requires AllIndexed(entries, index)
    ensures forall i, j :: i in entries && j in entries && i != j ==> entries[i].id != entries[j].id
  {
  }

  lemma SideShrinks(entries: map<nat, Order>, side: Side, m: PriceMap, k: nat)
    requires SideOk(entries, side, m) && k in entries && entries[k].side != side
    ensures SideOk(entries - {k}, side, m)
    ensures Flat(entries - {k}, side, m) == Flat(entries, side, m)
  {
    forall p | p in m
      ensures LevelOk(entries - {k}, side, p, m[p])
    {
      assert LevelOk(entries, side, p, m[p]);
    }
    forall j | j in entries - {k} && entries[j].side == side
      ensures Placed(entries - {k}, m, j)
    {
      assert Placed(entries, m, j);
    }
    SideOkKeysIn(entries, side, m);
    LevelsAgree(entries, entries - {k}, m);
  }

  lemma SideDropOk(entries: map<nat, Order>, m: PriceMap, k: nat, side: Side, p: Price)
    requires SideOk(entries, side, m)
    requires k in entries && entries[k].side == side && entries[k].price == Some(p)
    ensures p in m && k in m[p]
    ensures SideOk(entries - {k}, side, SetQueue(m, p, Drop(m[p], k)))
  {
    assert Placed(entries, m, k);
    SideOkKeysIn(entries, side, m);
    DropMembers(m[p], k);
    var m' := SetQueue(m, p, Drop(m[p], k));
    forall q | q in m'
      ensures LevelOk(entries - {k}, side, q, m'[q])
    {
      assert LevelOk(entries, side, q, m[q]);
    }
    forall j | j in entries - {k} && entries[j].side == side
      ensures Placed(entries - {k}, m', j)
    {
      assert Placed(entries, m, j);
    }
  }

  /** The first key stays or goes together with its order. */
  lemma OrdersDropStep(entries: map<nat, Order>, ks: seq<nat>, k: nat)
    requires ks != [] && (forall j :: j in ks ==> j in entries) && k in entries
    requires ks[0] in entries && (entries[ks[0]].id == entries[k].id <==> ks[0] == k)
    requires forall j :: j in Drop(ks[1..], k) ==> j in entries
    requires Orders(entries, Drop(ks[1..], k)) == Without(Orders(entries, ks[1..]), entries[k].id)
    ensures forall j :: j in Drop(ks, k) ==> j in entries
    ensures Orders(entries, Drop(ks, k)) == Without(Orders(entries, ks), entries[k].id)
  {
    var s, id := Orders(entries, ks), entries[k].id;
    FirstStaysOrGoes(ks, k, s, id);
    hide Drop, Without, Orders;
    assert s[1..] == Orders(entries, ks[1..]);
    if ks[0] != k {
      OrdersConcat(entries, [ks[0]], Drop(ks[1..], k));
    }
  }

  lemma FirstStaysOrGoes(ks: seq<nat>, k: nat, s: seq<Order>, id: OrderId)
    requires ks != [] && s != []
    ensures Drop(ks, k) == if ks[0] == k then Drop(ks[1..], k) else [ks[0]] + Drop(ks[1..], k)
    ensures Without(s, id) == if s[0].id == id then Without(s[1..], id) else [s[0]] + Without(s[1..], id)
  {
  }

  lemma {:induction false} OrdersDrop(entries: map<nat, Order>, ks: seq<nat>, k: nat)
    requires forall j :: j in ks ==> j in entries
    requires k in entries
    requires forall i, j :: i in entries && j in entries && i != j ==> entries[i].id != entries[j].id
    ensures forall j :: j in Drop(ks, k) ==> j in entries && j != k
    ensures Orders(entries, Drop(ks, k)) == Without(Orders(entries, ks), entries[k].id)
  {
    DropMembers(ks, k);
    if ks != [] {
      assert ks[0] in ks;
      OrdersDrop(entries, ks[1..], k);
      OrdersDropStep(entries, ks, k);
    }
  }

  lemma SideDrop(entries: map<nat, Order>, m: PriceMap, k: nat, side: Side, p: Price)
    requires SideOk(entries, side, m)
    requires k in entries && entries[k].side == side && entries[k].price == Some(p)
    requires forall i, j :: i in entries && j in entries && i != j ==> entries[i].id != entries[j].id
    ensures p in m && k in m[p] && SideOk(entries - {k}, side, SetQueue(m, p, Drop(m[p], k)))
    ensures Flat(entries - {k}, side, SetQueue(m, p, Drop(m[p], k))) == Without(Flat(entries, side, m), entries[k].id)
  {
    SideDropOk(entries, m, k, side, p);
    var m' := SetQueue(m, p, Drop(m[p], k));
    SideOkKeysIn(entries, side, m);
    SideOkKeysIn(entries - {k}, side, m');
    FlattenDrop(side, m, p, k);
    FlattenOrders(side, entries, m);
    FlattenOrders(side, entries - {k}, m');
    OrdersDrop(entries, Flatten(side, m), k);
    assert Orders(entries - {k}, Flatten(side, m')) == Orders(entries, Flatten(side, m'));
  }

  /** Removing a key keeps the book sound. */
  lemma RemoveIsSound(b: Book, k: nat)
    requires Sound(b) && k in b.slab.entries
    ensures Placed(b.slab.entries, b.On(b.slab.entries[k].side), k)
    ensures Sound(Remove(b, k))
    ensures WellFormed(b) ==> WellFormed(Remove(b, k))
  {
    var entries := b.slab.entries;
    var o := entries[k];
    var other := o.side.Opposite();
    assert Placed(entries, b.On(o.side), k);
    hide SideOk, IndexSafe, AllIndexed;
    TakeIsValid(b.slab, k);
    IndexTake(entries, b.index, k);
    SideDropOk(entries, b.On(o.side), k, o.side, o.price.value);
    SideShrinks(entries, other, b.On(other), k);
  }

  /** Removing a key drops exactly its order from its side. */
  lemma RemoveRefines(b: Book, k: nat)
    requires WellFormed(b) && k in b.slab.entries
    ensures Placed(b.slab.entries, b.On(b.slab.entries[k].side), k)
    ensures WellFormed(Remove(b, k))
    ensures var o := b.slab.entries[k];
            ViewOf(Remove(b, k)) == ViewOf(b).With(o.side, Without(ViewOf(b).On(o.side), o.id))
  {
    var entries := b.slab.entries;
    var o := entries[k];
    var other := o.side.Opposite();
    RemoveIsSound(b, k);
    DistinctEntryIds(entries, b.index);
    hide SideOk, IndexSafe, AllIndexed, Flat;
    SideDrop(entries, b.On(o.side), k, o.side, o.price.value);
    SideShrinks(entries, other, b.On(other), k);
  }

  // ---------- The front of a side ----------

  /** `k` is the first key of the best level. */
  ghost predicate IsFront(side: Side, m: PriceMap, k: nat) {
    m != map[] && var p := Best(side, m.Keys); m[p] != [] && k == m[p][0]
  }

  lemma FrontIsFirst(entries: map<nat, Order>, side: Side, m: PriceMap)
    requires SideOk(entries, side, m)
    ensures m == map[] <==> Flat(entries, side, m) == []
    ensures m != map[] ==>
      var p := Best(side, m.Keys);
      && m[p] != []
      && var k := m[p][0];
         k in entries && Flat(entries, side, m)[0] == entries[k] && entries[k].price == Some(p) && entries[k].side == side
  {
    LevelsArePriced(entries, side, m);
    if m != map[] {
      var p := Best(side, m.Keys);
      assert p in OrderLevels(entries, m);
      FlattenFront(side, OrderLevels(entries, m));
      assert LevelOk(entries, side, p, m[p]);
      assert m[p][0] in m[p];
    }
  }

  predicate SamePlace(o: Order, o': Order) {
    o.id == o'.id && o.side == o'.side && o.price == o'.price
  }

  lemma SideAmendOk(entries: map<nat, Order>, side: Side, m: PriceMap, k: nat, o: Order)
    requires SideOk(entries, side, m) && k in entries && SamePlace(o, entries[k])
    ensures SideOk(entries[k := o], side, m)
    ensures o.side != side ==> Flat(entries[k := o], side, m) == Flat(entries, side, m)
  {
    var entries' := entries[k := o];
    forall p | p in m
      ensures LevelOk(entries[k := o], side, p, m[p])
    {
      assert LevelOk(entries, side, p, m[p]);
    }
    forall j | j in entries' && entries'[j].side == side
      ensures Placed(entries', m, j)
    {
      assert Placed(entries, m, j);
    }
    SideOkKeysIn(entries, side, m);
    if o.side != side {
      LevelsAgree(entries, entries[k := o], m);
    }
  }

  lemma LevelsSetFront(entries: map<nat, Order>, m: PriceMap, p: Price, o: Order)
    requires KeysIn(entries, m) && p in m && m[p] != [] && NoDuplicates(m[p])
    requires forall q :: q in m && m[p][0] in m[q] ==> q == p
    ensures var om := OrderLevels(entries, m);
            OrderLevels(entries[m[p][0] := o], m) == om[p := [o] + om[p][1..]]
  {
    var k := m[p][0];
    var om := OrderLevels(entries, m);
    forall q | q in m
      ensures Orders(entries[k := o], m[q]) == om[p := [o] + om[p][1..]][q]
    {
      assert forall i :: 0 <= i < |m[q]| ==> m[q][i] in m[q];
    }
  }

  lemma SideAmendFront(entries: map<nat, Order>, side: Side, m: PriceMap, k: nat, o: Order)
    requires SideOk(entries, side, m) && k in entries && SamePlace(o, entries[k]) && IsFront(side, m, k)
    ensures SideOk(entries[k := o], side, m)
    ensures Flat(entries, side, m) != []
    ensures Flat(entries[k := o], side, m) == [o] + Flat(entries, side, m)[1..]
  {
    SideAmendOk(entries, side, m, k, o);
    FrontIsFirst(entries, side, m);
    SideOkKeysIn(entries, side, m);
    var p := Best(side, m.Keys);
    assert LevelOk(entries, side, p, m[p]);
    LevelsSetFront(entries, m, p, o);
    LevelsArePriced(entries, side, m);
    FlattenSetFront(side, OrderLevels(entries, m), o);
  }

  lemma IndexAmend(entries: map<nat, Order>, index: map<OrderId, nat>, k: nat, o: Order)
    requires IndexSafe(entries, index) && k in entries && o.id == entries[k].id
    ensures IndexSafe(entries[k := o], index)
    ensures AllIndexed(entries, index) ==> AllIndexed(entries[k := o], index)
  {
  }

  lemma SlabAmend(s: Slab, k: nat, o: Order)
    requires s.Valid() && k in s.entries
    ensures s.(entries := s.entries[k := o]).Valid()
  {
  }

  /** Changing the front order in place changes the head of its side. */
  lemma AmendFront(b: Book, k: nat, o: Order)
    requires Sound(b) && k in b.slab.entries && IsFront(o.side, b.On(o.side), k)
    requires SamePlace(o, b.slab.entries[k])
    ensures Sound(Amend(b, k, o))
    ensures WellFormed(b) ==> WellFormed(Amend(b, k, o))
    ensures SideOrders(b, o.side) != []
    ensures ViewOf(Amend(b, k, o)) == ViewOf(b).With(o.side, [o] + ViewOf(b).On(o.side)[1..])
  {
    hide SideOk, IndexSafe, AllIndexed, Flat, IsFront;
    var other := o.side.Opposite();
    SideAmendFront(b.slab.entries, o.side, b.On(o.side), k, o);
    SideAmendOk(b.slab.entries, other, b.On(other), k, o);
    IndexAmend(b.slab.entries, b.index, k, o);
    SlabAmend(b.slab, k, o);
  }

  lemma DropFront(q: seq<nat>)
    requires q != [] && NoDuplicates(q)
    ensures Drop(q, q[0]) == q[1..]
  {
    DropMembers(q[1..], q[0]);
  }

  lemma SidePopFront(entries: map<nat, Order>, side: Side, m: PriceMap, k: nat)
    requires SideOk(entries, side, m) && IsFront(side, m, k)
    ensures k in entries && entries[k].side == side
    ensures var p := Best(side, m.Keys);
            && entries[k].price == Some(p)
            && SideOk(entries - {k}, side, SetQueue(m, p, Drop(m[p], k)))
            && Flat(entries, side, m) != []
            && Flat(entries - {k}, side, SetQueue(m, p, Drop(m[p], k))) == Flat(entries, side, m)[1..]
  {
    var p := Best(side, m.Keys);
    FrontIsFirst(entries, side, m);
    SideDropOk(entries, m, k, side, p);
    var m' := SetQueue(m, p, Drop(m[p], k));
    SideOkKeysIn(entries, side, m);
    SideOkKeysIn(entries - {k}, side, m');
    assert LevelOk(entries, side, p, m[p]);
    DropFront(m[p]);
    FlattenPop(side, m);
    FlattenOrders(side, entries, m);
    FlattenOrders(side, entries - {k}, m');
    var ks := Flatten(side, m);
    assert Orders(entries - {k}, ks[1..]) == Orders(entries, ks)[1..];
  }

  /** Popping the front of a level is removing its first key. */
  lemma PopFrontRemoves(b: Book, side: Side, p: Price)
    requires Sound(b) && p in b.On(side)
    ensures b.On(side)[p] != []
    ensures var k := b.On(side)[p][0];
            && k in b.slab.entries
            && b.slab.entries[k].price == Some(p)
            && PopFront(b, side, p) == Remove(b, k)
  {
    var m := b.On(side);
    assert LevelOk(b.slab.entries, side, p, m[p]);
    assert m[p][0] in m[p];
    DropFront(m[p]);
  }

  /** Removing the front order drops the head of its side. */
  lemma RemoveFront(b: Book, side: Side, k: nat)
    requires Sound(b) && IsFront(side, b.On(side), k)
    ensures k in b.slab.entries && Placed(b.slab.entries, b.On(side), k) && b.slab.entries[k].side == side
    ensures Sound(Remove(b, k))
    ensures WellFormed(b) ==> WellFormed(Remove(b, k))
    ensures SideOrders(b, side) != [] && ViewOf(Remove(b, k)) == ViewOf(b).With(side, ViewOf(b).On(side)[1..])
  {
    hide SideOk, IndexSafe, AllIndexed, Flat, IsFront;
    SidePopFront(b.slab.entries, side, b.On(side), k);
    RemoveIsSound(b, k);
    SideShrinks(b.slab.entries, side.Opposite(), b.On(side.Opposite()), k);
  }

  // ---------- A live book has a live view ----------

  lemma KeysOfSide(entries: map<nat, Order>, side: Side, m: PriceMap)
    requires SideOk(entries, side, m)
    ensures KeysIn(entries, m)
    ensures NoDuplicates(Flatten(side, m))
    ensures forall k :: k in Flatten(side, m) <==> k in entries && entries[k].side == side
    ensures Flat(entries, side, m) == Orders(entries, Flatten(side, m))
  {
    SideOkKeysIn(entries, side, m);
    assert forall p :: p in m ==> LevelOk(entries, side, p, m[p]);
    FlattenNoDuplicates(side, m);
    forall k
      ensures k in Flatten(side, m) <==> k in entries && entries[k].side == side
    {
      FlattenMembers(side, m, k);
      if k in entries && entries[k].side == side {
        assert Placed(entries, m, k);
      }
    }
    FlattenOrders(side, entries, m);
  }

  lemma FlatIsLive(entries: map<nat, Order>, side: Side, m: PriceMap)
    requires SideOk(entries, side, m) && AllLive(entries)
    ensures LiveSide(side, Flat(entries, side, m))
  {
    LevelsArePriced(entries, side, m);
    FlattenSorted(side, OrderLevels(entries, m));
    assert Sorted(side, Flat(entries, side, m));
    hide SideOk, Flatten, Flat, Sorted;
    FlatMembers(entries, side, m);
  }

  lemma FlatMembers(entries: map<nat, Order>, side: Side, m: PriceMap)
    requires SideOk(entries, side, m)
    ensures var ks, s := Flatten(side, m), Flat(entries, side, m);
            |s| == |ks| && NoDuplicates(ks)
            && forall i :: 0 <= i < |s| ==> ks[i] in entries && s[i] == entries[ks[i]] && s[i].side == side
  {
    KeysOfSide(entries, side, m);
    hide SideOk, Flatten, Flat;
    var ks := Flatten(side, m);
    assert forall i :: 0 <= i < |ks| ==> ks[i] in ks;
  }

  lemma FlatIsIndexed(entries: map<nat, Order>, index: map<OrderId, nat>, side: Side, m: PriceMap)
    requires SideOk(entries, side, m) && AllIndexed(entries, index)
    ensures DistinctIds(Flat(entries, side, m))
    ensures forall i :: 0 <= i < |Flat(entries, side, m)| ==>
              var o := Flat(entries, side, m)[i]; o.id in index && index[o.id] in entries && entries[index[o.id]].side == side
  {
    FlatMembers(entries, side, m);
    hide SideOk, Flatten, Flat;
  }

  lemma LiveSideOfBook(b: Book, side: Side)
    requires Live(b)
    ensures LiveSide(side, SideOrders(b, side)) && DistinctIds(SideOrders(b, side))
    ensures forall i :: 0 <= i < |SideOrders(b, side)| ==>
              var o := SideOrders(b, side)[i]; o.id in b.index && b.slab.entries[b.index[o.id]].side == side
  {
    hide SideOk, Flat, Flatten, LiveSide, DistinctIds;
    FlatIsLive(b.slab.entries, side, b.On(side));
    FlatIsIndexed(b.slab.entries, b.index, side, b.On(side));
  }

  lemma LiveBookHasLiveView(b: Book)
    requires Live(b)
    ensures LiveView(ViewOf(b))
  {
    LiveSideOfBook(b, Bid);
    LiveSideOfBook(b, Ask);
  }

  lemma IndexNames(b: Book, id: OrderId)
    requires Sound(b) && id in b.index
    ensures b.index[id] in b.slab.entries && b.slab.entries[b.index[id]].id == id
  {
  }

  lemma SideIds(b: Book, side: Side, id: OrderId)
    requires WellFormed(b)
    ensures HasId(SideOrders(b, side), id) <==> id in b.index && b.slab.entries[b.index[id]].side == side
  {
    var entries, m := b.slab.entries, b.On(side);
    var ks := Flatten(side, m);
    KeysOfSide(entries, side, m);
    if id in b.index && entries[b.index[id]].side == side {
      assert b.index[id] in ks;
      var i :| 0 <= i < |ks| && ks[i] == b.index[id];
      assert SideOrders(b, side)[i].id == id;
    }
    if HasId(SideOrders(b, side), id) {
      var i :| 0 <= i < |ks| && SideOrders(b, side)[i].id == id;
      assert ks[i] in ks;
    }
  }

  /** The ids of the view are the ids of the index. */
  lemma ViewIds(b: Book, id: OrderId)
    requires WellFormed(b)
    ensures ViewOf(b).Contains(id) <==> id in b.index
  {
    SideIds(b, Bid, id);
    SideIds(b, Ask, id);
  }
}
