/** Logs after which a restart reverses a queue, because slab keys are handed out again. */
module Reordering {
  import opened Types
  import opened PriceTime
  import opened Waterfall
  import opened Levels
  import opened BookModel
  import opened Draining
  import opened Snapshots
  import opened Replay
  import opened Recovery
  import Matching

  /** Limit orders at one price, each new and for something. */
  predicate Alike(x: Order, y: Order) {
    && Incoming(x) && x.orderType.Limit? && x.price.Some? && 0 < x.quantity
    && x.side == y.side && x.price == y.price && x.orderType == y.orderType
  }

  /** An order that wants exactly what `x` has, at that price or at any. */
  predicate Exhausts(t: Order, x: Order) {
    && Incoming(t) && t.side == x.side.Opposite() && t.quantity == x.quantity
    && (t.orderType.Limit? ==> t.price == x.price)
  }

  /** With nothing on the other side, a limit order is inserted as it comes. */
  lemma RestsAlone(b: Book, o: Order)
    requires Sound(b) && ViewOf(b).On(o.side.Opposite()) == []
    requires o.orderType.Limit? && o.price.Some? && 0 < o.Remaining() && 0 < o.quantity
    ensures BookAfter(b, o) == Insert(b, o) && Sound(Insert(b, o))
    ensures ViewOf(Insert(b, o)) == ViewOf(b).With(o.side, Rest(o.side, ViewOf(b).On(o.side), o))
  {
    InsertRefines(b, o);
    hide Sound, ViewOf, Insert;
  }

  /** The two inserts. */
  lemma TwoRest(x: Order, y: Order)
    requires Alike(x, y) && Alike(y, x)
    ensures var one, two := Insert(EmptyBook, x), Insert(Insert(EmptyBook, x), y);
            && Sound(EmptyBook) && Sound(one) && Sound(two)
            && BookAfter(EmptyBook, x) == one && BookAfter(one, y) == two
            && ViewOf(two).On(x.side) == [x, y] && ViewOf(two).On(x.side.Opposite()) == []
  {
    hide Sound, ViewOf, Insert, BookAfter;
    Matching.EmptyBookView();
    LiveIsWellFormed(EmptyBook);
    RestsAlone(EmptyBook, x);
    RestsAlone(Insert(EmptyBook, x), y);
    assert Rest(x.side, [], x) == [x];
    assert Rest(x.side, [x], y) == [x] + Rest(x.side, [], y);
    assert Rest(x.side, [], y) == [y];
  }

  /** The fill that exhausts the first order: popping it is removing its key. */
  lemma FirstLeaves(two: Book, x: Order, y: Order, t: Order)
    requires Alike(x, y) && Alike(y, x) && x.id != y.id && Exhausts(t, x)
    requires Sound(two) && ViewOf(two).On(x.side) == [x, y]
    requires two.slab == Slab(map[0 := x, 1 := y], [], 2) && two.index == map[x.id := 0, y.id := 1]
    requires two.On(x.side) == map[x.price.value := [0, 1]]
    ensures BookAfter(two, t) == Remove(two, 0)
  {
    hide Sound, ViewOf, Insert, Remove, Greedy, Best, FillFront;
    var side := x.side;
    FrontIsZero(two, side, x.price.value);
    TakerOfFirst(x, y, t);
    assert TakerAfter(ViewOf(two), t) == ApplyFill(t, t.quantity);
    FrontPops(two, x, y);
    assert Drain(two, side, t.quantity) == Drain(Remove(two, 0), side, 0);
  }

  lemma TakerOfFirst(x: Order, y: Order, t: Order)
    requires Alike(x, y) && Exhausts(t, x)
    ensures Greedy(t, BoundOf(t), [x, y], 0).taker == ApplyFill(t, t.quantity)
  {
    assert [x, y][1..] == [y];
    assert Eligible(t.side, BoundOf(t), x.price.value);
    assert Greedy(ApplyFill(t, t.quantity), BoundOf(t), [y], 1).taker == ApplyFill(t, t.quantity);
  }

  lemma FrontIsZero(two: Book, side: Side, p: Price)
    requires 0 in two.slab.entries && two.On(side) == map[p := [0, 1]]
    ensures p in two.On(side).Keys && Best(side, two.On(side).Keys) == p
    ensures HasFront(two, side) && FrontKey(two, side) == 0
  {
    assert p in two.On(side).Keys;
  }

  lemma FrontPops(two: Book, x: Order, y: Order)
    requires Alike(x, y) && Alike(y, x) && x.id != y.id
    requires two.slab == Slab(map[0 := x, 1 := y], [], 2) && two.index == map[x.id := 0, y.id := 1]
    requires two.On(x.side) == map[x.price.value := [0, 1]]
    requires HasFront(two, x.side)
    ensures FillFront(two, x.side, x.quantity) == Remove(two, 0)
  {
    var side, p := x.side, x.price.value;
    var o := ApplyFill(x, x.quantity);
    FrontIsZero(two, side, p);
    var amended := Amend(two, 0, o);
    DropFirstOfTwo();
    hide Drop, Best;
    assert [0, 1][1..] == [1];
    assert amended.slab.entries - {0} == two.slab.entries - {0};
    assert amended.On(side) == two.On(side);
    assert FillFront(two, side, x.quantity) == PopFront(amended, side, p);
  }

  /** The last insert, under the freed key. */
  lemma LastRests(two: Book, x: Order, z: Order)
    requires Alike(z, x) && Sound(two) && 0 in two.slab.entries && two.slab.entries[0] == x
    requires ViewOf(two).On(x.side.Opposite()) == []
    ensures Sound(Remove(two, 0)) && BookAfter(Remove(two, 0), z) == Insert(Remove(two, 0), z)
  {
    RemoveIsSound(two, 0);
    OtherSideStays(two, x);
    hide Sound, ViewOf, Insert, BookAfter;
    RestsAlone(Remove(two, 0), z);
  }

  lemma OtherSideStays(two: Book, x: Order)
    requires Sound(two) && 0 in two.slab.entries && two.slab.entries[0] == x && Sound(Remove(two, 0)) && x.price.Some?
    ensures ViewOf(Remove(two, 0)).On(x.side.Opposite()) == ViewOf(two).On(x.side.Opposite())
  {
    var other := x.side.Opposite();
    hide SideOk, IndexSafe, Flat;
    SideShrinks(two.slab.entries, other, two.On(other), 0);
  }

  lemma BookLogOfFour(x: Order, y: Order, t: Order, z: Order)
    requires Sound(EmptyBook)
    requires var one := BookAfter(EmptyBook, x);
             && Sound(one) && Sound(BookAfter(one, y)) && Sound(BookAfter(BookAfter(one, y), t))
    ensures BookLog(EmptyBook, [x, y, t, z]) == BookAfter(BookAfter(BookAfter(BookAfter(EmptyBook, x), y), t), z)
  {
    hide Sound, BookAfter;
    var log := [x, y, t, z];
    BookLogNext(EmptyBook, log, 0);
    BookLogNext(EmptyBook, log, 1);
    BookLogNext(EmptyBook, log, 2);
    BookLogNext(EmptyBook, log, 3);
    assert log[..4] == log && log[..0] == [];
  }

  lemma SidesOfView(b: Book, c: Book, side: Side)
    requires Sound(b) && Sound(c) && ViewOf(b) == ViewOf(c)
    ensures SideOrders(b, side) == SideOrders(c, side)
  {
    hide Sound, SideOrders;
    assert ViewOf(b).On(side) == ViewOf(c).On(side);
  }

  lemma FourFollow(x: Order, y: Order, t: Order, z: Order)
    requires Incoming(x) && Incoming(y) && Incoming(t) && Incoming(z)
    requires x.id != y.id && y.id != z.id && x.id != z.id && t.id != x.id && t.id != y.id && t.id != z.id
    ensures Follows(EmptyView, [x, y, t, z])
  {
  }

  /** Two orders rest at a price, a third order exhausts the first, and a fourth rests at the same
      price under the freed key: the book the engine reaches holds the second before the fourth, and
      a restart puts the fourth in front. */
  lemma LogCanReorder(x: Order, y: Order, t: Order, z: Order)
    requires Alike(x, y) && Alike(y, z) && Alike(z, x) && Exhausts(t, x)
    requires x.id != y.id && y.id != z.id && x.id != z.id && t.id != x.id && t.id != y.id && t.id != z.id
    ensures Follows(EmptyView, [x, y, t, z])
    ensures var b := BookLog(EmptyBook, [x, y, t, z]);
            && Live(b) && Live(Restored(b)) && !AscendingBook(b)
            && AtPrice(SideOrders(b, x.side), x.price.value) == [y, z]
            && AtPrice(SideOrders(Restored(b), x.side), x.price.value) == [z, y]
  {
    hide Sound, ViewOf, Live, BookAfter, Insert, Remove, SideOrders, AtPrice, Restored, AscendingBook, Follows;
    TwoRest(x, y);
    ReorderStart(x, y);
    ReorderLive(x, y, z);
    RestartCanReorder(x, y, z);
    var two := Insert(Insert(EmptyBook, x), y);
    FirstLeaves(two, x, y, t);
    LastRests(two, x, z);
    var b := Insert(Remove(two, 0), z);
    BookLogOfFour(x, y, t, z);
    RoundTripExactly(b);
    FourFollow(x, y, t, z);
    LiveIsWellFormed(b);
    LiveIsWellFormed(Restored(b));
    assert [y, z][0] != [z, y][0];
    if AscendingBook(b) {
      SidesOfView(b, Restored(b), x.side);
    }
  }

  // ---------- Two freed keys ----------

  lemma EmptySide(b: Book, side: Side)
    requires Sound(b) && b.On(side) == map[]
    ensures ViewOf(b).On(side) == []
  {
    Matching.FrontOf(b, side);
  }

  /** A book with nothing on the other side takes a limit order as it comes. */
  lemma InsertAlone(b: Book, o: Order)
    requires Sound(b) && b.On(o.side.Opposite()) == map[]
    requires o.orderType.Limit? && o.price.Some? && 0 < o.Remaining() && 0 < o.quantity
    ensures BookAfter(b, o) == Insert(b, o)
  {
    EmptySide(b, o.side.Opposite());
    RestsAlone(b, o);
  }

  /** One side holds `x` and `y` in this order under the keys 0 and 1. */
  ghost predicate HoldsTwo(b: Book, x: Order, y: Order) {
    && b.slab == Slab(map[0 := x, 1 := y], [], 2) && b.index == map[x.id := 0, y.id := 1]
    && x.price.Some? && b.On(x.side) == map[x.price.value := [0, 1]]
  }

  /** It holds `y` alone, and key 0 is free. */
  ghost predicate HoldsOne(b: Book, y: Order) {
    && b.slab == Slab(map[1 := y], [0], 2) && b.index == map[y.id := 1]
    && y.price.Some? && b.On(y.side) == map[y.price.value := [1]]
  }

  /** It holds nobody, and key 1 will be handed out before key 0. */
  ghost predicate HoldsNone(b: Book, side: Side) {
    b.slab == Slab(map[], [1, 0], 2) && b.On(side) == map[]
  }

  /** The first of two leaves under its fill, then the second. */
  lemma SecondLeaves(three: Book, y: Order)
    requires Incoming(y) && 0 < y.quantity && HoldsOne(three, y)
    ensures HasFront(three, y.side) && three.slab.entries[FrontKey(three, y.side)] == y
    ensures var four := FillFront(three, y.side, y.quantity);
            HoldsNone(four, y.side) && four.On(y.side.Opposite()) == three.On(y.side.Opposite())
  {
    var side, p := y.side, y.price.value;
    assert p in three.On(side).Keys;
    assert Best(side, three.On(side).Keys) == p;
    hide Best;
    var o := ApplyFill(y, y.quantity);
    var amended := Amend(three, 1, o);
    assert [1][1..] == [] && [1] + [0] == [1, 0];
    assert amended.On(side) == three.On(side) && amended.slab.entries - {1} == map[];
    assert FillFront(three, side, y.quantity) == PopFront(amended, side, p);
  }

  /** An order for both empties the side and frees key 0, then key 1. */
  lemma BothLeave(two: Book, x: Order, y: Order, t: Order)
    requires Alike(x, y) && Alike(y, x) && x.id != y.id && TakesTwo(t, x, y)
    requires Sound(two) && ViewOf(two).On(x.side) == [x, y] && HoldsTwo(two, x, y)
    ensures HoldsNone(BookAfter(two, t), x.side)
    ensures BookAfter(two, t).On(x.side.Opposite()) == two.On(x.side.Opposite())
  {
    hide *;
    AlikeMeans(x, y);
    var three := FirstOfTwo(two, x, y);
    SecondLeaves(three, y);
    var four := FillFront(three, x.side, y.quantity);
    DrainTwice(two, three, four, x.side, x, y);
    TakesBoth(two, four, x, y, t);
  }

  predicate TakesTwo(t: Order, x: Order, y: Order) {
    Incoming(t) && t.orderType.Market? && t.side == x.side.Opposite() && t.quantity == x.quantity + y.quantity
  }

  lemma AlikeMeans(x: Order, y: Order)
    requires Alike(x, y) && Alike(y, x)
    ensures Incoming(y) && 0 < x.quantity == x.Remaining() && 0 < y.quantity == y.Remaining()
    ensures x.side == y.side && x.price.Some? && x.price == y.price
  {
  }

  lemma FirstOfTwo(two: Book, x: Order, y: Order) returns (three: Book)
    requires Alike(x, y) && Alike(y, x) && x.id != y.id && HoldsTwo(two, x, y)
    ensures HasFront(two, x.side) && two.slab.entries[FrontKey(two, x.side)] == x
    ensures three == FillFront(two, x.side, x.quantity) && HoldsOne(three, y)
    ensures three.On(x.side.Opposite()) == two.On(x.side.Opposite())
  {
    hide Remove, Best, FillFront, HasFront, FrontKey;
    FrontIsZero(two, x.side, x.price.value);
    FrontPops(two, x, y);
    ReorderCancel(two, x, y);
    three := Remove(two, 0);
    OtherLevelsStay(two, x, three);
  }

  lemma OtherLevelsStay(two: Book, x: Order, three: Book)
    requires 0 in two.slab.entries && two.slab.entries[0] == x && x.price.Some? && three == Remove(two, 0)
    ensures three.On(x.side.Opposite()) == two.On(x.side.Opposite())
  {
  }

  lemma TakesBoth(two: Book, four: Book, x: Order, y: Order, t: Order)
    requires Alike(x, y) && Alike(y, x) && Sound(two) && ViewOf(two).On(x.side) == [x, y]
    requires TakesTwo(t, x, y) && Drain(two, x.side, x.quantity + y.quantity) == four
    ensures BookAfter(two, t) == four
  {
    hide Sound, ViewOf, Drain, Greedy;
    TakerOfBoth(x, y, t);
    assert TakerAfter(ViewOf(two), t) == ApplyFill(t, t.quantity);
  }

  lemma DrainTwice(two: Book, three: Book, four: Book, side: Side, x: Order, y: Order)
    requires HasFront(two, side) && two.slab.entries[FrontKey(two, side)] == x
    requires HasFront(three, side) && three.slab.entries[FrontKey(three, side)] == y
    requires 0 < x.Remaining() && 0 < y.Remaining()
    requires FillFront(two, side, x.Remaining()) == three && FillFront(three, side, y.Remaining()) == four
    ensures Drain(two, side, x.Remaining() + y.Remaining()) == four
  {
    hide HasFront, FrontKey, FillFront;
    assert Drain(four, side, 0) == four;
    assert Drain(three, side, y.Remaining()) == four;
  }

  lemma TakerOfBoth(x: Order, y: Order, t: Order)
    requires Alike(x, y) && Alike(y, x) && TakesTwo(t, x, y)
    ensures Greedy(t, BoundOf(t), [x, y], 0).taker == ApplyFill(t, t.quantity)
  {
    hide Greedy, Total;
    TotalOfTwo(x, y);
    GreedyConsumes(t, BoundOf(t), [x, y], 0);
  }

  lemma TotalOfTwo(x: Order, y: Order)
    ensures Total([x, y]) == x.Remaining() + y.Remaining()
  {
    var one, two := [y], [x, y];
    assert one[1..] == [] && Total(one[1..]) == 0;
    assert Total(one) == one[0].Remaining() + Total(one[1..]);
    assert two[1..] == one;
    assert Total(two) == two[0].Remaining() + Total(two[1..]);
  }

  /** The two last inserts: the later order stands behind, but under the smaller key. */
  lemma TwoMore(four: Book, z: Order, w: Order)
    requires Alike(z, w) && Alike(w, z)
    requires HoldsNone(four, z.side)
    ensures var five := Insert(four, z);
            && five.On(z.side.Opposite()) == four.On(z.side.Opposite())
            && var b := Insert(five, w);
            && b.slab == Slab(map[0 := w, 1 := z], [], 2)
            && b.On(z.side) == map[z.price.value := [1, 0]]
  {
    var p := z.price.value;
    var five := Insert(four, z);
    assert [1, 0][1..] == [0] && [0][1..] == [];
    assert five.slab == Slab(map[1 := z], [0], 2);
    assert five.On(z.side) == map[p := [1]] by { assert Queue(four.On(z.side), p) + [1] == [1]; }
    var b := Insert(five, w);
    assert b.slab.entries == map[0 := w, 1 := z];
    assert b.On(z.side) == map[p := [1, 0]] by { assert [1] + [0] == [1, 0]; }
  }

  /** Two orders rest at a price, one order takes both, and two more rest at that price.  The slab
      hands out the freed keys last freed first, so the first of them gets the larger key: it stands
      in front in the engine's book, and behind in the restarted one. */
  lemma FreedKeysReorder(x: Order, y: Order, t: Order, z: Order, w: Order)
    requires Alike(x, y) && Alike(y, z) && Alike(z, w) && Alike(w, x)
    requires TakesTwo(t, x, y) && DistinctIds([x, y, t, z, w])
    ensures var b := BookLog(EmptyBook, [x, y, t, z, w]);
            && Live(b) && Live(Restored(b))
            && b.slab.entries == map[0 := w, 1 := z]
            && AtPrice(SideOrders(b, x.side), x.price.value) == [z, w]
            && AtPrice(SideOrders(Restored(b), x.side), x.price.value) == [w, z]
  {
    var log := [x, y, t, z, w];
    FiveFollow(log);
    FiveSound(log);
    assert x.id != y.id && Alike(y, x) && Alike(w, z);
    var two := Insert(Insert(EmptyBook, x), y);
    hide Sound, Live, ViewOf, Insert, BookAfter, BookLog, SideOrders, AtPrice, Restored, DistinctIds, Follows;
    BookLogOfFive(log);
    TwoRest(x, y);
    FourIsEmpty(x, y, t);
    var four := BookAfter(two, t);
    TwoMore(four, z, w);
    InsertAlone(four, z);
    InsertAlone(Insert(four, z), w);
    RestoredOfTwo(BookLog(EmptyBook, log), x.side, x.price.value, w, z);
  }

  lemma FourIsEmpty(x: Order, y: Order, t: Order)
    requires Alike(x, y) && Alike(y, x) && x.id != y.id && TakesTwo(t, x, y)
    ensures Sound(Insert(Insert(EmptyBook, x), y))
    ensures var four := BookAfter(Insert(Insert(EmptyBook, x), y), t);
            HoldsNone(four, x.side) && four.On(x.side.Opposite()) == map[]
  {
    hide Sound, ViewOf, Insert, BookAfter;
    TwoRest(x, y);
    ReorderStart(x, y);
    TwoOther(x, y);
    BothLeave(Insert(Insert(EmptyBook, x), y), x, y, t);
  }

  lemma TwoOther(x: Order, y: Order)
    requires Alike(x, y) && Alike(y, x)
    ensures Insert(Insert(EmptyBook, x), y).On(x.side.Opposite()) == map[]
  {
  }

  lemma FiveFollow(log: Log)
    requires DistinctIds(log) && forall i :: 0 <= i < |log| ==> Incoming(log[i])
    ensures Follows(EmptyView, log)
  {
  }

  lemma FiveSound(log: Log)
    requires Follows(EmptyView, log)
    ensures Live(BookLog(EmptyBook, log))
    ensures forall n :: 0 <= n <= |log| ==> Sound(BookLog(EmptyBook, log[..n]))
  {
    Matching.EmptyBookView();
    LiveIsMatchable(EmptyBook);
    BookLogIsReplay(EmptyBook, log);
    hide Live, Sound, BookLog;
    forall n | 0 <= n <= |log|
      ensures Sound(BookLog(EmptyBook, log[..n]))
    {
      BookLogIsReplay(EmptyBook, log[..n]);
    }
  }

  lemma BookLogOfFive(log: Log)
    requires |log| == 5 && forall n :: 0 <= n <= |log| ==> Sound(BookLog(EmptyBook, log[..n]))
    ensures BookLog(EmptyBook, []) == EmptyBook && Sound(EmptyBook)
    ensures var one := BookAfter(EmptyBook, log[0]);
            Sound(one) &&
            var two := BookAfter(one, log[1]);
            Sound(two) &&
            var three := BookAfter(two, log[2]);
            Sound(three) &&
            var four := BookAfter(three, log[3]);
            Sound(four) && BookLog(EmptyBook, log) == BookAfter(four, log[4])
  {
    hide Sound, BookAfter;
    assert log[..0] == [] && BookLog(EmptyBook, log[..0]) == EmptyBook;
    BookLogNext(EmptyBook, log, 0);
    BookLogNext(EmptyBook, log, 1);
    BookLogNext(EmptyBook, log, 2);
    BookLogNext(EmptyBook, log, 3);
    BookLogNext(EmptyBook, log, 4);
    assert log[..5] == log;
  }
}
