/** The matching engine: two loops that consume the opposite side of the book one maker at a time,
    each proved to compute the greedy match of the flattened book. */
module Matching {
  import opened Types
  import opened PriceTime
  import opened Levels
  import opened BookModel
  import opened OrderBooks
  import opened Draining
  import opened Waterfall

  class MatchingEngine {
    var book: OrderBook
    const marketId: string
    var sequence: nat

    /** What the engine is, with slab keys forgotten. */
    ghost function Abs(): Engine
      requires Sound(book.State())
      reads this, book
    {
      Engine(ViewOf(book.State()), sequence)
    }

    /** Enough for matching: holds whatever orders are processed. */
    ghost predicate Valid()
      reads this, book
    {
      Matchable(book.State())
    }

    /** All four structures agree and every order is a resting one: holds when callers keep ids
        apart and hand over unfilled orders. */
    ghost predicate IsLive()
      reads this, book
      ensures IsLive() ==> Valid()
    {
      Live(book.State())
    }

    constructor (marketId: string)
      ensures IsLive() && fresh(book) && Abs() == NewEngine
      ensures this.marketId == marketId
      ensures book.State() == EmptyBook
    {
      book := new OrderBook();
      this.marketId := marketId;
      sequence := 0;
      new;
      EmptyBookView();
    }

    /** Main entry point, for any order at all. */
    method ProcessOrder(order: Order) returns (r: Result<ProcessResult, EngineError>)
      requires Valid()
      modifies this`sequence, book
      ensures Valid()
      ensures var p := Process(old(Abs()), order); Abs() == p.engine && r == p.result
      ensures book.State() == BookAfter(old(book.State()), order)
      ensures old(IsLive()) && Incoming(order) && order.id !in old(book.index) ==> IsLive()
      ensures book.index.Keys <= old(book.index.Keys) + {order.id}
    {
      match order.orderType
      case Limit => r := ProcessLimit(order);
      case Market => r := ProcessMarket(order);
    }

    /** Cancel whatever the index finds under the id; on a live book that is the order of that id. */
    method Cancel(id: OrderId) returns (r: Result<ProcessResult, EngineError>)
      requires Valid()
      modifies book
      ensures Valid()
      ensures r.Err? ==> r == Err(OrderNotFound(id)) && book.State() == old(book.State())
      ensures r.Ok? ==> r == Ok(CancelDone)
      ensures r.Ok? <==> id in old(book.index) && !old(book.orders).entries[old(book.index)[id]].IsComplete()
      ensures r.Ok? ==> book.State() == Remove(old(book.State()), old(book.index)[id])
      ensures old(IsLive()) ==>
                IsLive() && var c := PriceTime.Cancel(old(Abs()), id); Abs() == c.0 && r == c.1
    {
      hide Sound, AllIndexed, AllUnfilled, AllLive, Flat, Without, HasId;
      ghost var before := book.State();
      if id in book.index {
        IndexNames(before, id);
        RemoveIsSound(before, book.index[id]);
        RemoveKeepsUnfilled(before, book.index[id]);
      }
      if Live(before) {
        CancelViews(before, id);
      }
      var c := book.CancelOrder(id);
      if c.Err? {
        return Err(OrderNotFound(id));
      }
      return Ok(CancelDone);
    }

    method ProcessLimit(order: Order) returns (r: Result<ProcessResult, EngineError>)
      requires Valid() && order.orderType.Limit?
      modifies this`sequence, book
      ensures Valid()
      ensures var p := Process(old(Abs()), order); Abs() == p.engine && r == p.result
      ensures book.State() == BookAfter(old(book.State()), order)
      ensures old(IsLive()) && Incoming(order) && order.id !in old(book.index) ==> IsLive()
      ensures book.index.Keys <= old(book.index.Keys) + {order.id}
    {
      hide Sound, AllIndexed, AllUnfilled, AllLive, Greedy, Flat, Drain;
      if order.quantity <= 0 {
        return Err(InvalidQuantity);
      }
      var taker, fills := MatchAgainstBook(order);
      GreedyTaker(order, BoundOf(order), old(Abs()).view.On(order.side.Opposite()), old(sequence));
      TakerIgnoresSequence(order, BoundOf(order), old(Abs()).view.On(order.side.Opposite()), old(sequence), 0);
      if taker.Remaining() > 0 {
        ghost var matched := book.State();
        var inserted := book.InsertOrder(taker);
        if inserted.Err? {
          return Err(InvalidQuantity);
        }
        InsertKeepsUnfilled(matched, taker);
        if old(IsLive()) && Incoming(order) && order.id !in old(book.index) {
          LiveSideOfBook(old(book.State()), order.side.Opposite());
          InsertKeepsLive(matched, taker);
        }
        if |fills| == 0 {
          return Ok(Resting);
        }
      }
      return Ok(Fills(fills));
    }

    method ProcessMarket(order: Order) returns (r: Result<ProcessResult, EngineError>)
      requires Valid() && order.orderType.Market?
      modifies this`sequence, book
      ensures Valid()
      ensures var p := Process(old(Abs()), order); Abs() == p.engine && r == p.result
      ensures book.State() == BookAfter(old(book.State()), order)
      ensures old(IsLive()) ==> IsLive()
      ensures book.index.Keys <= old(book.index.Keys)
    {
      hide Sound, AllIndexed, AllUnfilled, AllLive, Greedy, Flat, Drain;
      if order.quantity <= 0 {
        return Err(InvalidQuantity);
      }
      var taker, fills := SweepBook(order);
      TakerIgnoresSequence(order, BoundOf(order), old(Abs()).view.On(order.side.Opposite()), old(sequence), 0);
      return Ok(Fills(fills));
    }

    /** Match a limit taker against the opposite side, best price first, within its price. */
    method MatchAgainstBook(order: Order) returns (taker: Order, fills: seq<Fill>)
      requires Valid()
      modifies this`sequence, book
      ensures Valid() && book.index.Keys <= old(book.index.Keys)
      ensures old(IsLive()) ==> IsLive()
      ensures var opposite := order.side.Opposite();
              var g := Greedy(order, Some(LimitPrice(order)), old(Abs()).view.On(opposite), old(sequence));
              && taker == g.taker && fills == g.fills && sequence == g.sequence
              && Abs().view == old(Abs()).view.With(opposite, g.makers)
      ensures book.State() == Drain(old(book.State()), order.side.Opposite(), taker.filled - order.filled)
    {
      hide Sound, AllIndexed, AllUnfilled, AllLive, Best, ViewOf, Greedy, InProgress, Drain, FillFront, HasFront,
           ApplyFill, Min;
      taker, fills := order, [];
      ghost var opposite := order.side.Opposite();
      ghost var bound := Some(LimitPrice(order));
      ghost var whole := Greedy(order, bound, Abs().view.On(opposite), sequence);
      ghost var start, gain := book.State(), whole.taker.filled - order.filled;
      MatchStarts(order, bound, start, opposite, sequence);
      while true
        invariant Valid() && book.index.Keys <= old(book.index.Keys)
        invariant old(IsLive()) ==> IsLive()
        invariant taker.side == order.side && taker.price == order.price && taker.id == order.id
        invariant InProgress(whole, fills, taker, bound, start, gain, book.State(), opposite, sequence)
        decreases |Abs().view.On(opposite)|, taker.Remaining()
      {
        FrontOf(book.State(), opposite);
        MatchTurn(whole, fills, taker, bound, start, gain, book.State(), opposite, sequence);
        if taker.Remaining() <= 0 {
          break;
        }
        var makerKey, makerPrice;
        match taker.side {
          case Bid =>
            var price := book.BestAsk();
            if price.None? {
              break;
            }
            if price.value > (if taker.price.Some? then taker.price.value else 0) {
              break;
            }
            var key := book.BestAskFront();
            if key.None? {
              break;
            }
            makerKey, makerPrice := key.value, price.value;
          case Ask =>
            var price := book.BestBid();
            if price.None? {
              break;
            }
            if price.value < (if taker.price.Some? then taker.price.value else DECIMAL_MAX) {
              break;
            }
            var key := book.BestBidFront();
            if key.None? {
              break;
            }
            makerKey, makerPrice := key.value, price.value;
        }
        FillKeeps(taker);
        taker, fills := ExecuteFill(taker, makerKey, makerPrice, fills);
      }
    }

    /** Sweep the opposite side for a market order: no price check. */
    method SweepBook(order: Order) returns (taker: Order, fills: seq<Fill>)
      requires Valid()
      modifies this`sequence, book
      ensures Valid() && book.index.Keys <= old(book.index.Keys)
      ensures old(IsLive()) ==> IsLive()
      ensures var opposite := order.side.Opposite();
              var g := Greedy(order, None, old(Abs()).view.On(opposite), old(sequence));
              && taker == g.taker && fills == g.fills && sequence == g.sequence
              && Abs().view == old(Abs()).view.With(opposite, g.makers)
      ensures book.State() == Drain(old(book.State()), order.side.Opposite(), taker.filled - order.filled)
    {
      hide Sound, AllIndexed, AllUnfilled, AllLive, Best, ViewOf, Greedy, InProgress, Drain, FillFront, HasFront,
           ApplyFill, Min;
      taker, fills := order, [];
      ghost var opposite := order.side.Opposite();
      ghost var whole := Greedy(order, None, Abs().view.On(opposite), sequence);
      ghost var start, gain := book.State(), whole.taker.filled - order.filled;
      MatchStarts(order, None, start, opposite, sequence);
      while true
        invariant Valid() && book.index.Keys <= old(book.index.Keys)
        invariant old(IsLive()) ==> IsLive()
        invariant taker.side == order.side && taker.id == order.id
        invariant InProgress(whole, fills, taker, None, start, gain, book.State(), opposite, sequence)
        decreases |Abs().view.On(opposite)|, taker.Remaining()
      {
        FrontOf(book.State(), opposite);
        MatchTurn(whole, fills, taker, None, start, gain, book.State(), opposite, sequence);
        if taker.Remaining() <= 0 {
          break;
        }
        var makerKey, makerPrice;
        match taker.side {
          case Bid =>
            var key := book.BestAskFront();
            if key.None? {
              break;
            }
            var price := book.BestAsk();
            makerKey, makerPrice := key.value, if price.Some? then price.value else 0;
          case Ask =>
            var key := book.BestBidFront();
            if key.None? {
              break;
            }
            var price := book.BestBid();
            makerKey, makerPrice := key.value, if price.Some? then price.value else 0;
        }
        FillKeeps(taker);
        taker, fills := ExecuteFill(taker, makerKey, makerPrice, fills);
      }
    }

    /** One fill between the taker and the front maker at the maker's price. */
    method ExecuteFill(taker: Order, makerKey: nat, makerPrice: Price, fills: seq<Fill>)
      returns (taker': Order, fills': seq<Fill>)
      requires Valid()
      requires makerKey in book.orders.entries ==>
                 && var opposite := taker.side.Opposite();
                 && IsFront(opposite, book.State().On(opposite), makerKey)
                 && makerPrice == Best(opposite, book.State().On(opposite).Keys)
      modifies this`sequence, book
      ensures Valid() && book.index.Keys <= old(book.index.Keys)
      ensures old(IsLive()) ==> IsLive()
      ensures makerKey !in old(book.orders.entries) || taker.Remaining() <= 0 ==>
                book.State() == old(book.State()) && Abs() == old(Abs()) && taker' == taker && fills' == fills
      ensures makerKey in old(book.orders.entries) && 0 < taker.Remaining() ==>
                var opposite := taker.side.Opposite();
                var makers := old(Abs()).view.On(opposite);
                && makers != []
                && var q := Min(taker.Remaining(), makers[0].Remaining());
                && 0 < q
                && HasFront(old(book.State()), opposite)
                && book.State() == FillFront(old(book.State()), opposite, q)
                && sequence == old(sequence) + 1
                && taker' == ApplyFill(taker, q)
                && taker' == taker.(filled := taker.filled + q, status := if taker.quantity <= taker.filled + q then Filled else PartiallyFilled)
                && fills' == fills + [Fill(makers[0].id, taker.id, makers[0].PriceOrZero(), q, sequence)]
                && Abs().view == old(Abs()).view.With(opposite,
                     if makers[0].Remaining() <= q then makers[1..] else [ApplyFill(makers[0], q)] + makers[1..])
    {
      hide Sound, AllIndexed, AllUnfilled, AllLive, Best, Flat;
      var found := book.GetOrder(makerKey);
      if found.None? {
        return taker, fills;
      }
      var maker := found.value;
      Unfilled(book.State(), makerKey);
      var q := Min(taker.Remaining(), maker.Remaining());
      if q <= 0 {
        return taker, fills;
      }
      ghost var before := book.State();
      ghost var opposite := taker.side.Opposite();
      FrontOf(before, opposite);
      FillFrontIs(before, opposite, q);
      sequence := sequence + 1;
      var seqNo := sequence;
      var amended := maker.(filled := maker.filled + q);
      amended := amended.(status := if amended.Remaining() <= 0 then Filled else PartiallyFilled);
      book.SetOrder(makerKey, amended);
      taker' := taker.(filled := taker.filled + q);
      taker' := taker'.(status := if taker'.Remaining() <= 0 then Filled else PartiallyFilled);
      fills' := fills + [Fill(maker.id, taker.id, makerPrice, q, seqNo)];
      if amended.Remaining() <= 0 {
        var makerSide := taker.side.Opposite();
        book.PopFront(makerSide, makerPrice);
      }
    }
  }

  lemma FillKeeps(o: Order)
    ensures forall q: Quantity ::
              var o' := ApplyFill(o, q);
              o'.id == o.id && o'.side == o.side && o'.price == o.price && o'.filled == o.filled + q && o'.Remaining() == o.Remaining() - q
  {
  }

  lemma EmptyBookView()
    ensures Live(EmptyBook) && ViewOf(EmptyBook) == EmptyView
  {
  }

  lemma Unfilled(b: Book, k: nat)
    requires Matchable(b) && k in b.slab.entries
    ensures 0 < b.slab.entries[k].Remaining()
  {
  }

  lemma InsertKeepsUnfilled(b: Book, o: Order)
    requires Matchable(b) && o.price.Some? && 0 < o.Remaining()
    ensures AllUnfilled(Insert(b, o).slab.entries)
  {
    PutIsValid(b.slab, o);
  }

  lemma RemoveKeepsUnfilled(b: Book, k: nat)
    requires Matchable(b) && k in b.slab.entries && b.slab.entries[k].price.Some?
    ensures AllUnfilled(Remove(b, k).slab.entries)
  {
  }

  /** Filling an order further keeps a book of resting orders one, once the order is removed if it
      is exhausted. */
  lemma AmendKeeps(b: Book, k: nat, o: Order, q: Quantity)
    requires Matchable(b) && k in b.slab.entries
    requires 0 < q && o == ApplyFill(b.slab.entries[k], q)
    ensures AllUnfilled(b.slab.entries - {k})
    ensures 0 < o.Remaining() ==> AllUnfilled(b.slab.entries[k := o])
    ensures AllLive(b.slab.entries) ==> AllLive(b.slab.entries - {k})
    ensures AllLive(b.slab.entries) && 0 < o.Remaining() ==> AllLive(b.slab.entries[k := o])
  {
  }

  /** The front of a side, in the terms the loops use. */
  lemma FrontOf(b: Book, side: Side)
    requires Sound(b)
    ensures b.On(side) == map[] <==> ViewOf(b).On(side) == []
    ensures b.On(side) != map[] ==>
              var p := Best(side, b.On(side).Keys);
              && b.On(side)[p] != []
              && var k := b.On(side)[p][0];
              && IsFront(side, b.On(side), k)
              && k in b.slab.entries
              && ViewOf(b).On(side)[0] == b.slab.entries[k]
              && b.slab.entries[k].price == Some(p)
              && b.slab.entries[k].side == side
  {
    FrontIsFirst(b.slab.entries, side, b.On(side));
  }

  /** Popping the front after amending it removes the head of the side. */
  lemma PopAmended(b: Book, side: Side, k: nat, o: Order)
    requires Sound(b) && IsFront(side, b.On(side), k) && k in b.slab.entries
    requires SamePlace(o, b.slab.entries[k]) && o.side == side
    ensures var p := Best(side, b.On(side).Keys);
            var popped := BookModel.PopFront(Amend(b, k, o), side, p);
            && Sound(popped)
            && (WellFormed(b) ==> WellFormed(popped))
            && popped.slab.entries == b.slab.entries - {k}
            && popped.index.Keys <= b.index.Keys
            && SideOrders(b, side) != []
            && ViewOf(popped) == ViewOf(b).With(side, ViewOf(b).On(side)[1..])
  {
    hide Sound, AllIndexed, Best;
    var p := Best(side, b.On(side).Keys);
    AmendFront(b, k, o);
    PopFrontRemoves(Amend(b, k, o), side, p);
    RemoveFront(Amend(b, k, o), side, k);
  }

  lemma InsertKeepsLive(b: Book, o: Order)
    requires Live(b) && RestingOrder(o) && o.id !in b.index
    ensures Live(Insert(b, o))
  {
    assert b.slab.Valid();
    hide Sound, AllIndexed, Flat, ViewOf, Rest;
    InsertRefines(b, o);
    PutLive(b, o);
  }

  lemma PutLive(b: Book, o: Order)
    requires b.slab.Valid() && AllLive(b.slab.entries) && RestingOrder(o) && o.price.Some?
    ensures AllLive(Insert(b, o).slab.entries)
  {
    PutIsValid(b.slab, o);
    hide RestingOrder;
    assert Insert(b, o).slab == b.slab.Put(o);
  }

  /** `whole` is what has been done so far followed by the greedy match of what is left. */
  ghost predicate Continues(whole: Outcome, done: seq<Fill>, taker: Order, bound: Option<Price>, makers: seq<Order>, sequence: nat) {
    var g := Greedy(taker, bound, makers, sequence);
    whole == g.(fills := done + g.fills)
  }

  lemma StartGreedy(taker: Order, bound: Option<Price>, makers: seq<Order>, sequence: nat)
    ensures Continues(Greedy(taker, bound, makers, sequence), [], taker, bound, makers, sequence)
  {
    var g := Greedy(taker, bound, makers, sequence);
    assert [] + g.fills == g.fills;
  }

  /** One turn of the loop: either nothing is left to do, or one fill leads to the next state. */
  lemma ContinueGreedy(whole: Outcome, done: seq<Fill>, taker: Order, bound: Option<Price>, makers: seq<Order>, sequence: nat)
    requires Continues(whole, done, taker, bound, makers, sequence)
    ensures taker.Remaining() <= 0 || makers == [] || !Eligible(taker.side, bound, makers[0].PriceOrZero()) ==>
              whole == Outcome(taker, makers, done, sequence)
    ensures 0 < taker.Remaining() && makers != [] && Eligible(taker.side, bound, makers[0].PriceOrZero()) ==>
              var q := Min(taker.Remaining(), makers[0].Remaining());
              Continues(whole, done + [Fill(makers[0].id, taker.id, makers[0].PriceOrZero(), q, sequence + 1)],
                        ApplyFill(taker, q), bound,
                        if makers[0].Remaining() <= q then makers[1..] else [ApplyFill(makers[0], q)] + makers[1..],
                        sequence + 1)
  {
    var g := Greedy(taker, bound, makers, sequence);
    if 0 < taker.Remaining() && makers != [] && Eligible(taker.side, bound, makers[0].PriceOrZero()) {
      var q := Min(taker.Remaining(), makers[0].Remaining());
      var fill := Fill(makers[0].id, taker.id, makers[0].PriceOrZero(), q, sequence + 1);
      assert done + g.fills == (done + [fill]) + g.fills[1..];
    } else {
      assert done + g.fills == done;
    }
  }

  /** Where a matching loop stands: on the flat side, on the concrete book, and everywhere else. */
  ghost predicate InProgress(whole: Outcome, done: seq<Fill>, taker: Order, bound: Option<Price>,
                             start: Book, gain: Quantity, b: Book, side: Side, sequence: nat)
    requires Sound(start) && Sound(b)
  {
    && Continues(whole, done, taker, bound, ViewOf(b).On(side), sequence)
    && Drained(start, gain, b, whole.taker.filled - taker.filled, side)
    && ViewOf(b) == ViewOf(start).With(side, ViewOf(b).On(side))
  }

  lemma MatchStarts(taker: Order, bound: Option<Price>, b: Book, side: Side, sequence: nat)
    requires Sound(b)
    ensures var whole := Greedy(taker, bound, ViewOf(b).On(side), sequence);
            InProgress(whole, [], taker, bound, b, whole.taker.filled - taker.filled, b, side, sequence)
  {
    hide Sound, ViewOf, Greedy, Continues, Drained;
    var whole := Greedy(taker, bound, ViewOf(b).On(side), sequence);
    StartGreedy(taker, bound, ViewOf(b).On(side), sequence);
    DrainStarts(b, whole.taker.filled - taker.filled, side);
  }

  /** One turn of a matching loop: either it is done, or the fill of the front maker leads on. */
  lemma MatchTurn(whole: Outcome, done: seq<Fill>, taker: Order, bound: Option<Price>,
                  start: Book, gain: Quantity, b: Book, side: Side, sequence: nat)
    requires Sound(start) && Matchable(b) && InProgress(whole, done, taker, bound, start, gain, b, side, sequence)
    ensures var makers := ViewOf(b).On(side);
            if taker.Remaining() <= 0 || makers == [] || !Eligible(taker.side, bound, makers[0].PriceOrZero())
            then && whole == Outcome(taker, makers, done, sequence)
                 && ViewOf(b) == ViewOf(start).With(side, makers)
                 && b == Drain(start, side, gain)
            else var q := Min(taker.Remaining(), makers[0].Remaining());
                 && 0 < q && HasFront(b, side)
                 && var f := FillFront(b, side, q);
                 && Sound(f)
                 && InProgress(whole, done + [Fill(makers[0].id, taker.id, makers[0].PriceOrZero(), q, sequence + 1)],
                               ApplyFill(taker, q), bound, start, gain, f, side, sequence + 1)
                 && |ViewOf(f).On(side)| <= |makers|
  {
    hide Sound, AllUnfilled, Greedy, Drained, FillFront, ViewOf, Drain, Best;
    var makers := ViewOf(b).On(side);
    ContinueGreedy(whole, done, taker, bound, makers, sequence);
    if taker.Remaining() <= 0 || makers == [] || !Eligible(taker.side, bound, makers[0].PriceOrZero()) {
      DrainEnds(start, gain, b, side);
    } else {
      SideUnfilled(b, side);
      TakerGains(taker, bound, makers, sequence);
      var q := Min(taker.Remaining(), makers[0].Remaining());
      assert 0 < makers[0].Remaining() && q <= whole.taker.filled - taker.filled;
      hide Continues;
      FillFrontIs(b, side, q);
      DrainStep(start, gain, b, whole.taker.filled - taker.filled, side, q);
    }
  }

  lemma SideUnfilled(b: Book, side: Side)
    requires Matchable(b)
    ensures forall i :: 0 <= i < |ViewOf(b).On(side)| ==> 0 < ViewOf(b).On(side)[i].Remaining()
  {
    FlatMembers(b.slab.entries, side, b.On(side));
    hide SideOk, Flat;
  }

  // ---------- The concrete book and its view ----------

  /** Filling the front order changes or drops the head of its side, and nothing else. */
  lemma FillFrontIs(b: Book, side: Side, q: Quantity)
    requires Matchable(b) && ViewOf(b).On(side) != []
    requires 0 < q <= ViewOf(b).On(side)[0].Remaining()
    ensures HasFront(b, side)
    ensures var makers, f := ViewOf(b).On(side), FillFront(b, side, q);
            && makers[0] == b.slab.entries[FrontKey(b, side)]
            && Matchable(f) && (Live(b) ==> Live(f)) && f.index.Keys <= b.index.Keys
            && ViewOf(f) == ViewOf(b).With(side,
                 if makers[0].Remaining() <= q then makers[1..] else [ApplyFill(makers[0], q)] + makers[1..])
  {
    hide Sound, AllIndexed, AllUnfilled, AllLive, Best, Flat;
    FrontOf(b, side);
    var k := FrontKey(b, side);
    var o := ApplyFill(b.slab.entries[k], q);
    AmendFront(b, k, o);
    AmendKeeps(b, k, o, q);
    if o.Remaining() <= 0 {
      PopAmended(b, side, k, o);
    }
  }

  // ---------- Which keys an order frees ----------

  /** Filling the front either keeps every key or frees exactly the front one. */
  lemma FillFrontKeys(b: Book, side: Side, q: Quantity)
    requires Matchable(b) && ViewOf(b).On(side) != []
    requires 0 < q <= ViewOf(b).On(side)[0].Remaining()
    ensures HasFront(b, side)
    ensures var f, ks := FillFront(b, side, q), Flatten(side, b.On(side));
            && ks != [] && FrontKey(b, side) == ks[0]
            && f.slab.capacity == b.slab.capacity
            && (if ViewOf(b).On(side)[0].Remaining() <= q
                then f.slab.free == [ks[0]] + b.slab.free && Flatten(side, f.On(side)) == ks[1..]
                else f.slab.free == b.slab.free && f.On(side) == b.On(side))
  {
    FrontOf(b, side);
    SideOkKeysIn(b.slab.entries, side, b.On(side));
    hide Sound, AllUnfilled, SideOk, Flat, ViewOf, Best;
    FlattenFront(side, b.On(side));
    FlattenPop(side, b.On(side));
    hide Flatten;
    var k := FrontKey(b, side);
    PopAmendedKeys(b, side, k, ApplyFill(b.slab.entries[k], q));
  }

  lemma PopAmendedKeys(b: Book, side: Side, k: nat, o: Order)
    requires HasFront(b, side) && k == FrontKey(b, side) && k in b.slab.entries
    ensures var m, p := b.On(side), Best(side, b.On(side).Keys);
            var popped := BookModel.PopFront(Amend(b, k, o), side, p);
            && popped.slab == Amend(b, k, o).slab.Take(k)
            && popped.On(side) == SetQueue(m, p, m[p][1..])
  {
    hide Best, SetQueue;
  }

  /** The keys of the exhausted makers come free from the front on, the last one on top; the others
      keep their places. */
  lemma {:induction false} DrainFrees(b: Book, side: Side, t: Quantity)
    requires Matchable(b)
    ensures var d, ks, n := Drain(b, side, t), Flatten(side, b.On(side)), Exhausted(ViewOf(b).On(side), t);
            && n <= |ks|
            && d.slab.capacity == b.slab.capacity
            && |d.slab.free| == n + |b.slab.free| && d.slab.free[n..] == b.slab.free
            && (forall i :: 0 <= i < n ==> d.slab.free[i] == ks[n - 1 - i])
            && Flatten(side, d.On(side)) == ks[n..]
    decreases |ViewOf(b).On(side)|
  {
    hide Sound, AllIndexed, AllUnfilled, AllLive, ViewOf, HasFront, FillFront, Flatten;
    var makers, ks := ViewOf(b).On(side), Flatten(side, b.On(side));
    if 0 < t && makers != [] {
      SideUnfilled(b, side);
      var q := Min(t, makers[0].Remaining());
      FillFrontIs(b, side, q);
      FillFrontKeys(b, side, q);
      var f := FillFront(b, side, q);
      if makers[0].Remaining() <= q {
        DrainFrees(f, side, t - q);
        var d, n := Drain(b, side, t), Exhausted(makers, t);
        assert d.slab.free[n - 1..] == [ks[0]] + b.slab.free;
        assert d.slab.free[n - 1] == d.slab.free[n - 1..][0] && d.slab.free[n..] == d.slab.free[n - 1..][1..];
      }
    } else {
      FrontOf(b, side);
    }
  }

  /** Draining `t` from the side leaves it with `makers`, and everything else as it was. */
  ghost predicate DrainsTo(b: Book, side: Side, t: Quantity, makers: seq<Order>)
    requires Sound(b)
  {
    var d := Drain(b, side, t);
    && Matchable(d) && (Live(b) ==> Live(d)) && d.index.Keys <= b.index.Keys
    && ViewOf(d) == ViewOf(b).With(side, makers)
  }

  lemma DrainsNothing(b: Book, side: Side)
    requires Matchable(b)
    ensures DrainsTo(b, side, 0, ViewOf(b).On(side))
  {
    hide Sound, AllUnfilled, ViewOf;
  }

  lemma DrainsMore(b: Book, side: Side, q: Quantity, t: Quantity, makers: seq<Order>)
    requires Matchable(b) && ViewOf(b).On(side) != []
    requires 0 < q <= t && q <= ViewOf(b).On(side)[0].Remaining()
    requires q == t || q == ViewOf(b).On(side)[0].Remaining()
    requires HasFront(b, side) && Sound(FillFront(b, side, q)) && DrainsTo(FillFront(b, side, q), side, t - q, makers)
    ensures DrainsTo(b, side, t, makers)
  {
    hide Sound, AllIndexed, AllUnfilled, AllLive, ViewOf, Flat, HasFront, FillFront;
    FillFrontIs(b, side, q);
    assert Drain(b, side, t) == Drain(FillFront(b, side, q), side, t - q);
  }

  /** Draining what a taker gains leaves the greedy match's makers. */
  lemma {:induction false} DrainIsGreedy(b: Book, side: Side, taker: Order, bound: Option<Price>, sequence: nat)
    requires Matchable(b)
    ensures var g := Greedy(taker, bound, ViewOf(b).On(side), sequence);
            DrainsTo(b, side, g.taker.filled - taker.filled, g.makers)
    decreases |ViewOf(b).On(side)|
  {
    hide Sound, AllIndexed, AllUnfilled, AllLive, Flat, ViewOf, HasFront, FillFront, Drain, DrainsTo;
    var makers := ViewOf(b).On(side);
    if 0 < taker.Remaining() && makers != [] && Eligible(taker.side, bound, makers[0].PriceOrZero()) {
      SideUnfilled(b, side);
      TakerGains(taker, bound, makers, sequence);
      var q := Min(taker.Remaining(), makers[0].Remaining());
      FillFrontIs(b, side, q);
      var f := FillFront(b, side, q);
      var g := Greedy(taker, bound, makers, sequence);
      if makers[0].Remaining() <= q {
        DrainIsGreedy(f, side, ApplyFill(taker, q), bound, sequence + 1);
      } else {
        DrainsNothing(f, side);
      }
      hide Greedy, DrainsTo;
      DrainsMore(b, side, q, g.taker.filled - taker.filled, g.makers);
    } else {
      DrainsNothing(b, side);
    }
  }

  /** The concrete book after an order, seen flat, is the flat book after the order. */
  lemma BookAfterIsProcess(b: Book, o: Order, sequence: nat)
    requires Matchable(b)
    ensures var after := BookAfter(b, o);
            && Matchable(after)
            && ViewOf(after) == Process(Engine(ViewOf(b), sequence), o).engine.view
            && (Live(b) && Incoming(o) && o.id !in b.index ==> Live(after))
  {
    hide Sound, AllIndexed, AllUnfilled, AllLive, Greedy, Flat, Drain, ViewOf, Rest;
    if 0 < o.quantity {
      var opposite := o.side.Opposite();
      var makers := ViewOf(b).On(opposite);
      DrainIsGreedy(b, opposite, o, BoundOf(o), sequence);
      TakerIgnoresSequence(o, BoundOf(o), makers, sequence, 0);
      GreedyTaker(o, BoundOf(o), makers, sequence);
      var taker := TakerAfter(ViewOf(b), o);
      var drained := Drain(b, opposite, taker.filled - o.filled);
      if o.orderType.Limit? && taker.price.Some? && 0 < taker.Remaining() {
        InsertRefines(drained, taker);
        InsertKeepsUnfilled(drained, taker);
        if Live(b) && Incoming(o) && o.id !in b.index {
          SideUnfilled(b, opposite);
          InsertKeepsLive(drained, taker);
        }
      }
    }
  }

  /** What matching does to the taker itself: only its fill and status change, and an incoming order
      that is not exhausted can rest. */
  lemma {:induction false} GreedyTaker(taker: Order, bound: Option<Price>, makers: seq<Order>, sequence: nat)
    ensures var t := Greedy(taker, bound, makers, sequence).taker;
            && t == taker.(filled := t.filled, status := t.status)
            && (0 <= taker.filled && taker.status == (if taker.filled == 0 then Open else PartiallyFilled)
                && 0 < t.Remaining() && (forall i :: 0 <= i < |makers| ==> 0 < makers[i].Remaining()) ==>
                  taker.filled <= t.filled && t.status == (if t.filled == 0 then Open else PartiallyFilled))
    decreases |makers|
  {
    if 0 < taker.Remaining() && makers != [] && Eligible(taker.side, bound, makers[0].PriceOrZero()) {
      var q := Min(taker.Remaining(), makers[0].Remaining());
      if makers[0].Remaining() <= q {
        assert forall i :: 0 <= i < |makers[1..]| ==> makers[1..][i] == makers[i + 1];
        GreedyTaker(ApplyFill(taker, q), bound, makers[1..], sequence + 1);
      }
    }
  }

  /** Cancelling in the book and cancelling in the view agree. */
  lemma CancelViews(b: Book, id: OrderId)
    requires Live(b)
    ensures ViewOf(b).Contains(id) <==> id in b.index
    ensures id in b.index ==>
              var k := b.index[id];
              && k in b.slab.entries
              && var o := b.slab.entries[k];
              && o.price.Some? && !o.IsComplete()
              && Live(Remove(b, k))
              && ViewOf(b).With(o.side, Without(ViewOf(b).On(o.side), id))
                 == View(Without(ViewOf(b).bids, id), Without(ViewOf(b).asks, id))
  {
    hide Flat, Without, HasId;
    ViewIds(b, id);
    if id in b.index {
      IndexNames(b, id);
      var k := b.index[id];
      var other := b.slab.entries[k].side.Opposite();
      SideIds(b, other, id);
      WithoutMissing(SideOrders(b, other), id);
      RemoveRefines(b, k);
    }
  }

  /** An order that can come next is not in the index. */
  lemma NotInIndex(b: Book, id: OrderId)
    requires WellFormed(b) && !ViewOf(b).Contains(id)
    ensures id !in b.index
  {
    ViewIds(b, id);
  }

  lemma EngineIndex(engine: MatchingEngine, id: OrderId)
    requires engine.IsLive() && !engine.Abs().view.Contains(id)
    ensures id !in engine.book.index
  {
    NotInIndex(engine.book.State(), id);
  }
}
