/** Laws of the engine that relate different orders: splitting a market order, replacing it by a
    limit order and a cancel, and mirroring the two sides. */
module Laws {
  import opened Types
  import opened PriceTime
  import opened Waterfall
  import opened ProcessLaws
  import opened Conservation

  // ---------- Splitting a market order ----------

  /** How much of `q`, poured over `s`, lands on the order named `id`. */
  function Poured(s: seq<Order>, q: int, id: OrderId): int {
    if s == [] || q <= 0 then 0
    else (if s[0].id == id then Min(q, s[0].Remaining()) else 0) + Poured(s[1..], q - s[0].Remaining(), id)
  }

  lemma {:induction false} ConsumeAdds(side: Side, s: seq<Order>, a: int, b: int, id: OrderId)
    requires AllResting(side, s) && 0 <= a && 0 <= b
    ensures Consume(Consume(s, a), b) == Consume(s, a + b)
    ensures Poured(s, a, id) + Poured(Consume(s, a), b, id) == Poured(s, a + b, id)
  {
    if s != [] && 0 < a {
      assert s == [s[0]] + s[1..];
      if s[0].Remaining() <= a {
        ConsumeAdds(side, s[1..], a - s[0].Remaining(), b, id);
      } else {
        ConsumePartly(s[0], s[1..], a, b, id);
      }
    }
  }

  /** The first order is large enough for `a`. */
  lemma ConsumePartly(first: Order, tail: seq<Order>, a: int, b: int, id: OrderId)
    requires 0 < a < first.Remaining() && 0 <= b
    ensures var s, c := [first] + tail, [ApplyFill(first, a)] + tail;
            && Consume(s, a) == c
            && Consume(c, b) == Consume(s, a + b)
            && Poured(s, a, id) + Poured(c, b, id) == Poured(s, a + b, id)
  {
    var s, c := [first] + tail, [ApplyFill(first, a)] + tail;
    assert s[1..] == tail && c[1..] == tail;
    assert ApplyFill(ApplyFill(first, a), b) == ApplyFill(first, a + b);
  }

  lemma {:induction false} GreedyPoured(taker: Order, bound: Option<Price>, makers: seq<Order>, sequence: nat, id: OrderId)
    requires LiveSide(taker.side.Opposite(), makers) && 0 <= taker.Remaining() && id != taker.id
    ensures FilledBy(Greedy(taker, bound, makers, sequence).fills, id) == Poured(makers, Traded(taker, bound, makers), id)
    decreases |makers|
  {
    if makers != [] {
      ReachOfFront(taker.side, bound, makers);
      FrontRests(taker.side.Opposite(), makers);
      hide LiveSide;
      if 0 < taker.Remaining() && Eligible(taker.side, bound, makers[0].PriceOrZero()) {
        var q := Min(taker.Remaining(), makers[0].Remaining());
        var g := Greedy(taker, bound, makers, sequence);
        if makers[0].Remaining() <= q {
          GreedyPoured(ApplyFill(taker, q), bound, makers[1..], sequence + 1, id);
          assert g.fills[1..] == Greedy(ApplyFill(taker, q), bound, makers[1..], sequence + 1).fills;
        } else {
          assert g.fills[1..] == [];
        }
      }
    }
  }

  /** A market order of `a` followed by one of `b` does to the book, and to every maker's fills,
      what one market order of `a + b` does. */
  lemma MarketOrdersAdd(e: Engine, first: Order, second: Order, whole: Order, id: OrderId)
    requires LiveView(e.view)
    requires Incoming(first) && Incoming(second) && Incoming(whole)
    requires first.orderType.Market? && second.orderType.Market? && whole.orderType.Market?
    requires first.side == second.side == whole.side
    requires 0 < first.quantity && 0 < second.quantity && whole.quantity == first.quantity + second.quantity
    requires !e.view.Contains(first.id)
    ensures var p1 := Process(e, first);
            var p2 := Process(p1.engine, second);
            var p := Process(e, whole);
            && p2.engine.view == p.engine.view
            && FillTotal(p1.executed) + FillTotal(p2.executed) == FillTotal(p.executed)
            && (id != first.id && id != second.id && id != whole.id ==>
                  FilledBy(p1.executed + p2.executed, id) == FilledBy(p.executed, id))
  {
    hide LiveView, Process, Consume, Poured, PoursOver, FilledBy;
    var side := first.side.Opposite();
    var s := e.view.On(side);
    LiveParts(e.view, side);
    var e1 := Process(e, first).engine;
    ProcessKeepsLive(e, first);
    LiveParts(e1.view, side);
    ProcessShape(e, first);
    ProcessShape(e, whole);
    ProcessShape(e1, second);
    var a, c := TradedBy(e, first), TradedBy(e, whole);
    TotalOfConsume(side, s, a);
    var b := TradedBy(e1, second);
    assert e1.view.On(side) == Consume(s, a);
    TotalPositive(side, s);
    assert a + b == c;
    ConsumeAdds(side, s, a, b, id);
    FilledByConcat(Process(e, first).executed, Process(e1, second).executed, id);
    if id != first.id && id != second.id && id != whole.id {
      ExecutedPoured(e, first, id);
      ExecutedPoured(e1, second, id);
      ExecutedPoured(e, whole, id);
    }
  }

  lemma TotalPositive(side: Side, s: seq<Order>)
    requires AllResting(side, s)
    ensures 0 <= Total(s)
  {
    DepthNonNegative(side, s, 0);
  }

  lemma ExecutedPoured(e: Engine, o: Order, id: OrderId)
    requires LiveView(e.view) && Incoming(o) && 0 < o.quantity && id != o.id
    ensures FilledBy(Process(e, o).executed, id) == Poured(e.view.On(o.side.Opposite()), TradedBy(e, o), id)
  {
    GreedyPoured(o, BoundOf(o), e.view.On(o.side.Opposite()), e.sequence, id);
  }

  // ---------- A market order is a limit order past everything, then a cancel ----------

  lemma {:induction false} GreedyUnbounded(taker: Order, taker': Order, bound: Option<Price>, makers: seq<Order>, sequence: nat)
    requires taker.id == taker'.id && taker.side == taker'.side
    requires taker.quantity == taker'.quantity && taker.filled == taker'.filled
    requires forall i :: 0 <= i < |makers| ==> Eligible(taker.side, bound, makers[i].PriceOrZero())
    ensures var g, g' := Greedy(taker, None, makers, sequence), Greedy(taker', bound, makers, sequence);
            g.fills == g'.fills && g.makers == g'.makers && g.sequence == g'.sequence
    decreases |makers|
  {
    if 0 < taker.Remaining() && makers != [] {
      var q := Min(taker.Remaining(), makers[0].Remaining());
      if makers[0].Remaining() <= q {
        GreedyUnbounded(ApplyFill(taker, q), ApplyFill(taker', q), bound, makers[1..], sequence + 1);
      }
    }
  }

  lemma {:induction false} CancelUndoesRest(side: Side, s: seq<Order>, o: Order)
    requires !HasId(s, o.id)
    ensures Without(Rest(side, s, o), o.id) == s
  {
    if s == [] || RankOf(side, o) < RankOf(side, s[0]) {
      assert Rest(side, s, o)[1..] == s;
      WithoutMissing(s, o.id);
    } else {
      assert !HasId(s[1..], o.id);
      assert Rest(side, s, o)[1..] == Rest(side, s[1..], o);
      CancelUndoesRest(side, s[1..], o);
    }
  }

  /** A market order leaves the same book and the same fills as a limit order priced past every
      opposite order, followed by a cancel of that order. */
  lemma MarketIsLimitThenCancel(e: Engine, market: Order, limit: Order)
    requires LiveView(e.view) && Incoming(market) && 0 < market.quantity
    requires market.orderType.Market? && !e.view.Contains(market.id)
    requires limit.price.Some? && limit == market.(orderType := Limit, price := limit.price)
    requires forall i :: 0 <= i < |e.view.On(market.side.Opposite())| ==>
               Eligible(market.side, limit.price, e.view.On(market.side.Opposite())[i].PriceOrZero())
    ensures Process(e, market).executed == Process(e, limit).executed
    ensures Process(e, market).engine == Cancel(Process(e, limit).engine, limit.id).0
  {
    var opposite := market.side.Opposite();
    GreedyUnbounded(market, limit, limit.price, e.view.On(opposite), e.sequence);
    ProcessShape(e, limit);
    var p, m := Process(e, limit), Process(e, market);
    CancelAfterLimit(e, limit);
  }

  /** Cancelling an order just processed leaves only what matching did to the opposite side. */
  lemma CancelAfterLimit(e: Engine, o: Order)
    requires LiveView(e.view) && Incoming(o) && 0 < o.quantity && o.orderType.Limit? && o.price.Some? && !e.view.Contains(o.id)
    ensures var p := Process(e, o);
            Cancel(p.engine, o.id).0 == Engine(e.view.With(o.side.Opposite(), Matched(e, o).makers), p.engine.sequence)
  {
    hide LiveView, Greedy, Consume, PoursOver, Rest, Without, HasId;
    var opposite := o.side.Opposite();
    var t := TradedBy(e, o);
    var own, left := e.view.On(o.side), Matched(e, o).makers;
    var p := Process(e, o);
    ProcessShape(e, o);
    LiveParts(e.view, opposite);
    LiveParts(e.view, o.side);
    FreshToSide(e.view, o.id, o.side);
    FreshToSide(e.view, o.id, opposite);
    HasIdInConsume(opposite, e.view.On(opposite), t, o.id);
    WithoutMissing(Consume(e.view.On(opposite), t), o.id);
    assert left == Consume(e.view.On(opposite), t) by {
      GreedyConsumes(o, BoundOf(o), e.view.On(opposite), e.sequence);
    }
    if Rests(o, t) {
      CancelUndoesRest(o.side, own, AfterTrading(o, t));
      RestMembers(o.side, own, AfterTrading(o, t));
      assert HasId(p.engine.view.On(o.side), o.id);
    } else {
      WithoutMissing(own, o.id);
    }
  }

  // ---------- Mirror symmetry ----------

  function Mirror(o: Order): Order {
    o.(side := o.side.Opposite(), price := if o.price.Some? then Some(-o.price.value) else None)
  }

  function MirrorFill(f: Fill): Fill {
    f.(price := -f.price)
  }

  function MirrorAll(s: seq<Order>): seq<Order> {
    if s == [] then [] else [Mirror(s[0])] + MirrorAll(s[1..])
  }

  function MirrorFills(fills: seq<Fill>): seq<Fill> {
    if fills == [] then [] else [MirrorFill(fills[0])] + MirrorFills(fills[1..])
  }

  function MirrorView(v: View): View {
    View(MirrorAll(v.asks), MirrorAll(v.bids))
  }

  function MirrorEngine(e: Engine): Engine {
    e.(view := MirrorView(e.view))
  }

  function MirrorProcessed(p: Processed): Processed {
    Processed(MirrorEngine(p.engine),
              if p.result.Ok? && p.result.value.Fills? then Ok(Fills(MirrorFills(p.result.value.fills))) else p.result,
              MirrorFills(p.executed))
  }

  function MirrorBound(bound: Option<Price>): Option<Price> {
    if bound.Some? then Some(-bound.value) else None
  }

  function MirrorOutcome(g: Outcome): Outcome {
    Outcome(Mirror(g.taker), MirrorAll(g.makers), MirrorFills(g.fills), g.sequence)
  }

  lemma MirrorReach(side: Side, bound: Option<Price>, maker: Order)
    ensures Eligible(side.Opposite(), MirrorBound(bound), Mirror(maker).PriceOrZero()) <==> Eligible(side, bound, maker.PriceOrZero())
    ensures Mirror(maker).PriceOrZero() == -maker.PriceOrZero()
  {
  }

  lemma MirrorConsOutcome(fill: Fill, rest: Outcome)
    ensures MirrorOutcome(rest.(fills := [fill] + rest.fills))
         == MirrorOutcome(rest).(fills := [MirrorFill(fill)] + MirrorFills(rest.fills))
  {
    assert ([fill] + rest.fills)[1..] == rest.fills;
  }

  lemma MirrorHead(makers: seq<Order>)
    requires makers != []
    ensures MirrorAll(makers) != [] && MirrorAll(makers)[0] == Mirror(makers[0])
    ensures MirrorAll(makers)[1..] == MirrorAll(makers[1..])
  {
  }

  /** The three ways a match can begin. */
  lemma GreedyUnfold(taker: Order, bound: Option<Price>, makers: seq<Order>, sequence: nat)
    ensures taker.Remaining() <= 0 || makers == [] || !Eligible(taker.side, bound, makers[0].PriceOrZero()) ==>
              Greedy(taker, bound, makers, sequence) == Outcome(taker, makers, [], sequence)
    ensures 0 < taker.Remaining() && makers != [] && Eligible(taker.side, bound, makers[0].PriceOrZero()) ==>
              var maker := makers[0];
              var q := Min(taker.Remaining(), maker.Remaining());
              var fill := Fill(maker.id, taker.id, maker.PriceOrZero(), q, sequence + 1);
              Greedy(taker, bound, makers, sequence) ==
                if maker.Remaining() <= q then
                  var rest := Greedy(ApplyFill(taker, q), bound, makers[1..], sequence + 1);
                  rest.(fills := [fill] + rest.fills)
                else Outcome(ApplyFill(taker, q), [ApplyFill(maker, q)] + makers[1..], [fill], sequence + 1)
  {
  }

  lemma {:induction false} MirrorGreedy(taker: Order, bound: Option<Price>, makers: seq<Order>, sequence: nat)
    ensures Greedy(Mirror(taker), MirrorBound(bound), MirrorAll(makers), sequence)
         == MirrorOutcome(Greedy(taker, bound, makers, sequence))
    decreases |makers|
  {
    hide Greedy, Eligible, MirrorAll, MirrorFills;
    MirrorEmpty();
    GreedyUnfold(taker, bound, makers, sequence);
    GreedyUnfold(Mirror(taker), MirrorBound(bound), MirrorAll(makers), sequence);
    if makers != [] {
      var maker := makers[0];
      MirrorHead(makers);
      MirrorReach(taker.side, bound, maker);
      if 0 < taker.Remaining() && Eligible(taker.side, bound, maker.PriceOrZero()) {
        var q := Min(taker.Remaining(), maker.Remaining());
        var fill := Fill(maker.id, taker.id, maker.PriceOrZero(), q, sequence + 1);
        assert ApplyFill(Mirror(taker), q) == Mirror(ApplyFill(taker, q));
        if maker.Remaining() <= q {
          MirrorGreedy(ApplyFill(taker, q), bound, makers[1..], sequence + 1);
          MirrorConsOutcome(fill, Greedy(ApplyFill(taker, q), bound, makers[1..], sequence + 1));
        } else {
          MirrorLast(taker, maker, makers[1..], fill, q);
        }
      }
    }
  }

  lemma MirrorEmpty()
    ensures MirrorAll([]) == [] && MirrorFills([]) == []
  {
  }

  lemma MirrorLast(taker: Order, maker: Order, tail: seq<Order>, fill: Fill, q: int)
    ensures MirrorAll([ApplyFill(maker, q)] + tail) == [ApplyFill(Mirror(maker), q)] + MirrorAll(tail)
    ensures MirrorFills([fill]) == [MirrorFill(fill)]
  {
    assert ([ApplyFill(maker, q)] + tail)[1..] == tail;
    assert [fill][1..] == [];
  }

  lemma {:induction false} MirrorRest(side: Side, s: seq<Order>, o: Order)
    ensures Rest(side.Opposite(), MirrorAll(s), Mirror(o)) == MirrorAll(Rest(side, s, o))
  {
    if s == [] || RankOf(side, o) < RankOf(side, s[0]) {
      assert Rest(side, s, o)[1..] == s;
    } else {
      assert MirrorAll(s)[1..] == MirrorAll(s[1..]);
      assert Rest(side, s, o)[1..] == Rest(side, s[1..], o);
      MirrorRest(side, s[1..], o);
    }
  }

  predicate Commutes(e: Engine, o: Order) {
    Process(MirrorEngine(e), Mirror(o)) == MirrorProcessed(Process(e, o))
  }

  /** Swapping the sides and negating prices commutes with processing. */
  lemma MirrorCommutes(e: Engine, o: Order)
    requires o.quantity <= 0 || o.orderType.Market? || o.price.Some?
    ensures Commutes(e, o)
  {
    if 0 < o.quantity {
      var makers := e.view.On(o.side.Opposite());
      MirrorGreedy(o, BoundOf(o), makers, e.sequence);
      var m := Matched(e, o);
      assert MirrorEngine(e).view.On(Mirror(o).side.Opposite()) == MirrorAll(makers);
      if !(o.orderType.Market? || m.taker.Remaining() <= 0) {
        MirrorRest(o.side, e.view.On(o.side), m.taker);
      }
      GreedyKeepsPrice(o, BoundOf(o), makers, e.sequence);
    }
  }

  lemma {:induction false} GreedyKeepsPrice(taker: Order, bound: Option<Price>, makers: seq<Order>, sequence: nat)
    ensures var t := Greedy(taker, bound, makers, sequence).taker;
            t.price == taker.price && t.side == taker.side && t.quantity == taker.quantity && t.orderType == taker.orderType
    decreases |makers|
  {
    if 0 < taker.Remaining() && makers != [] && Eligible(taker.side, bound, makers[0].PriceOrZero()) {
      var q := Min(taker.Remaining(), makers[0].Remaining());
      if makers[0].Remaining() <= q {
        GreedyKeepsPrice(ApplyFill(taker, q), bound, makers[1..], sequence + 1);
      }
    }
  }

  /** One resting order of one unit at price zero, on the side an incoming order looks at. */
  function ZeroPriced(taker: Order): Engine {
    var maker := Order(taker.id + 1, "", taker.side.Opposite(), Limit, Some(0), 1, 0, Open, 0);
    Engine(EmptyView.With(taker.side.Opposite(), [maker]), 0)
  }

  lemma SingleMaker(taker: Order, bound: Option<Price>, maker: Order, sequence: nat)
    requires 0 < taker.Remaining() && maker.Remaining() == 1
    ensures |Greedy(taker, bound, [maker], sequence).fills| ==
              if Eligible(taker.side, bound, maker.PriceOrZero()) then 1 else 0
  {
    var one := [maker];
    assert one[1..] == [];
    assert Greedy(ApplyFill(taker, 1), bound, one[1..], sequence + 1).fills == [];
  }

  /** An unpriced limit bid trades at zero; its mirror image, an unpriced limit ask, does not. */
  lemma MirrorFailsUnpriced(o: Order)
    requires Incoming(o) && 0 < o.quantity && o.orderType.Limit? && o.price.None?
    ensures LiveView(ZeroPriced(o).view) && !Commutes(ZeroPriced(o), o)
  {
    var e := ZeroPriced(o);
    UnpricedAgainstZero(o);
    assert |Matched(e, o).fills| != |Matched(MirrorEngine(e), Mirror(o)).fills|;
    MirrorFillsLength(Matched(e, o).fills);
  }

  lemma MirrorOne(o: Order)
    ensures MirrorAll([o]) == [Mirror(o)]
  {
    assert [o][1..] == [] && MirrorAll([]) == [];
  }

  lemma {:induction false} MirrorFillsLength(fills: seq<Fill>)
    ensures |MirrorFills(fills)| == |fills|
  {
    if fills != [] {
      MirrorFillsLength(fills[1..]);
    }
  }

  /** The bid of the two trades with the unit at zero, the ask does not. */
  lemma UnpricedAgainstZero(o: Order)
    requires Incoming(o) && 0 < o.quantity && o.orderType.Limit? && o.price.None?
    ensures |Matched(ZeroPriced(o), o).fills| == if o.side.Bid? then 1 else 0
    ensures |Matched(MirrorEngine(ZeroPriced(o)), Mirror(o)).fills| == if o.side.Bid? then 0 else 1
  {
    var e := ZeroPriced(o);
    var makers := e.view.On(o.side.Opposite());
    var mirrored := MirrorAll(makers);
    MirrorOne(makers[0]);
    assert makers == [makers[0]];
    hide Greedy;
    assert MirrorEngine(e).view.On(o.side) == mirrored;
    SingleMaker(o, BoundOf(o), makers[0], 0);
    SingleMaker(Mirror(o), BoundOf(Mirror(o)), mirrored[0], 0);
  }

  /** Exactly when the engine treats the two sides alike on every live book. */
  lemma MirrorExactly(o: Order)
    requires Incoming(o)
    ensures (forall e: Engine :: LiveView(e.view) ==> Commutes(e, o))
       <==> (o.quantity <= 0 || o.orderType.Market? || o.price.Some?)
  {
    if o.quantity <= 0 || o.orderType.Market? || o.price.Some? {
      forall e: Engine | LiveView(e.view)
        ensures Commutes(e, o)
      {
        MirrorCommutes(e, o);
      }
    } else {
      MirrorFailsUnpriced(o);
    }
  }
}
