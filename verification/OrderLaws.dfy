/** What one order does, told from the fields of the order and of the orders that rest: which prices
    it may trade at, how much it trades, what is answered, and when prices are published. */
module OrderLaws {
  import opened Types
  import opened PriceTime
  import opened Waterfall
  import opened ProcessLaws
  import opened Replay

  // ---------- The sides ----------

  /** Bids stand from the highest price down, asks from the lowest up. */
  lemma SidesByPrice(v: View)
    requires LiveView(v)
    ensures forall i, j :: 0 <= i < j < |v.bids| ==>
              v.bids[i].price.Some? && v.bids[j].price.Some? && v.bids[j].price.value <= v.bids[i].price.value
    ensures forall i, j :: 0 <= i < j < |v.asks| ==>
              v.asks[i].price.Some? && v.asks[j].price.Some? && v.asks[i].price.value <= v.asks[j].price.value
  {
    forall i, j | 0 <= i < j < |v.bids|
      ensures v.bids[i].price.Some? && v.bids[j].price.Some? && v.bids[j].price.value <= v.bids[i].price.value
    {
      assert RankOf(Bid, v.bids[i]) <= RankOf(Bid, v.bids[j]);
    }
    forall i, j | 0 <= i < j < |v.asks|
      ensures v.asks[i].price.Some? && v.asks[j].price.Some? && v.asks[i].price.value <= v.asks[j].price.value
    {
      assert RankOf(Ask, v.asks[i]) <= RankOf(Ask, v.asks[j]);
    }
  }

  /** The published prices are the highest bid and the lowest ask, and missing for an empty side. */
  lemma PricesAreBest(v: View)
    requires LiveView(v)
    ensures Prices(v).bestBid.None? <==> v.bids == []
    ensures Prices(v).bestAsk.None? <==> v.asks == []
    ensures forall o :: o in v.bids ==> o.price.Some? && o.price.value <= Prices(v).bestBid.value
    ensures forall o :: o in v.asks ==> o.price.Some? && Prices(v).bestAsk.value <= o.price.value
    ensures v.bids != [] ==> exists o :: o in v.bids && o.price == Prices(v).bestBid
    ensures v.asks != [] ==> exists o :: o in v.asks && o.price == Prices(v).bestAsk
  {
    SidesByPrice(v);
    if v.bids != [] {
      assert v.bids[0] in v.bids && v.bids[0].price == Prices(v).bestBid;
    }
    if v.asks != [] {
      assert v.asks[0] in v.asks && v.asks[0].price == Prices(v).bestAsk;
    }
  }

  // ---------- What an order may trade ----------

  /** May the order trade with somebody who asks or bids `p`?  A limit bid without a price counts as
      zero, a limit ask without one as the largest decimal. */
  predicate Accepts(o: Order, p: Price) {
    match o.orderType
    case Market => true
    case Limit =>
      match o.side
      case Bid => if o.price.Some? then p <= o.price.value else p <= 0
      case Ask => if o.price.Some? then o.price.value <= p else 79228162514264337593543950335 <= p
  }

  /** What the orders of a side that `o` accepts still have to trade. */
  function Offered(o: Order, makers: seq<Order>): int {
    if makers == [] then 0
    else (if makers[0].price.Some? && Accepts(o, makers[0].price.value) then makers[0].quantity - makers[0].filled else 0)
         + Offered(o, makers[1..])
  }

  lemma EligibleIsAccepts(o: Order, p: Price)
    ensures Eligible(o.side, BoundOf(o), p) <==> Accepts(o, p)
  {
  }

  lemma {:induction false} ReachIsOffered(o: Order, makers: seq<Order>)
    requires forall i :: 0 <= i < |makers| ==> makers[i].price.Some?
    ensures Reach(o.side, BoundOf(o), makers) == Offered(o, makers)
  {
    if makers != [] {
      assert forall i :: 0 <= i < |makers[1..]| ==> makers[1..][i] == makers[i + 1];
      EligibleIsAccepts(o, makers[0].price.value);
      ReachIsOffered(o, makers[1..]);
    }
  }

  /** An order trades exactly what it wants or what the other side offers within its price, whichever
      is less. */
  lemma TradesWhatIsOffered(e: Engine, o: Order)
    requires LiveView(e.view)
    ensures FillTotal(Process(e, o).executed)
         == if o.quantity <= 0 || o.quantity <= o.filled then 0
            else Min(o.quantity - o.filled, Offered(o, e.view.On(o.side.Opposite())))
  {
    hide Process, PoursOver;
    ProcessShape(e, o);
    ReachIsOffered(o, e.view.On(o.side.Opposite()));
  }

  /** Every fill is for the order, is positive, is numbered on from the engine's sequence, names the
      maker whose turn it is at that maker's own price, and that price is one the order accepts. */
  lemma FillsWithinPrice(e: Engine, o: Order)
    requires LiveView(e.view)
    ensures var fills, makers := Process(e, o).executed, e.view.On(o.side.Opposite());
            && |fills| <= |makers|
            && forall i :: 0 <= i < |fills| ==>
                 && fills[i].takerOrderId == o.id
                 && fills[i].makerOrderId == makers[i].id
                 && makers[i].price == Some(fills[i].price)
                 && 0 < fills[i].quantity <= makers[i].quantity - makers[i].filled
                 && fills[i].sequence == e.sequence + 1 + i
                 && Accepts(o, fills[i].price)
  {
    hide Process, Total;
    ProcessShape(e, o);
    var fills, makers := Process(e, o).executed, e.view.On(o.side.Opposite());
    forall i | 0 <= i < |fills|
      ensures PourAt(fills[i], i, o, BoundOf(o), makers, TradedBy(e, o), e.sequence)
    {
    }
    forall p: Price
      ensures Eligible(o.side, BoundOf(o), p) <==> Accepts(o, p)
    {
      EligibleIsAccepts(o, p);
    }
  }

  /** No bid with a limit buys above it, no ask with one sells below it; and if every opposite price
      is worse, nothing is traded. */
  lemma LimitIsKept(e: Engine, o: Order)
    requires LiveView(e.view) && o.orderType.Limit? && o.price.Some?
    ensures forall f :: f in Process(e, o).executed ==>
              if o.side.Bid? then f.price <= o.price.value else o.price.value <= f.price
    ensures o.side.Bid? && (forall m :: m in e.view.asks && m.price.Some? ==> o.price.value < m.price.value) ==> Process(e, o).executed == []
    ensures o.side.Ask? && (forall m :: m in e.view.bids && m.price.Some? ==> m.price.value < o.price.value) ==> Process(e, o).executed == []
  {
    hide Process;
    FillsWithinPrice(e, o);
    var fills := Process(e, o).executed;
    if fills != [] {
      var m := e.view.On(o.side.Opposite())[0];
      assert m in e.view.On(o.side.Opposite()) && m.price == Some(fills[0].price) && fills[0] in fills;
    }
  }

  // ---------- What is answered ----------

  lemma {:induction false} GreedyTotals(taker: Order, bound: Option<Price>, makers: seq<Order>, sequence: nat)
    ensures var g := Greedy(taker, bound, makers, sequence);
            && g.taker.Remaining() == taker.Remaining() - FillTotal(g.fills)
            && g.taker.price == taker.price
    decreases |makers|
  {
    if 0 < taker.Remaining() && makers != [] && Eligible(taker.side, bound, makers[0].PriceOrZero()) {
      var q := Min(taker.Remaining(), makers[0].Remaining());
      var g := Greedy(taker, bound, makers, sequence);
      if makers[0].Remaining() <= q {
        GreedyTotals(ApplyFill(taker, q), bound, makers[1..], sequence + 1);
        assert g.fills[1..] == Greedy(ApplyFill(taker, q), bound, makers[1..], sequence + 1).fills;
      } else {
        assert g.fills[1..] == [];
      }
    }
  }

  /** The answer to any order on any engine: refused without quantity; refused if it has no price and
      something is left that would have to rest; resting if nothing was traded and something is left;
      and otherwise the list of its fills, which may be empty. */
  lemma ResultExactly(e: Engine, o: Order)
    ensures var p := Process(e, o);
            var left := o.quantity - o.filled - FillTotal(p.executed);
            && (o.quantity <= 0 ==> p.executed == [] && p.engine == e)
            && p.result == (if o.quantity <= 0 then Err(InvalidQuantity)
                            else if o.orderType.Market? || left <= 0 then Ok(Fills(p.executed))
                            else if o.price.None? then Err(InvalidQuantity)
                            else if p.executed == [] then Ok(Resting)
                            else Ok(Fills(p.executed)))
  {
    GreedyTotals(o, BoundOf(o), e.view.On(o.side.Opposite()), e.sequence);
    hide Greedy;
  }

  /** Exactly which orders publish prices and send fills: those of positive quantity that are market
      orders, or exhausted, or priced with something traded.  A market order does so even if it
      finds nobody to trade with. */
  lemma PublishesExactly(e: Engine, o: Order)
    ensures var p := Process(e, o);
            Publishes(p.result) <==>
              && 0 < o.quantity
              && (o.orderType.Market? || o.quantity - o.filled <= FillTotal(p.executed) || (o.price.Some? && p.executed != []))
  {
    hide Process;
    ResultExactly(e, o);
  }

  /** Orders that publish add one update, the best prices right after them, and send every fill they
      made; all others add nothing and send nothing. */
  lemma UpdatesAndFillsOf(e: Engine, log: Log)
    requires log != []
    ensures var o, before := Last(log), ReplayLog(e, Front(log));
            var p := Process(before, o);
            if 0 < o.quantity
               && (o.orderType.Market? || o.quantity - o.filled <= FillTotal(p.executed) || (o.price.Some? && p.executed != []))
            then && Updates(e, log) == Updates(e, Front(log)) + [Prices(p.engine.view)]
                 && SentFills(e, log) == SentFills(e, Front(log)) + p.executed
            else && Updates(e, log) == Updates(e, Front(log))
                 && SentFills(e, log) == SentFills(e, Front(log))
  {
    hide Process, ReplayLog, Prices;
    var before := ReplayLog(e, Front(log));
    PublishesExactly(before, Last(log));
    SentNext(e, log);
    hide Publishes;
    assert Updates(e, Front(log)) + [] == Updates(e, Front(log));
  }

  // ---------- Where an order rests, and which one a cancel takes ----------

  /** An order that rests stands behind every order of its side at its price or a better one, and in
      front of every order at a worse one; nothing else moves, and what it traded is recorded. */
  lemma RestsAtItsPrice(e: Engine, o: Order) returns (n: nat)
    requires LiveView(e.view) && o.orderType.Limit? && o.price.Some? && 0 < o.quantity
    requires FillTotal(Process(e, o).executed) < o.quantity - o.filled
    ensures var own, t := e.view.On(o.side), FillTotal(Process(e, o).executed);
            var rested := if t == 0 then o else o.(filled := o.filled + t, status := PartiallyFilled);
            && n <= |own|
            && Process(e, o).engine.view.On(o.side) == own[..n] + [rested] + own[n..]
            && (forall i :: 0 <= i < |own| ==> own[i].price.Some?)
            && (forall i :: 0 <= i < n ==> if o.side.Bid? then o.price.value <= own[i].price.value else own[i].price.value <= o.price.value)
            && (forall i :: n <= i < |own| ==> if o.side.Bid? then own[i].price.value < o.price.value else o.price.value < own[i].price.value)
  {
    hide Process, PoursOver, Rest, Consume;
    ProcessShape(e, o);
    LiveParts(e.view, o.side);
    var t := TradedBy(e, o);
    n := RestIsInsertion(o.side, e.view.On(o.side), AfterTrading(o, t));
  }

  /** A cancel takes the one order of that id out of its side and leaves everything else as it is; an
      unknown id is reported and changes nothing. */
  lemma CancelExactly(e: Engine, id: OrderId) returns (side: Side, n: nat)
    requires LiveView(e.view)
    ensures var c := Cancel(e, id);
            if e.view.Contains(id)
            then && n < |e.view.On(side)| && e.view.On(side)[n].id == id
                 && c.0.view.On(side) == e.view.On(side)[..n] + e.view.On(side)[n + 1..]
                 && c.0.view.On(side.Opposite()) == e.view.On(side.Opposite())
                 && c.0.sequence == e.sequence
                 && c.1 == Ok(CancelDone)
            else c == (e, Err(OrderNotFound(id)))
  {
    side, n := Bid, 0;
    if e.view.Contains(id) {
      side := if HasId(e.view.bids, id) then Bid else Ask;
      var own, other := e.view.On(side), e.view.On(side.Opposite());
      var i :| 0 <= i < |own| && own[i].id == id;
      n := i;
      WithoutOne(own, n);
      assert !HasId(other, id);
      WithoutMissing(other, id);
    }
  }

  lemma {:induction false} WithoutOne(s: seq<Order>, n: nat)
    requires DistinctIds(s) && n < |s|
    ensures Without(s, s[n].id) == s[..n] + s[n + 1..]
  {
    if n == 0 {
      assert !HasId(s[1..], s[0].id);
      WithoutMissing(s[1..], s[0].id);
    } else {
      assert forall i :: 0 <= i < |s[1..]| ==> s[1..][i] == s[i + 1];
      WithoutOne(s[1..], n - 1);
      assert s[..n] + s[n + 1..] == [s[0]] + (s[1..][..n - 1] + s[1..][n..]);
    }
  }
}
