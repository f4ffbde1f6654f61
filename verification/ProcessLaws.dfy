/** What processing one order does to the two sides of a live book. */
module ProcessLaws {
  import opened Types
  import opened PriceTime
  import opened Waterfall

  // ---------- Resting ----------

  /** A rested order stands behind every equal or better price and in front of every worse one;
      nothing else moves. */
  lemma {:induction false} RestIsInsertion(side: Side, s: seq<Order>, o: Order) returns (n: nat)
    requires Sorted(side, s)
    ensures n <= |s| && Rest(side, s, o) == s[..n] + [o] + s[n..]
    ensures forall i :: 0 <= i < n ==> RankOf(side, s[i]) <= RankOf(side, o)
    ensures forall i :: n <= i < |s| ==> RankOf(side, o) < RankOf(side, s[i])
  {
    if s == [] || RankOf(side, o) < RankOf(side, s[0]) {
      hide RankOf;
      n := 0;
      assert s[..0] == [] && s[0..] == s;
    } else {
      hide Sorted, RankOf, Rest;
      SortedTail(side, s);
      RestStep(side, s, o);
      var m := RestIsInsertion(side, s[1..], o);
      n := m + 1;
      InsertLater(s, m, o);
      forall i | 0 < i < |s|
        ensures RankOf(side, s[i]) == RankOf(side, s[1..][i - 1])
      {
      }
    }
  }

  lemma InsertLater<T>(s: seq<T>, m: nat, x: T)
    requires s != [] && m < |s|
    ensures [s[0]] + (s[1..][..m] + [x] + s[1..][m..]) == s[..m + 1] + [x] + s[m + 1..]
  {
    assert s[..m + 1] == [s[0]] + s[1..][..m];
    assert s[m + 1..] == s[1..][m..];
  }

  lemma SortedTail(side: Side, s: seq<Order>)
    requires Sorted(side, s) && s != []
    ensures Sorted(side, s[1..])
  {
  }

  lemma RestStep(side: Side, s: seq<Order>, o: Order)
    requires s != [] && RankOf(side, s[0]) <= RankOf(side, o)
    ensures Rest(side, s, o) == [s[0]] + Rest(side, s[1..], o)
  {
  }

  lemma RestMembers(side: Side, s: seq<Order>, o: Order)
    requires Sorted(side, s)
    ensures forall i :: 0 <= i < |Rest(side, s, o)| ==> Rest(side, s, o)[i] == o || Rest(side, s, o)[i] in s
    ensures forall id :: HasId(Rest(side, s, o), id) <==> HasId(s, id) || id == o.id
  {
    hide Sorted, Rest, RankOf;
    var n := RestIsInsertion(side, s, o);
    var r := Rest(side, s, o);
    Inserted(s, n, o);
    assert r[n] == o;
    forall id | HasId(s, id)
      ensures HasId(r, id)
    {
      var i :| 0 <= i < |s| && s[i].id == id;
      assert r[if i < n then i else i + 1].id == id;
    }
    forall i | 0 <= i < |r| && i != n
      ensures r[i] in s && HasId(s, r[i].id)
    {
      assert r[i] == s[if i < n then i else i - 1];
    }
  }

  lemma Inserted<T>(s: seq<T>, n: nat, x: T)
    requires n <= |s|
    ensures var r := s[..n] + [x] + s[n..];
            |r| == |s| + 1 && forall i :: 0 <= i < |r| ==> r[i] == if i < n then s[i] else if i == n then x else s[i - 1]
  {
  }

  lemma RestKeepsLive(side: Side, s: seq<Order>, o: Order)
    requires LiveSide(side, s) && DistinctIds(s)
    requires RestingOrder(o) && o.side == side && !HasId(s, o.id)
    ensures LiveSide(side, Rest(side, s, o)) && DistinctIds(Rest(side, s, o))
  {
    hide Rest, RestingOrder;
    var n := RestIsInsertion(side, s, o);
    var r := Rest(side, s, o);
    Inserted(s, n, o);
    forall i, j | 0 <= i < j < |r|
      ensures RankOf(side, r[i]) <= RankOf(side, r[j]) && r[i].id != r[j].id
    {
    }
  }

  lemma HasIdInConsume(side: Side, s: seq<Order>, q: int, id: OrderId)
    requires LiveSide(side, s) && 0 <= q
    ensures HasId(Consume(s, q), id) ==> HasId(s, id)
  {
    ConsumeKeepsLive(side, s, q);
  }

  // ---------- One order ----------

  /** How much an accepted order trades. */
  function TradedBy(e: Engine, o: Order): int {
    if o.quantity <= 0 || o.Remaining() <= 0 then 0 else Traded(o, BoundOf(o), e.view.On(o.side.Opposite()))
  }

  /** Does the order stay in the book after trading `t`? */
  predicate Rests(o: Order, t: int) {
    o.orderType.Limit? && o.price.Some? && t < o.Remaining()
  }

  /** The view after an order trades `t` and its remainder, if any, rests. */
  function ViewAfter(v: View, o: Order, t: int): View {
    var taken := v.With(o.side.Opposite(), Consume(v.On(o.side.Opposite()), t));
    if Rests(o, t) && 0 < o.quantity then taken.With(o.side, Rest(o.side, v.On(o.side), AfterTrading(o, t)))
    else taken
  }

  /** Processing an order, whatever its fields, takes the traded quantity from the front of the
      opposite side, and rests exactly the priced limit orders that are not exhausted. */
  lemma ProcessShape(e: Engine, o: Order)
    requires LiveView(e.view)
    ensures var p := Process(e, o);
            var t := TradedBy(e, o);
            && 0 <= t <= Max(0, o.Remaining())
            && t <= Total(e.view.On(o.side.Opposite()))
            && p.engine == Engine(ViewAfter(e.view, o, t), e.sequence + |p.executed|)
            && FillTotal(p.executed) == t
            && (p.executed == [] <==> t == 0)
            && PoursOver(p.executed, o, BoundOf(o), e.view.On(o.side.Opposite()), t, e.sequence)
            && (p.result == if o.quantity <= 0 then Err(InvalidQuantity)
                            else if o.orderType.Limit? && o.price.None? && t < o.Remaining() then Err(InvalidQuantity)
                            else if Rests(o, t) && t == 0 then Ok(Resting)
                            else Ok(Fills(p.executed)))
  {
    hide PoursOver, Rest, LiveSide;
    LiveParts(e.view, o.side.Opposite());
    PourNothing(o, BoundOf(o), e.view.On(o.side.Opposite()), e.sequence);
    var makers := e.view.On(o.side.Opposite());
    if 0 < o.quantity && 0 < o.Remaining() {
      hide Greedy, Consume, Depth;
      var opposite := o.side.Opposite();
      GreedyConsumes(o, BoundOf(o), makers, e.sequence);
      GreedyPours(o, BoundOf(o), makers, e.sequence);
      var r := if BoundOf(o).Some? then Rank(opposite, BoundOf(o).value) else 0;
      DepthNonNegative(opposite, makers, r);
    } else {
      DepthNonNegative(o.side.Opposite(), makers, 0);
    }
  }

  lemma RestSide(v: View, side: Side, o: Order)
    requires LiveView(v) && RestingOrder(o) && o.side == side && !v.Contains(o.id)
    ensures LiveView(v.With(side, Rest(side, v.On(side), o)))
    ensures forall id :: v.With(side, Rest(side, v.On(side), o)).Contains(id) <==> v.Contains(id) || id == o.id
  {
    hide Rest, LiveSide, RestingOrder;
    LiveParts(v, side);
    RestKeepsLive(side, v.On(side), o);
    RestMembers(side, v.On(side), o);
    var w := v.With(side, Rest(side, v.On(side), o));
    DisjointIds(v.On(side), v.On(side.Opposite()), w.On(side), w.On(side.Opposite()), o.id);
  }

  lemma LiveParts(v: View, side: Side)
    requires LiveView(v)
    ensures LiveSide(side, v.On(side)) && DistinctIds(v.On(side)) && Sorted(side, v.On(side))
  {
  }

  lemma ConsumeSide(v: View, side: Side, q: int)
    requires LiveView(v) && 0 <= q
    ensures LiveView(v.With(side, Consume(v.On(side), q)))
    ensures forall id :: v.With(side, Consume(v.On(side), q)).Contains(id) ==> v.Contains(id)
  {
    hide Consume, LiveSide;
    var s := v.On(side);
    var c := Consume(s, q);
    LiveParts(v, side);
    ConsumeKeepsLive(side, s, q);
    forall id | HasId(c, id)
      ensures HasId(s, id)
    {
      HasIdInConsume(side, s, q, id);
    }
    forall i | 0 <= i < |c|
      ensures HasId(s, c[i].id)
    {
      assert HasId(c, c[i].id);
    }
  }

  /** A live book stays live, and no id appears but the order's own. */
  lemma ProcessKeepsLive(e: Engine, o: Order)
    requires LiveView(e.view) && Incoming(o) && !e.view.Contains(o.id)
    ensures LiveView(Process(e, o).engine.view)
    ensures forall id :: Process(e, o).engine.view.Contains(id) ==> e.view.Contains(id) || id == o.id
  {
    hide LiveView, Process, Consume, Rest, PoursOver, HasId;
    ProcessShape(e, o);
    var t := TradedBy(e, o);
    var opposite := o.side.Opposite();
    ConsumeSide(e.view, opposite, t);
    if Rests(o, t) && 0 < o.quantity {
      var taken := e.view.With(opposite, Consume(e.view.On(opposite), t));
      assert taken.On(o.side) == e.view.On(o.side);
      RestSide(taken, o.side, AfterTrading(o, t));
    }
  }

  lemma DisjointIds(own: seq<Order>, other: seq<Order>, own': seq<Order>, other': seq<Order>, newId: OrderId)
    requires forall i, j :: 0 <= i < |own| && 0 <= j < |other| ==> own[i].id != other[j].id
    requires forall id :: HasId(own', id) ==> HasId(own, id) || id == newId
    requires forall id :: HasId(other', id) ==> HasId(other, id)
    requires !HasId(other, newId)
    ensures forall i, j :: 0 <= i < |own'| && 0 <= j < |other'| ==> own'[i].id != other'[j].id
  {
    forall i, j | 0 <= i < |own'| && 0 <= j < |other'|
      ensures own'[i].id != other'[j].id
    {
      assert HasId(own', own'[i].id) && HasId(other', other'[j].id);
    }
  }

  /** Exactly when fills happen although the caller gets an error: a limit order without a price
      that reaches something, but not enough. */
  lemma FillsLostExactly(e: Engine, o: Order)
    requires LiveView(e.view) && Incoming(o)
    ensures (Process(e, o).result.Err? && Process(e, o).executed != [])
       <==> (o.orderType.Limit? && o.price.None? && 0 < Reach(o.side, BoundOf(o), e.view.On(o.side.Opposite())) < o.quantity)
  {
    hide PoursOver, Greedy, Reach;
    ProcessShape(e, o);
  }

  /** One unit resting at the price an order is compared with. */
  function OneUnitAtLimit(o: Order): Engine {
    var maker := Order(o.id + 1, "", o.side.Opposite(), Limit, Some(LimitPrice(o)), 1, 0, Open, 0);
    Engine(EmptyView.With(o.side.Opposite(), [maker]), 0)
  }

  lemma OneUnitTrades(o: Order)
    requires Incoming(o) && 1 < o.quantity && o.orderType.Limit?
    ensures LiveView(OneUnitAtLimit(o).view)
    ensures Reach(o.side, BoundOf(o), OneUnitAtLimit(o).view.On(o.side.Opposite())) == 1
    ensures TradedBy(OneUnitAtLimit(o), o) == 1
  {
    var side := o.side.Opposite();
    var makers := OneUnitAtLimit(o).view.On(side);
    assert makers[1..] == [] && RankOf(side, makers[0]) == Rank(side, LimitPrice(o));
    assert Depth(side, makers, Rank(side, LimitPrice(o))) == 1;
  }

  /** Every unpriced limit order of two units or more can lose fills: the one unit it can get is
      traded, and the caller is told of an error. */
  lemma UnpricedCanLoseFills(o: Order)
    requires Incoming(o) && 1 < o.quantity && o.orderType.Limit? && o.price.None?
    ensures var e := OneUnitAtLimit(o);
            && LiveView(e.view)
            && Process(e, o).result == Err(InvalidQuantity)
            && FillTotal(Process(e, o).executed) == 1
  {
    OneUnitTrades(o);
    ProcessShape(OneUnitAtLimit(o), o);
  }

  // ---------- The book is never crossed ----------

  lemma {:induction false} ConsumedOut(side: Side, s: seq<Order>, q: int, r: int)
    requires LiveSide(side, s) && Depth(side, s, r) <= q
    ensures forall i :: 0 <= i < |Consume(s, q)| ==> r < RankOf(side, Consume(s, q)[i])
  {
    DepthNonNegative(side, s, r);
    DepthOfConsume(side, s, q, r);
    ConsumeKeepsLive(side, s, q);
    var c := Consume(s, q);
    if c != [] && RankOf(side, c[0]) <= r {
      DepthNonNegative(side, c, r);
      assert false;
    }
  }

  /** What can be said of prices after consuming: every price left was there before. */
  lemma ConsumeKeepsUncrossed(v: View, side: Side, q: int)
    requires LiveView(v) && Uncrossed(v) && 0 <= q
    ensures Uncrossed(v.With(side, Consume(v.On(side), q)))
  {
    ConsumeKeepsLive(side, v.On(side), q);
    var c := Consume(v.On(side), q);
    forall i | 0 <= i < |c|
      ensures exists j :: 0 <= j < |v.On(side)| && v.On(side)[j].PriceOrZero() == c[i].PriceOrZero()
    {
      var j :| 0 <= j < |v.On(side)| && v.On(side)[j].id == c[i].id && v.On(side)[j].price == c[i].price;
      assert v.On(side)[j].PriceOrZero() == c[i].PriceOrZero();
    }
  }

  /** Resting keeps the book uncrossed when the opposite side is out of the order's reach. */
  lemma RestKeepsUncrossed(v: View, o: Order)
    requires LiveView(v) && Uncrossed(v) && o.price.Some?
    requires forall i :: 0 <= i < |v.On(o.side.Opposite())| ==>
               Rank(o.side.Opposite(), o.price.value) < RankOf(o.side.Opposite(), v.On(o.side.Opposite())[i])
    ensures Uncrossed(v.With(o.side, Rest(o.side, v.On(o.side), o)))
  {
    var r := Rest(o.side, v.On(o.side), o);
    RestMembers(o.side, v.On(o.side), o);
    var other := v.On(o.side.Opposite());
    forall i, j | 0 <= i < |r| && 0 <= j < |other|
      ensures if o.side.Bid? then r[i].PriceOrZero() < other[j].PriceOrZero() else other[j].PriceOrZero() < r[i].PriceOrZero()
    {
      if r[i] != o {
        var k :| 0 <= k < |v.On(o.side)| && v.On(o.side)[k] == r[i];
      } else {
        assert Rank(o.side.Opposite(), o.price.value) < RankOf(o.side.Opposite(), other[j]);
      }
    }
  }

  /** A book that is not crossed stays so. */
  lemma ProcessKeepsUncrossed(e: Engine, o: Order)
    requires LiveView(e.view) && Uncrossed(e.view) && Incoming(o)
    ensures Uncrossed(Process(e, o).engine.view)
  {
    hide Uncrossed, LiveView, PoursOver, Greedy, Rest, Consume;
    ProcessShape(e, o);
    var t := TradedBy(e, o);
    var opposite := o.side.Opposite();
    ConsumeKeepsUncrossed(e.view, opposite, t);
    if Rests(o, t) && 0 < o.quantity {
      var taken := e.view.With(opposite, Consume(e.view.On(opposite), t));
      ReachExhausted(e, o);
      ConsumeSide(e.view, opposite, t);
      assert taken.On(opposite) == Consume(e.view.On(opposite), t);
      RestKeepsUncrossed(taken, AfterTrading(o, t));
    }
  }

  /** A priced limit order that is not exhausted has used up everything within its reach. */
  lemma ReachExhausted(e: Engine, o: Order)
    requires LiveView(e.view) && Incoming(o) && 0 < o.quantity && Rests(o, TradedBy(e, o))
    ensures var opposite := o.side.Opposite();
            var left := Consume(e.view.On(opposite), TradedBy(e, o));
            0 <= TradedBy(e, o)
            && forall i :: 0 <= i < |left| ==> Rank(opposite, o.price.value) < RankOf(opposite, left[i])
  {
    var opposite := o.side.Opposite();
    DepthNonNegative(opposite, e.view.On(opposite), Rank(opposite, o.price.value));
    ConsumedOut(opposite, e.view.On(opposite), TradedBy(e, o), Rank(opposite, o.price.value));
  }

  // ---------- Priority between fills and what is left ----------

  /** Fills name the makers front to back, and only the last maker named can still be waiting: at
      the front of what is left, in its old place. */
  ghost predicate InPriorityOrder(makers: seq<Order>, fills: seq<Fill>, left: seq<Order>) {
    && |left| <= |makers|
    && |fills| <= |makers|
    && var n := |makers| - |left|;
    && n <= |fills| <= n + 1
    && (forall i :: 0 <= i < |fills| ==> fills[i].makerOrderId == makers[i].id && fills[i].price == makers[i].PriceOrZero())
    && (forall j :: 0 <= j < |left| ==>
          && left[j].id == makers[n + j].id
          && left[j].price == makers[n + j].price
          && left[j].sequence == makers[n + j].sequence)
  }

  lemma {:induction false} GreedyPriority(taker: Order, bound: Option<Price>, makers: seq<Order>, sequence: nat)
    requires forall i :: 0 <= i < |makers| ==> 0 < makers[i].Remaining()
    ensures var g := Greedy(taker, bound, makers, sequence);
            InPriorityOrder(makers, g.fills, g.makers)
    decreases |makers|
  {
    if 0 < taker.Remaining() && makers != [] && Eligible(taker.side, bound, makers[0].PriceOrZero()) {
      var q := Min(taker.Remaining(), makers[0].Remaining());
      if makers[0].Remaining() <= q {
        GreedyPriority(ApplyFill(taker, q), bound, makers[1..], sequence + 1);
        var rest := Greedy(ApplyFill(taker, q), bound, makers[1..], sequence + 1);
        PriorityMore(makers, Fill(makers[0].id, taker.id, makers[0].PriceOrZero(), q, sequence + 1), rest.fills, rest.makers);
      }
    }
  }

  lemma PriorityMore(makers: seq<Order>, fill: Fill, fills: seq<Fill>, left: seq<Order>)
    requires makers != [] && InPriorityOrder(makers[1..], fills, left)
    requires fill.makerOrderId == makers[0].id && fill.price == makers[0].PriceOrZero()
    ensures InPriorityOrder(makers, [fill] + fills, left)
  {
    var n := |makers| - |left|;
    assert forall i :: 0 < i < |makers| ==> makers[i] == makers[1..][i - 1];
    forall j | 0 <= j < |left|
      ensures left[j].id == makers[n + j].id && left[j].price == makers[n + j].price && left[j].sequence == makers[n + j].sequence
    {
      assert makers[n + j] == makers[1..][n - 1 + j];
    }
  }
}
