/** Conservation over whole runs: per side, per order, and in time. */
module Conservation {
  import opened Types
  import opened PriceTime
  import opened Waterfall
  import opened ProcessLaws
  import opened Runs

  lemma {:induction false} FillTotalConcat(a: seq<Fill>, b: seq<Fill>)
    ensures FillTotal(a + b) == FillTotal(a) + FillTotal(b)
  {
    if a == [] {
      assert a + b == b;
    } else {
      assert (a + b)[1..] == a[1..] + b;
      FillTotalConcat(a[1..], b);
    }
  }

  // ---------- Quantity per side ----------

  /** Quantity accepted on a side. */
  ghost function Accepted(side: Side, events: seq<Event>): int {
    if events == [] then 0
    else
      var last := events[|events| - 1];
      Accepted(side, events[..|events| - 1]) +
      (if last.Submit? && last.order.side == side then Max(0, last.order.quantity) else 0)
  }

  function RemainingOf(s: seq<Order>, id: OrderId): int {
    if s == [] then 0 else (if s[0].id == id then s[0].Remaining() else 0) + RemainingOf(s[1..], id)
  }

  /** Quantity taken off a side by cancels. */
  ghost function Withdrawn(side: Side, events: seq<Event>): int {
    if events == [] then 0
    else
      var earlier, last := events[..|events| - 1], events[|events| - 1];
      Withdrawn(side, earlier) +
      (if last.CancelById? then RemainingOf(Run(earlier).view.On(side), last.id) else 0)
  }

  /** Quantity of a side's takers that neither traded nor rested: the rest of market orders, and
      the rest of limit orders without a price. */
  ghost function Discarded(side: Side, events: seq<Event>): int {
    if events == [] then 0
    else
      var earlier, last := events[..|events| - 1], events[|events| - 1];
      Discarded(side, earlier) +
      (if last.Submit? && last.order.side == side && !(last.order.orderType.Limit? && last.order.price.Some?)
       then Max(0, last.order.quantity) - TradedBy(Run(earlier), last.order) else 0)
  }

  lemma {:induction false} TotalWithout(s: seq<Order>, id: OrderId)
    ensures Total(Without(s, id)) == Total(s) - RemainingOf(s, id)
  {
    if s != [] {
      TotalWithout(s[1..], id);
      if s[0].id != id {
        assert Without(s, id)[1..] == Without(s[1..], id);
      }
    }
  }

  lemma {:induction false} RemainingOfMissing(s: seq<Order>, id: OrderId)
    requires !HasId(s, id)
    ensures RemainingOf(s, id) == 0
  {
    if s != [] {
      assert !HasId(s[1..], id);
      RemainingOfMissing(s[1..], id);
    }
  }

  lemma CancelTotals(e: Engine, id: OrderId, side: Side)
    ensures Total(Cancel(e, id).0.view.On(side)) == Total(e.view.On(side)) - RemainingOf(e.view.On(side), id)
  {
    hide Total, Without, RemainingOf, HasId;
    TotalWithout(e.view.On(side), id);
    if !e.view.Contains(id) {
      FreshToSide(e.view, id, side);
      RemainingOfMissing(e.view.On(side), id);
    }
  }

  /** Each side's accepted quantity is traded, resting, withdrawn or discarded: nothing is lost and
      the two sides trade the same quantity. */
  lemma {:induction false} QuantityConserved(side: Side, events: seq<Event>)
    requires History(events)
    ensures Accepted(side, events)
         == FillTotal(Trades(events)) + Total(Run(events).view.On(side)) + Withdrawn(side, events) + Discarded(side, events)
  {
    hide Process, Cancel, LiveView, Uncrossed, FillTotal, Total, TradedBy, RemainingOf;
    if events == [] {
      NothingYet(side);
    } else {
      var earlier, last := events[..|events| - 1], events[|events| - 1];
      var e := Run(earlier);
      QuantityConserved(side, earlier);
      RunKeepsBook(earlier);
      FillTotalConcat(Trades(earlier), Executed(e, last));
      match last {
        case Submit(o) => ProcessTotals(e, o, side);
        case CancelById(id) =>
          CancelTotals(e, id, side);
          NothingYet(side);
      }
    }
  }

  lemma NothingYet(side: Side)
    ensures FillTotal([]) == 0 && Total(NewEngine.view.On(side)) == 0
  {
  }

  lemma ProcessTotals(e: Engine, o: Order, side: Side)
    requires LiveView(e.view) && Incoming(o)
    ensures var p := Process(e, o);
            var t := TradedBy(e, o);
            && FillTotal(p.executed) == t
            && Total(p.engine.view.On(side)) == Total(e.view.On(side)) +
                 (if side == o.side.Opposite() then -t
                  else if o.orderType.Limit? && o.price.Some? then Max(0, o.quantity) - t
                  else 0)
  {
    hide PoursOver, Uncrossed, Process, Consume, Rest;
    ProcessShape(e, o);
    var t := TradedBy(e, o);
    if side == o.side.Opposite() {
      TotalOfConsume(side, e.view.On(side), t);
    } else {
      DepthOfRest(side, e.view.On(side), AfterTrading(o, t), 0);
    }
  }

  // ---------- Quantity per order ----------

  /** How much the fills say `id` has traded, as maker or as taker. */
  function FilledBy(fills: seq<Fill>, id: OrderId): int {
    if fills == [] then 0
    else (if fills[0].makerOrderId == id || fills[0].takerOrderId == id then fills[0].quantity else 0)
         + FilledBy(fills[1..], id)
  }

  lemma {:induction false} FilledByConcat(a: seq<Fill>, b: seq<Fill>, id: OrderId)
    ensures FilledBy(a + b, id) == FilledBy(a, id) + FilledBy(b, id)
  {
    if a == [] {
      assert a + b == b;
    } else {
      assert (a + b)[1..] == a[1..] + b;
      FilledByConcat(a[1..], b, id);
    }
  }

  /** `r` is `o` at some stage of being filled. */
  predicate SameOrder(o: Order, r: Order) {
    r == o.(filled := r.filled, status := r.status)
  }

  /** A match credits each order with exactly what the fills naming it say. */
  ghost predicate Credits(taker: Order, makers: seq<Order>, fills: seq<Fill>, left: seq<Order>) {
    && |left| <= |makers|
    && FilledBy(fills, taker.id) == FillTotal(fills)
    && (forall id :: id != taker.id && !HasId(makers, id) ==> FilledBy(fills, id) == 0)
    && (forall i :: 0 <= i < |makers| ==> 0 <= FilledBy(fills, makers[i].id) <= makers[i].Remaining())
    && (forall j :: 0 <= j < |left| ==>
          && SameOrder(makers[|makers| - |left| + j], left[j])
          && left[j].filled == makers[|makers| - |left| + j].filled + FilledBy(fills, left[j].id))
  }

  lemma {:induction false} GreedyCredits(taker: Order, bound: Option<Price>, makers: seq<Order>, sequence: nat)
    requires forall i :: 0 <= i < |makers| ==> 0 < makers[i].Remaining()
    requires DistinctIds(makers) && !HasId(makers, taker.id)
    ensures var g := Greedy(taker, bound, makers, sequence);
            Credits(taker, makers, g.fills, g.makers)
    decreases |makers|
  {
    hide Credits, DistinctIds, HasId, FilledBy;
    if 0 < taker.Remaining() && makers != [] && Eligible(taker.side, bound, makers[0].PriceOrZero()) {
      var maker := makers[0];
      var q := Min(taker.Remaining(), maker.Remaining());
      var fill := Fill(maker.id, taker.id, maker.PriceOrZero(), q, sequence + 1);
      if maker.Remaining() <= q {
        TailIds(makers, taker.id);
        GreedyCredits(ApplyFill(taker, q), bound, makers[1..], sequence + 1);
        CreditsSameId(ApplyFill(taker, q), taker, makers[1..], Greedy(ApplyFill(taker, q), bound, makers[1..], sequence + 1));
        var rest := Greedy(ApplyFill(taker, q), bound, makers[1..], sequence + 1);
        CreditMore(taker, makers, fill, rest.fills, rest.makers);
      } else {
        CreditOne(taker, makers, fill, q);
      }
    } else {
      CreditNone(taker, makers);
    }
  }

  lemma CreditsSameId(taker: Order, taker': Order, makers: seq<Order>, g: Outcome)
    requires taker.id == taker'.id && Credits(taker, makers, g.fills, g.makers)
    ensures Credits(taker', makers, g.fills, g.makers)
  {
  }

  lemma TailIds(makers: seq<Order>, id: OrderId)
    requires makers != [] && DistinctIds(makers) && !HasId(makers, id)
    ensures DistinctIds(makers[1..]) && !HasId(makers[1..], id) && !HasId(makers[1..], makers[0].id)
    ensures makers[0].id != id
  {
  }

  lemma CreditNone(taker: Order, makers: seq<Order>)
    requires forall i :: 0 <= i < |makers| ==> 0 < makers[i].Remaining()
    ensures Credits(taker, makers, [], makers)
  {
  }

  lemma CreditOne(taker: Order, makers: seq<Order>, fill: Fill, q: int)
    requires makers != [] && 0 < q < makers[0].Remaining()
    requires DistinctIds(makers) && !HasId(makers, taker.id)
    requires fill == Fill(makers[0].id, taker.id, makers[0].PriceOrZero(), q, fill.sequence)
    requires forall i :: 0 <= i < |makers| ==> 0 < makers[i].Remaining()
    ensures Credits(taker, makers, [fill], [ApplyFill(makers[0], q)] + makers[1..])
  {
    assert forall id :: FilledBy([fill], id) == if id == makers[0].id || id == taker.id then q else 0;
    assert HasId(makers, makers[0].id);
    forall i | 0 <= i < |makers|
      ensures makers[i].id != taker.id
    {
      assert HasId(makers, makers[i].id);
    }
  }

  lemma CreditMore(taker: Order, makers: seq<Order>, fill: Fill, fills: seq<Fill>, left: seq<Order>)
    requires makers != [] && 0 < makers[0].Remaining()
    requires DistinctIds(makers) && !HasId(makers, taker.id)
    requires fill == Fill(makers[0].id, taker.id, makers[0].PriceOrZero(), makers[0].Remaining(), fill.sequence)
    requires Credits(taker, makers[1..], fills, left)
    ensures Credits(taker, makers, [fill] + fills, left)
  {
    var all := [fill] + fills;
    assert all[1..] == fills;
    forall id
      ensures FilledBy(all, id) == (if id == makers[0].id || id == taker.id then makers[0].Remaining() else 0) + FilledBy(fills, id)
    {
    }
    assert forall i :: 0 < i < |makers| ==> makers[i] == makers[1..][i - 1];
    assert !HasId(makers[1..], makers[0].id);
    forall i | 0 <= i < |makers|
      ensures makers[i].id != taker.id
      ensures 0 <= FilledBy(all, makers[i].id) <= makers[i].Remaining()
    {
      assert HasId(makers, makers[i].id);
      if i != 0 { assert makers[1..][i - 1].id == makers[i].id; }
    }
    forall id | id != taker.id && !HasId(makers, id)
      ensures FilledBy(all, id) == 0
    {
      assert HasId(makers, makers[0].id);
      assert !HasId(makers[1..], id);
    }
    var n := |makers| - |left|;
    forall j | 0 <= j < |left|
      ensures SameOrder(makers[n + j], left[j])
      ensures left[j].filled == makers[n + j].filled + FilledBy(all, left[j].id)
    {
      assert makers[1..][n - 1 + j] == makers[n + j];
      assert HasId(makers, makers[n + j].id);
    }
  }

  /** A resting order goes back to the event that submitted it. */
  ghost predicate From(events: seq<Event>, r: Order) {
    exists i :: 0 <= i < |events| && events[i].Submit? && SameOrder(events[i].order, r)
  }

  lemma FromLater(events: seq<Event>, r: Order)
    requires events != [] && From(events[..|events| - 1], r)
    ensures From(events, r)
  {
    var earlier := events[..|events| - 1];
    var i :| 0 <= i < |earlier| && earlier[i].Submit? && SameOrder(earlier[i].order, r);
    assert events[i] == earlier[i];
  }

  lemma FromSame(events: seq<Event>, r: Order, r': Order)
    requires From(events, r) && SameOrder(r, r')
    ensures From(events, r')
  {
    var i :| 0 <= i < |events| && events[i].Submit? && SameOrder(events[i].order, r);
    assert SameOrder(events[i].order, r');
  }

  lemma FreshToSide(v: View, id: OrderId, side: Side)
    requires !v.Contains(id)
    ensures !HasId(v.On(side), id)
  {
  }

  lemma OtherSide(v: View, side: Side, r: Order)
    requires LiveView(v) && r in v.On(side)
    ensures HasId(v.On(side), r.id) && !HasId(v.On(side.Opposite()), r.id) && v.Contains(r.id)
    ensures 0 < r.Remaining()
  {
    var i :| 0 <= i < |v.On(side)| && v.On(side)[i] == r;
  }

  lemma MatchCredits(e: Engine, o: Order)
    requires LiveView(e.view) && !e.view.Contains(o.id)
    ensures var g := Matched(e, o);
            Credits(o, e.view.On(o.side.Opposite()), g.fills, g.makers)
  {
    hide Credits, Greedy;
    FreshToSide(e.view, o.id, o.side.Opposite());
    GreedyCredits(o, BoundOf(o), e.view.On(o.side.Opposite()), e.sequence);
  }

  /** `r` was on `s` before, and `fills` account for the difference. */
  ghost predicate Credited(s: seq<Order>, fills: seq<Fill>, r: Order) {
    exists prior :: prior in s && SameOrder(prior, r) && r.filled == prior.filled + FilledBy(fills, r.id)
  }

  lemma CreditedUntouched(s: seq<Order>, fills: seq<Fill>, r: Order)
    requires r in s && FilledBy(fills, r.id) == 0
    ensures Credited(s, fills, r)
  {
    assert SameOrder(r, r);
  }

  lemma CreditedMaker(taker: Order, makers: seq<Order>, fills: seq<Fill>, left: seq<Order>, r: Order)
    requires Credits(taker, makers, fills, left) && r in left
    ensures Credited(makers, fills, r)
  {
    var j :| 0 <= j < |left| && left[j] == r;
    var prior := makers[|makers| - |left| + j];
    assert prior in makers && SameOrder(prior, r);
  }

  lemma CreditsOutsider(taker: Order, makers: seq<Order>, fills: seq<Fill>, left: seq<Order>, id: OrderId)
    requires Credits(taker, makers, fills, left)
    ensures id != taker.id && !HasId(makers, id) ==> FilledBy(fills, id) == 0
    ensures FilledBy(fills, taker.id) == FillTotal(fills)
    ensures forall r :: r in makers && r.id == id ==> 0 <= FilledBy(fills, id) <= r.Remaining()
  {
    forall r | r in makers && r.id == id
      ensures 0 <= FilledBy(fills, id) <= r.Remaining()
    {
      var i :| 0 <= i < |makers| && makers[i] == r;
    }
  }

  /** Where every order of the next view comes from, and how the step's fills credit it. */
  lemma ProcessCredits(e: Engine, o: Order, side: Side, r: Order)
    requires LiveView(e.view) && Incoming(o) && !e.view.Contains(o.id)
    requires r in Process(e, o).engine.view.On(side)
    ensures Credited(e.view.On(side), Process(e, o).executed, r)
         || (side == o.side && SameOrder(o, r) && r.filled == FilledBy(Process(e, o).executed, r.id))
  {
    hide LiveView, Credits, Credited, Greedy, PoursOver, Consume, Rest, HasId;
    var p := Process(e, o);
    var makers := e.view.On(o.side.Opposite());
    if o.quantity <= 0 {
      CreditedUntouched(e.view.On(side), p.executed, r);
    } else {
      MatchCredits(e, o);
      var g := Matched(e, o);
      if side == o.side.Opposite() {
        CreditedMaker(o, makers, g.fills, g.makers, r);
      } else {
        ProcessShape(e, o);
        CreditsOutsider(o, makers, g.fills, g.makers, r.id);
        if r in e.view.On(side) {
          OtherSide(e.view, side, r);
          CreditedUntouched(e.view.On(side), p.executed, r);
        } else {
          LiveParts(e.view, side);
          RestMembers(side, e.view.On(side), AfterTrading(o, TradedBy(e, o)));
          assert r == AfterTrading(o, TradedBy(e, o));
        }
      }
    }
  }

  /** The bookkeeping of a run: every resting order comes from its submission and its `filled` is
      what the fills say; no order is ever filled beyond its quantity; unknown ids have no fills. */
  ghost predicate Accounted(events: seq<Event>) {
    && (forall id :: !Submitted(events, id) ==> FilledBy(Trades(events), id) == 0)
    && (forall side: Side, r :: r in Run(events).view.On(side) ==>
          From(events, r) && r.filled == FilledBy(Trades(events), r.id))
    && (forall i :: 0 <= i < |events| && events[i].Submit? ==>
          0 <= FilledBy(Trades(events), events[i].order.id) <= Max(0, events[i].order.quantity))
  }

  lemma {:induction false} HistoryIds(events: seq<Event>, i: nat, j: nat)
    requires History(events) && i < j < |events| && events[i].Submit? && events[j].Submit?
    ensures events[i].order.id != events[j].order.id
  {
    var earlier := events[..|events| - 1];
    if j < |events| - 1 {
      HistoryIds(earlier, i, j);
    } else {
      assert earlier[i] == events[i];
    }
  }

  lemma {:induction false} RunAccounted(events: seq<Event>)
    requires History(events)
    ensures Accounted(events)
  {
    if events != [] {
      var earlier, last := events[..|events| - 1], events[|events| - 1];
      RunAccounted(earlier);
      RunKeepsBook(earlier);
      AccountUnknown(events);
      AccountResting(events);
      AccountSubmitted(events);
    }
  }

  ghost predicate Known(events: seq<Event>) {
    forall id :: Run(events).view.Contains(id) ==> Submitted(events, id)
  }

  lemma AccountUnknown(events: seq<Event>)
    requires History(events) && events != [] && Accounted(events[..|events| - 1])
    requires LiveView(Run(events[..|events| - 1]).view)
    requires Known(events[..|events| - 1])
    ensures forall id :: !Submitted(events, id) ==> FilledBy(Trades(events), id) == 0
  {
    var earlier, last := events[..|events| - 1], events[|events| - 1];
    var e := Run(earlier);
    forall id | !Submitted(events, id)
      ensures FilledBy(Trades(events), id) == 0
    {
      SubmittedGrows(events, id);
      FilledByConcat(Trades(earlier), Executed(e, last), id);
      StepCredit(e, last, id);
    }
  }

  /** What one event adds to the fills naming `id`. */
  lemma StepCredit(e: Engine, ev: Event, id: OrderId)
    requires LiveView(e.view)
    requires ev.Submit? ==> Incoming(ev.order) && !e.view.Contains(ev.order.id)
    ensures ev.CancelById? ==> FilledBy(Executed(e, ev), id) == 0
    ensures ev.Submit? && ev.order.id == id ==> 0 <= FilledBy(Executed(e, ev), id) <= Max(0, ev.order.quantity)
    ensures !e.view.Contains(id) && !(ev.Submit? && ev.order.id == id) ==> FilledBy(Executed(e, ev), id) == 0
    ensures forall side: Side, r :: r in e.view.On(side) && r.id == id ==> 0 <= FilledBy(Executed(e, ev), id) <= r.Remaining()
  {
    hide LiveView, Credits, Greedy, PoursOver, Consume, Rest, HasId, ViewAfter;
    forall side: Side, r | r in e.view.On(side) && r.id == id
      ensures 0 < r.Remaining() && !HasId(e.view.On(side.Opposite()), id) && e.view.Contains(id)
    {
      OtherSide(e.view, side, r);
    }
    if ev.Submit? && 0 < ev.order.quantity {
      var o := ev.order;
      var makers := e.view.On(o.side.Opposite());
      var g := Matched(e, o);
      MatchCredits(e, o);
      ProcessShape(e, o);
      CreditsOutsider(o, makers, g.fills, g.makers, id);
      if !e.view.Contains(id) { FreshToSide(e.view, id, o.side.Opposite()); }
    }
  }

  lemma AccountResting(events: seq<Event>)
    requires History(events) && events != [] && Accounted(events[..|events| - 1])
    requires LiveView(Run(events[..|events| - 1]).view)
    requires Known(events[..|events| - 1])
    ensures forall side: Side, r :: r in Run(events).view.On(side) ==>
              From(events, r) && r.filled == FilledBy(Trades(events), r.id)
  {
    var earlier, last := events[..|events| - 1], events[|events| - 1];
    var e := Run(earlier);
    forall side: Side, r | r in Run(events).view.On(side)
      ensures From(events, r) && r.filled == FilledBy(Trades(events), r.id)
    {
      FilledByConcat(Trades(earlier), Executed(e, last), r.id);
      if last.Submit? {
        var o := last.order;
        ProcessCredits(e, o, side, r);
        if Credited(e.view.On(side), Process(e, o).executed, r) {
          var prior :| prior in e.view.On(side) && SameOrder(prior, r) && r.filled == prior.filled + FilledBy(Process(e, o).executed, r.id);
          FromSame(earlier, prior, r);
          FromLater(events, r);
        } else {
          assert events[|events| - 1].Submit? && SameOrder(events[|events| - 1].order, r);
        }
      } else {
        CancelKeepsView(e, last.id);
        FromLater(events, r);
      }
    }
  }

  lemma AccountSubmitted(events: seq<Event>)
    requires History(events) && events != [] && Accounted(events[..|events| - 1])
    requires LiveView(Run(events[..|events| - 1]).view)
    requires Known(events[..|events| - 1])
    ensures forall i :: 0 <= i < |events| && events[i].Submit? ==>
              0 <= FilledBy(Trades(events), events[i].order.id) <= Max(0, events[i].order.quantity)
  {
    hide *;
    forall i | 0 <= i < |events| && events[i].Submit?
      ensures 0 <= FilledBy(Trades(events), events[i].order.id) <= Max(0, events[i].order.quantity)
    {
      AccountOne(events, i);
    }
  }

  lemma HistoryLast(events: seq<Event>)
    requires History(events) && events != []
    ensures var earlier, last := events[..|events| - 1], events[|events| - 1];
            History(earlier) && (last.Submit? ==> Incoming(last.order) && !Submitted(earlier, last.order.id))
  {
  }

  lemma AccountedAt(events: seq<Event>, i: nat)
    requires Accounted(events) && i < |events| && events[i].Submit?
    ensures 0 <= FilledBy(Trades(events), events[i].order.id) <= Max(0, events[i].order.quantity)
  {
  }

  lemma AccountedNew(events: seq<Event>, id: OrderId)
    requires Accounted(events) && !Submitted(events, id)
    ensures FilledBy(Trades(events), id) == 0
  {
  }

  lemma AccountOne(events: seq<Event>, i: nat)
    requires History(events) && i < |events| && events[i].Submit? && Accounted(events[..|events| - 1])
    requires LiveView(Run(events[..|events| - 1]).view)
    requires Known(events[..|events| - 1])
    ensures 0 <= FilledBy(Trades(events), events[i].order.id) <= Max(0, events[i].order.quantity)
  {
    hide LiveView, Process, FilledBy, Run, Executed, History, Accounted, Submitted;
    HistoryLast(events);
    var earlier, last := events[..|events| - 1], events[|events| - 1];
    var e := Run(earlier);
    var o := events[i].order;
    FilledByConcat(Trades(earlier), Executed(e, last), o.id);
    StepCredit(e, last, o.id);
    if i < |earlier| {
      assert earlier[i] == events[i];
      AccountedAt(earlier, i);
      if last.Submit? { HistoryIds(events, i, |events| - 1); }
      if e.view.Contains(o.id) {
        RestingOf(earlier, o.id, i);
      }
    } else {
      AccountedNew(earlier, o.id);
    }
  }

  lemma FindResting(v: View, id: OrderId) returns (side: Side, r: Order)
    requires v.Contains(id)
    ensures r in v.On(side) && r.id == id
  {
    side := if HasId(v.bids, id) then Bid else Ask;
    var k :| 0 <= k < |v.On(side)| && v.On(side)[k].id == id;
    r := v.On(side)[k];
  }

  lemma FromUnique(events: seq<Event>, r: Order, i: nat)
    requires History(events) && From(events, r)
    requires i < |events| && events[i].Submit? && events[i].order.id == r.id
    ensures SameOrder(events[i].order, r)
  {
    hide History;
    var j :| 0 <= j < |events| && events[j].Submit? && SameOrder(events[j].order, r);
    if j < i { HistoryIds(events, j, i); }
    if i < j { HistoryIds(events, i, j); }
  }

  /** The resting order with a submitted id is that submission, partly filled. */
  lemma RestingOf(events: seq<Event>, id: OrderId, i: nat)
    requires History(events) && Accounted(events) && Run(events).view.Contains(id)
    requires i < |events| && events[i].Submit? && events[i].order.id == id
    ensures exists side: Side, r :: r in Run(events).view.On(side) && r.id == id && SameOrder(events[i].order, r)
                                    && r.filled == FilledBy(Trades(events), id)
  {
    hide History, Run, Trades, FilledBy, From, SameOrder;
    var side, r := FindResting(Run(events).view, id);
    assert From(events, r) && r.filled == FilledBy(Trades(events), r.id);
    FromUnique(events, r, i);
  }

  // ---------- Time priority ----------

  /** Orders arrive with ever larger sequence numbers. */
  ghost predicate Increasing(events: seq<Event>) {
    forall i, j :: 0 <= i < j < |events| && events[i].Submit? && events[j].Submit? ==>
      events[i].order.sequence < events[j].order.sequence
  }

  /** Within a price, older first. */
  ghost predicate TimeOrdered(side: Side, s: seq<Order>) {
    forall i, j :: 0 <= i < j < |s| && RankOf(side, s[i]) == RankOf(side, s[j]) ==> s[i].sequence < s[j].sequence
  }

  /** `a` goes before `b`: better price, or same price and older. */
  predicate Precedes(side: Side, a: Order, b: Order) {
    RankOf(side, a) < RankOf(side, b) || (RankOf(side, a) == RankOf(side, b) && a.sequence < b.sequence)
  }

  lemma LiveSideParts(side: Side, s: seq<Order>)
    requires LiveSide(side, s)
    ensures Sorted(side, s) && AllResting(side, s)
  {
  }

  lemma TimeOrderedConsume(side: Side, s: seq<Order>, q: int)
    requires LiveSide(side, s) && TimeOrdered(side, s) && 0 <= q
    ensures TimeOrdered(side, Consume(s, q))
  {
    hide Consume, LiveSide;
    assert AllResting(side, s) by { LiveSideParts(side, s); }
    var n := ConsumeIsSuffix(side, s, q);
    var c := Consume(s, q);
    forall i | 0 <= i < |c|
      ensures 0 <= n + i < |s| && c[i].sequence == s[n + i].sequence && RankOf(side, c[i]) == RankOf(side, s[n + i])
    {
      if 0 < i { assert c[i] == s[n + i]; }
    }
    forall i, j | 0 <= i < j < |c| && RankOf(side, c[i]) == RankOf(side, c[j])
      ensures c[i].sequence < c[j].sequence
    {
      assert s[n + i].sequence < s[n + j].sequence;
    }
  }

  lemma TimeOrderedInsertion(side: Side, a: seq<Order>, o: Order, b: seq<Order>)
    requires TimeOrdered(side, a + b)
    requires forall r :: r in a ==> r.sequence < o.sequence
    requires forall i :: 0 <= i < |b| ==> RankOf(side, o) < RankOf(side, b[i])
    ensures TimeOrdered(side, a + [o] + b)
  {
    var s, t := a + b, a + [o] + b;
    forall i, j | 0 <= i < j < |t| && RankOf(side, t[i]) == RankOf(side, t[j])
      ensures t[i].sequence < t[j].sequence
    {
      if j == |a| {
        assert t[i] == a[i];
      } else if i != |a| {
        assert t[i] == s[if i < |a| then i else i - 1] && t[j] == s[if j < |a| then j else j - 1];
      }
    }
  }

  lemma TimeOrderedRest(side: Side, s: seq<Order>, o: Order)
    requires Sorted(side, s) && TimeOrdered(side, s)
    requires forall r :: r in s ==> r.sequence < o.sequence
    ensures TimeOrdered(side, Rest(side, s, o))
  {
    hide Rest, Sorted, TimeOrdered;
    var n := RestIsInsertion(side, s, o);
    assert s[..n] + s[n..] == s;
    assert forall i :: 0 <= i < n ==> s[..n][i] == s[i];
    TimeOrderedInsertion(side, s[..n], o, s[n..]);
  }

  lemma TimeOrderedStep(e: Engine, o: Order, side: Side)
    requires LiveView(e.view) && Incoming(o)
    requires TimeOrdered(side, e.view.On(side))
    requires side == o.side ==> forall r :: r in e.view.On(side) ==> r.sequence < o.sequence
    ensures TimeOrdered(side, Process(e, o).engine.view.On(side))
  {
    hide LiveView, PoursOver, TimeOrdered, Process, Consume, Rest;
    ProcessShape(e, o);
    LiveParts(e.view, side);
    var t := TradedBy(e, o);
    if side == o.side.Opposite() {
      TimeOrderedConsume(side, e.view.On(side), t);
    } else if Rests(o, t) {
      TimeOrderedRest(side, e.view.On(side), AfterTrading(o, t));
    }
  }

  lemma TimeOrderedCons(side: Side, x: Order, s: seq<Order>)
    requires TimeOrdered(side, s)
    requires forall y :: y in s && RankOf(side, x) == RankOf(side, y) ==> x.sequence < y.sequence
    ensures TimeOrdered(side, [x] + s)
  {
  }

  lemma TimeOrderedTail(side: Side, s: seq<Order>)
    requires TimeOrdered(side, s) && s != []
    ensures TimeOrdered(side, s[1..])
    ensures forall y :: y in s[1..] && RankOf(side, s[0]) == RankOf(side, y) ==> s[0].sequence < y.sequence
  {
    forall y | y in s[1..] && RankOf(side, s[0]) == RankOf(side, y)
      ensures s[0].sequence < y.sequence
    {
      var i :| 0 <= i < |s[1..]| && s[1..][i] == y;
      assert s[i + 1] == y;
    }
    assert forall i :: 0 <= i < |s[1..]| ==> s[1..][i] == s[i + 1];
  }

  lemma {:induction false} TimeOrderedWithout(side: Side, s: seq<Order>, id: OrderId)
    requires TimeOrdered(side, s)
    ensures TimeOrdered(side, Without(s, id))
  {
    hide TimeOrdered;
    if s == [] {
    } else {
      TimeOrderedTail(side, s);
      TimeOrderedWithout(side, s[1..], id);
      WithoutIsSubsequence(s[1..], id);
      TimeOrderedCons(side, s[0], Without(s[1..], id));
    }
  }

  lemma {:induction false} RunTimeOrdered(events: seq<Event>, side: Side)
    requires History(events) && Increasing(events)
    ensures TimeOrdered(side, Run(events).view.On(side))
  {
    if events != [] {
      var earlier, last := events[..|events| - 1], events[|events| - 1];
      var e := Run(earlier);
      RunTimeOrdered(earlier, side);
      RunKeepsBook(earlier);
      RunAccounted(earlier);
      match last {
        case Submit(o) =>
          forall r | r in e.view.On(side)
            ensures r.sequence < o.sequence
          {
            var i :| 0 <= i < |earlier| && earlier[i].Submit? && SameOrder(earlier[i].order, r);
            assert events[i] == earlier[i];
          }
          TimeOrderedStep(e, o, side);
        case CancelById(id) => TimeOrderedWithout(side, e.view.On(side), id);
      }
    }
  }

  lemma PriorityOnSide(side: Side, makers: seq<Order>, fills: seq<Fill>, left: seq<Order>, i: nat)
    requires Sorted(side, makers) && TimeOrdered(side, makers) && InPriorityOrder(makers, fills, left)
    requires i < |fills|
    ensures i < |makers| && fills[i].makerOrderId == makers[i].id && fills[i].price == makers[i].PriceOrZero()
    ensures forall r :: r in left ==> r.id == makers[i].id || Precedes(side, makers[i], r)
  {
    var n := |makers| - |left|;
    forall r | r in left
      ensures r.id == makers[i].id || Precedes(side, makers[i], r)
    {
      var j :| 0 <= j < |left| && left[j] == r;
      assert RankOf(side, makers[n + j]) == RankOf(side, r);
      if i < n + j { assert RankOf(side, makers[i]) <= RankOf(side, makers[n + j]); }
    }
  }

  /** No order trades while one that goes before it is still waiting: each fill's maker precedes
      every order left on its side, other than itself. */
  lemma PriceTimePriority(events: seq<Event>, o: Order, i: nat)
    requires History(events) && Increasing(events) && Incoming(o)
    requires i < |Process(Run(events), o).executed|
    ensures var e := Run(events);
            var side := o.side.Opposite();
            var fill := Process(e, o).executed[i];
            && i < |e.view.On(side)|
            && var maker := e.view.On(side)[i];
            && fill.makerOrderId == maker.id
            && fill.price == maker.PriceOrZero()
            && forall r :: r in Process(e, o).engine.view.On(side) ==> r.id == maker.id || Precedes(side, maker, r)
  {
    hide History, Increasing, Run, LiveView, LiveSide, InPriorityOrder, TimeOrdered, Sorted, Greedy, Precedes;
    var e := Run(events);
    var side := o.side.Opposite();
    RunKeepsBook(events);
    RunTimeOrdered(events, side);
    LiveParts(e.view, side);
    LiveSideParts(side, e.view.On(side));
    GreedyPriority(o, BoundOf(o), e.view.On(side), e.sequence);
    var g := Matched(e, o);
    PriorityOnSide(side, e.view.On(side), g.fills, g.makers, i);
  }
}
