/** Replaying an order log: what two engines that differ only inside their price levels agree on,
    what changes when only the fill sequence differs, and how stale published prices can be. */
module Replay {
  import opened Types
  import opened PriceTime
  import opened Waterfall
  import opened ProcessLaws

  type Log = seq<Order>

  datatype BookUpdate = BookUpdate(bestBid: Option<Price>, bestAsk: Option<Price>)

  function Front(log: Log): Log
    requires log != []
  {
    log[..|log| - 1]
  }

  function Last(log: Log): Order
    requires log != []
  {
    log[|log| - 1]
  }

  /** The engine after a log. */
  function ReplayLog(e: Engine, log: Log): Engine {
    if log == [] then e else Process(ReplayLog(e, Front(log)), Last(log)).engine
  }

  /** The fills executed along a log. */
  function ReplayFills(e: Engine, log: Log): seq<Fill> {
    if log == [] then [] else ReplayFills(e, Front(log)) + Process(ReplayLog(e, Front(log)), Last(log)).executed
  }

  /** The fills the engine thread sends on: those of successful results. */
  function SentFills(e: Engine, log: Log): seq<Fill> {
    if log == [] then []
    else
      var r := Process(ReplayLog(e, Front(log)), Last(log)).result;
      SentFills(e, Front(log)) + (if Publishes(r) then r.value.fills else [])
  }

  predicate Publishes(r: Result<ProcessResult, EngineError>) {
    r.Ok? && r.value.Fills?
  }

  function Prices(v: View): BookUpdate {
    BookUpdate(BestPrice(v.bids), BestPrice(v.asks))
  }

  /** The best prices the engine thread publishes: after every order reported as fills. */
  function Updates(e: Engine, log: Log): seq<BookUpdate> {
    if log == [] then []
    else
      var p := Process(ReplayLog(e, Front(log)), Last(log));
      Updates(e, Front(log)) + (if Publishes(p.result) then [Prices(p.engine.view)] else [])
  }

  /** A log that can follow `v`: unfilled orders under ids of their own. */
  ghost predicate Follows(v: View, log: Log) {
    && (forall i :: 0 <= i < |log| ==> Incoming(log[i]) && !v.Contains(log[i].id))
    && (forall i, j :: 0 <= i < j < |log| ==> log[i].id != log[j].id)
  }

  lemma {:induction false} ReplayConcat(e: Engine, a: Log, b: Log)
    ensures ReplayLog(e, a + b) == ReplayLog(ReplayLog(e, a), b)
    ensures ReplayFills(e, a + b) == ReplayFills(e, a) + ReplayFills(ReplayLog(e, a), b)
    ensures Updates(e, a + b) == Updates(e, a) + Updates(ReplayLog(e, a), b)
  {
    hide Process, Publishes, Prices;
    if b == [] {
      assert a + b == a;
    } else {
      assert Front(a + b) == a + Front(b) && Last(a + b) == Last(b);
      ReplayConcat(e, a, Front(b));
      assert ReplayLog(e, Front(a + b)) == ReplayLog(ReplayLog(e, a), Front(b));
    }
  }

  lemma {:induction false} ReplayKeepsLive(e: Engine, log: Log)
    requires LiveView(e.view) && Follows(e.view, log)
    ensures LiveView(ReplayLog(e, log).view)
    ensures forall id :: ReplayLog(e, log).view.Contains(id) ==> e.view.Contains(id) || exists i :: 0 <= i < |log| && log[i].id == id
  {
    hide LiveView, Process;
    if log != [] {
      ReplayKeepsLive(e, Front(log));
      var mid := ReplayLog(e, Front(log));
      NextIsFresh(e, log);
      ProcessKeepsLive(mid, Last(log));
      forall id | ReplayLog(e, log).view.Contains(id)
        ensures e.view.Contains(id) || exists i :: 0 <= i < |log| && log[i].id == id
      {
        if id == Last(log).id {
          assert log[|log| - 1].id == id;
        } else if !e.view.Contains(id) {
          var i :| 0 <= i < |Front(log)| && Front(log)[i].id == id;
          assert log[i].id == id;
        }
      }
    }
  }

  lemma NextIsFresh(e: Engine, log: Log)
    requires log != [] && Follows(e.view, log)
    requires forall id :: ReplayLog(e, Front(log)).view.Contains(id) ==>
               e.view.Contains(id) || exists i :: 0 <= i < |Front(log)| && Front(log)[i].id == id
    ensures Incoming(Last(log)) && !ReplayLog(e, Front(log)).view.Contains(Last(log).id)
  {
  }

  /** The rest of a log can follow what its beginning leads to. */
  lemma FollowsRest(e: Engine, log: Log, n: nat)
    requires LiveView(e.view) && Follows(e.view, log) && n <= |log|
    ensures Follows(e.view, log[..n]) && Follows(ReplayLog(e, log[..n]).view, log[n..])
  {
    hide LiveView, Process, ReplayLog;
    ReplayKeepsLive(e, log[..n]);
    forall i | 0 <= i < |log[n..]|
      ensures !ReplayLog(e, log[..n]).view.Contains(log[n..][i].id)
    {
      assert log[n..][i] == log[n + i];
    }
  }

  // ---------- Engines that differ only inside their levels ----------

  /** Both views rest the same quantity at every rank or better, on each side. */
  ghost predicate SameDepth(v: View, w: View) {
    forall side: Side, r :: Depth(side, v.On(side), r) == Depth(side, w.On(side), r)
  }

  /** Fills at rank `r` or better. */
  function FillDepth(side: Side, fills: seq<Fill>, r: int): int {
    if fills == [] then 0
    else (if Rank(side, fills[0].price) <= r then fills[0].quantity else 0) + FillDepth(side, fills[1..], r)
  }

  /** Fills at exactly price `p`. */
  function FillsAt(fills: seq<Fill>, p: Price): int {
    if fills == [] then 0
    else (if fills[0].price == p then fills[0].quantity else 0) + FillsAt(fills[1..], p)
  }

  lemma {:induction false} FillsAtFromDepth(side: Side, fills: seq<Fill>, p: Price)
    ensures FillsAt(fills, p) == FillDepth(side, fills, Rank(side, p)) - FillDepth(side, fills, Rank(side, p) - 1)
  {
    if fills != [] {
      FillsAtFromDepth(side, fills[1..], p);
    }
  }

  lemma {:induction false} GreedyFillDepth(taker: Order, bound: Option<Price>, makers: seq<Order>, sequence: nat, r: int)
    requires LiveSide(taker.side.Opposite(), makers) && 0 <= taker.Remaining()
    ensures FillDepth(taker.side.Opposite(), Greedy(taker, bound, makers, sequence).fills, r)
         == Min(Traded(taker, bound, makers), Depth(taker.side.Opposite(), makers, r))
    decreases |makers|
  {
    var side := taker.side.Opposite();
    DepthNonNegative(side, makers, r);
    if makers != [] {
      ReachOfFront(taker.side, bound, makers);
      FrontRests(side, makers);
      DepthNonNegative(side, makers[1..], r);
      if RankOf(side, makers[0]) > r {
        DepthBeyond(side, makers, r);
      }
      if 0 < taker.Remaining() && Eligible(taker.side, bound, makers[0].PriceOrZero()) {
        var q := Min(taker.Remaining(), makers[0].Remaining());
        var g := Greedy(taker, bound, makers, sequence);
        if makers[0].Remaining() <= q {
          GreedyFillDepth(ApplyFill(taker, q), bound, makers[1..], sequence + 1, r);
          assert g.fills[1..] == Greedy(ApplyFill(taker, q), bound, makers[1..], sequence + 1).fills;
        } else {
          assert g.fills[1..] == [];
        }
      }
    }
  }

  /** The best price is where the depth profile first becomes positive. */
  lemma BestFromDepth(side: Side, s: seq<Order>, t: seq<Order>)
    requires LiveSide(side, s) && LiveSide(side, t)
    requires forall r :: Depth(side, s, r) == Depth(side, t, r)
    ensures BestPrice(s) == BestPrice(t)
  {
    if s != [] {
      BestNotWorse(side, s, t);
    }
    if t != [] {
      BestNotWorse(side, t, s);
    }
  }

  lemma BestNotWorse(side: Side, s: seq<Order>, t: seq<Order>)
    requires LiveSide(side, s) && LiveSide(side, t) && s != []
    requires forall r :: Depth(side, s, r) == Depth(side, t, r)
    ensures t != [] && RankOf(side, t[0]) <= RankOf(side, s[0])
  {
    var r := RankOf(side, s[0]);
    DepthNonNegative(side, s, r);
    assert Depth(side, s, r) == Depth(side, t, r);
    if t != [] && r < RankOf(side, t[0]) {
      DepthBeyond(side, t, r);
      assert false;
    }
  }

  /** The depth profile determines the total, through the rank of the worst price. */
  lemma {:induction false} WorstRank(side: Side, s: seq<Order>) returns (r: int)
    ensures forall i :: 0 <= i < |s| ==> RankOf(side, s[i]) <= r
  {
    if s == [] {
      r := 0;
    } else {
      r := WorstRank(side, s[1..]);
      r := Max(r, RankOf(side, s[0]));
    }
  }

  lemma TotalFromDepth(side: Side, s: seq<Order>, t: seq<Order>)
    requires forall r :: Depth(side, s, r) == Depth(side, t, r)
    ensures Total(s) == Total(t)
  {
    var a := WorstRank(side, s);
    var b := WorstRank(side, t);
    DepthOfAll(side, s, Max(a, b));
    DepthOfAll(side, t, Max(a, b));
  }

  lemma SameReach(v: View, w: View, o: Order)
    requires SameDepth(v, w)
    ensures Reach(o.side, BoundOf(o), v.On(o.side.Opposite())) == Reach(o.side, BoundOf(o), w.On(o.side.Opposite()))
  {
    var side := o.side.Opposite();
    assert forall r :: Depth(side, v.On(side), r) == Depth(side, w.On(side), r);
    TotalFromDepth(side, v.On(side), w.On(side));
  }

  /** What processing an order does to the depth profile, in terms of the profile alone. */
  lemma DepthAfter(e: Engine, o: Order, side: Side, r: int)
    requires LiveView(e.view) && Incoming(o)
    ensures var t := TradedBy(e, o);
            Depth(side, Process(e, o).engine.view.On(side), r)
              == if side == o.side.Opposite() then Max(0, Depth(side, e.view.On(side), r) - t)
                 else Depth(side, e.view.On(side), r) +
                      (if Rests(o, t) && RankOf(side, o) <= r then Max(0, o.quantity - t) else 0)
  {
    hide LiveView, Process, PoursOver, Rest, Consume, Depth;
    ProcessShape(e, o);
    LiveParts(e.view, side);
    var t := TradedBy(e, o);
    var s := e.view.On(side);
    if side == o.side.Opposite() {
      DepthOfConsume(side, s, t, r);
    } else {
      DepthOfRest(side, s, AfterTrading(o, t), r);
    }
  }

  /** One order on two engines with the same depth profile: the same quantity trades, at the same
      prices, the same kind of result comes back, and the profiles stay equal. */
  lemma SameDepthStep(e: Engine, f: Engine, o: Order)
    requires LiveView(e.view) && LiveView(f.view) && Incoming(o)
    requires !e.view.Contains(o.id) && !f.view.Contains(o.id)
    requires SameDepth(e.view, f.view)
    ensures var p, q := Process(e, o), Process(f, o);
            && SameDepth(p.engine.view, q.engine.view)
            && Prices(p.engine.view) == Prices(q.engine.view)
            && (Publishes(p.result) <==> Publishes(q.result))
            && FillTotal(p.executed) == FillTotal(q.executed)
            && forall x :: FillsAt(p.executed, x) == FillsAt(q.executed, x)
  {
    hide LiveView, Process, PoursOver, Depth, FillsAt, FillDepth, Traded, BestPrice;
    SameReach(e.view, f.view, o);
    assert TradedBy(e, o) == TradedBy(f, o) by { SameTraded(e, f, o); }
    ProcessShape(e, o);
    ProcessShape(f, o);
    var p, q := Process(e, o), Process(f, o);
    forall side: Side, r
      ensures Depth(side, p.engine.view.On(side), r) == Depth(side, q.engine.view.On(side), r)
    {
      DepthAfter(e, o, side, r);
      DepthAfter(f, o, side, r);
    }
    ProcessKeepsLive(e, o);
    ProcessKeepsLive(f, o);
    SamePrices(p.engine.view, q.engine.view);
    forall x
      ensures FillsAt(p.executed, x) == FillsAt(q.executed, x)
    {
      SameFillsAt(e, f, o, x);
    }
  }

  lemma SameTraded(e: Engine, f: Engine, o: Order)
    requires Reach(o.side, BoundOf(o), e.view.On(o.side.Opposite())) == Reach(o.side, BoundOf(o), f.view.On(o.side.Opposite()))
    ensures TradedBy(e, o) == TradedBy(f, o)
  {
  }

  lemma SamePrices(v: View, w: View)
    requires LiveView(v) && LiveView(w) && SameDepth(v, w)
    ensures Prices(v) == Prices(w)
  {
    assert forall r :: Depth(Bid, v.On(Bid), r) == Depth(Bid, w.On(Bid), r);
    assert forall r :: Depth(Ask, v.On(Ask), r) == Depth(Ask, w.On(Ask), r);
    BestFromDepth(Bid, v.bids, w.bids);
    BestFromDepth(Ask, v.asks, w.asks);
  }

  /** What rests at exactly price `p`. */
  function RestingAt(s: seq<Order>, p: Price): int {
    if s == [] then 0
    else (if s[0].PriceOrZero() == p then s[0].Remaining() else 0) + RestingAt(s[1..], p)
  }

  lemma {:induction false} RestingAtFromDepth(side: Side, s: seq<Order>, p: Price)
    ensures RestingAt(s, p) == Depth(side, s, Rank(side, p)) - Depth(side, s, Rank(side, p) - 1)
  {
    if s != [] {
      RestingAtFromDepth(side, s[1..], p);
    }
  }

  /** Equal depth profiles rest the same quantity at every single price. */
  lemma SameDepthSameLevels(v: View, w: View, side: Side, p: Price)
    requires SameDepth(v, w)
    ensures RestingAt(v.On(side), p) == RestingAt(w.On(side), p)
  {
    RestingAtFromDepth(side, v.On(side), p);
    RestingAtFromDepth(side, w.On(side), p);
    SameDepthAt(v, w, side, Rank(side, p));
    SameDepthAt(v, w, side, Rank(side, p) - 1);
  }

  lemma SameFillsAt(e: Engine, f: Engine, o: Order, x: Price)
    requires LiveView(e.view) && LiveView(f.view) && Incoming(o) && SameDepth(e.view, f.view)
    requires TradedBy(e, o) == TradedBy(f, o)
    ensures FillsAt(Process(e, o).executed, x) == FillsAt(Process(f, o).executed, x)
  {
    hide SameDepth, Greedy, FillDepth, FillsAt, Depth;
    if 0 < o.quantity {
      var side := o.side.Opposite();
      LiveParts(e.view, side);
      LiveParts(f.view, side);
      forall r
        ensures FillDepth(side, Process(e, o).executed, r) == FillDepth(side, Process(f, o).executed, r)
      {
        GreedyFillDepth(o, BoundOf(o), e.view.On(side), e.sequence, r);
        GreedyFillDepth(o, BoundOf(o), f.view.On(side), f.sequence, r);
        SameDepthAt(e.view, f.view, side, r);
      }
      FillsAtFromDepth(side, Process(e, o).executed, x);
      FillsAtFromDepth(side, Process(f, o).executed, x);
    }
  }

  lemma SameDepthAt(v: View, w: View, side: Side, r: int)
    requires SameDepth(v, w)
    ensures Depth(side, v.On(side), r) == Depth(side, w.On(side), r)
  {
  }

  /** What a taker traded at a price. */
  function TakerFilledAt(fills: seq<Fill>, id: OrderId, p: Price): int {
    if fills == [] then 0
    else (if fills[0].takerOrderId == id && fills[0].price == p then fills[0].quantity else 0) + TakerFilledAt(fills[1..], id, p)
  }

  lemma {:induction false} TakerFilledConcat(a: seq<Fill>, b: seq<Fill>, id: OrderId, p: Price)
    ensures TakerFilledAt(a + b, id, p) == TakerFilledAt(a, id, p) + TakerFilledAt(b, id, p)
  {
    if a == [] {
      assert a + b == b;
    } else {
      assert (a + b)[1..] == a[1..] + b;
      TakerFilledConcat(a[1..], b, id, p);
    }
  }

  lemma {:induction false} TakerFilledOne(fills: seq<Fill>, taker: OrderId, id: OrderId, p: Price)
    requires forall i :: 0 <= i < |fills| ==> fills[i].takerOrderId == taker
    ensures TakerFilledAt(fills, id, p) == if id == taker then FillsAt(fills, p) else 0
  {
    if fills != [] {
      TakerFilledOne(fills[1..], taker, id, p);
    }
  }

  lemma ExecutedTaker(e: Engine, o: Order)
    requires LiveView(e.view) && Incoming(o)
    ensures forall i :: 0 <= i < |Process(e, o).executed| ==> Process(e, o).executed[i].takerOrderId == o.id
  {
    hide Process, LiveView;
    ProcessShape(e, o);
  }

  lemma SameDepthTransitive(u: View, v: View, w: View)
    requires SameDepth(u, v) && SameDepth(v, w)
    ensures SameDepth(u, w)
  {
    forall side: Side, r
      ensures Depth(side, u.On(side), r) == Depth(side, w.On(side), r)
    {
      SameDepthAt(u, v, side, r);
      SameDepthAt(v, w, side, r);
    }
  }

  /** A published order sends exactly its executed fills, any other order sends none. */
  lemma SentNext(e: Engine, log: Log)
    requires log != []
    ensures var p := Process(ReplayLog(e, Front(log)), Last(log));
            SentFills(e, log) == if Publishes(p.result) then SentFills(e, Front(log)) + p.executed else SentFills(e, Front(log))
  {
    var p := Process(ReplayLog(e, Front(log)), Last(log));
    assert SentFills(e, Front(log)) + [] == SentFills(e, Front(log));
  }

  lemma Regroup<T>(a: seq<T>, b: seq<T>, c: seq<T>)
    ensures (a + b) + c == a + (b + c)
  {
  }

  lemma {:induction false} SentConcat(e: Engine, a: Log, b: Log)
    ensures SentFills(e, a + b) == SentFills(e, a) + SentFills(ReplayLog(e, a), b)
  {
    if b == [] {
      assert a + b == a;
    } else {
      hide Process, ReplayLog, Publishes, SentFills;
      assert Front(a + b) == a + Front(b) && Last(a + b) == Last(b);
      SentConcat(e, a, Front(b));
      ReplayConcat(e, a, Front(b));
      SentNext(e, a + b);
      SentNext(ReplayLog(e, a), b);
      var x := Process(ReplayLog(e, a + Front(b)), Last(b)).executed;
      Regroup(SentFills(e, a), SentFills(ReplayLog(e, a), Front(b)), x);
    }
  }

  /** The two lists give every taker the same quantity at every price. */
  ghost predicate SameTakerFills(a: seq<Fill>, b: seq<Fill>) {
    forall id, p :: TakerFilledAt(a, id, p) == TakerFilledAt(b, id, p)
  }

  lemma SameDepthSameFills(e: Engine, f: Engine, log: Log)
    requires LiveView(e.view) && LiveView(f.view) && SameDepth(e.view, f.view)
    requires Follows(e.view, log) && Follows(f.view, log)
    ensures SameTakerFills(ReplayFills(e, log), ReplayFills(f, log))
    ensures SameTakerFills(SentFills(e, log), SentFills(f, log))
  {
    hide *;
    forall id, p
      ensures TakerFilledAt(ReplayFills(e, log), id, p) == TakerFilledAt(ReplayFills(f, log), id, p)
      ensures TakerFilledAt(SentFills(e, log), id, p) == TakerFilledAt(SentFills(f, log), id, p)
    {
      SameDepthReplay(e, f, log, id, p);
    }
    FoldTakerFills(ReplayFills(e, log), ReplayFills(f, log));
    FoldTakerFills(SentFills(e, log), SentFills(f, log));
  }

  lemma FoldTakerFills(a: seq<Fill>, b: seq<Fill>)
    requires forall id, p :: TakerFilledAt(a, id, p) == TakerFilledAt(b, id, p)
    ensures SameTakerFills(a, b)
  {
  }

  /** Over any log, two live engines with the same depth profile keep the same profile, publish the
      same best prices, and give every taker the same quantity at every price. */
  lemma {:induction false} SameDepthReplay(e: Engine, f: Engine, log: Log, id: OrderId, p: Price)
    requires LiveView(e.view) && LiveView(f.view) && SameDepth(e.view, f.view)
    requires Follows(e.view, log) && Follows(f.view, log)
    ensures LiveView(ReplayLog(e, log).view) && LiveView(ReplayLog(f, log).view)
    ensures SameDepth(ReplayLog(e, log).view, ReplayLog(f, log).view)
    ensures Prices(ReplayLog(e, log).view) == Prices(ReplayLog(f, log).view)
    ensures Updates(e, log) == Updates(f, log)
    ensures TakerFilledAt(ReplayFills(e, log), id, p) == TakerFilledAt(ReplayFills(f, log), id, p)
    ensures TakerFilledAt(SentFills(e, log), id, p) == TakerFilledAt(SentFills(f, log), id, p)
  {
    hide LiveView, Process, SameDepth, FillsAt, TakerFilledAt, Prices;
    if log == [] {
      SamePrices(e.view, f.view);
    } else {
      var o := Last(log);
      SameDepthReplay(e, f, Front(log), id, p);
      var e', f' := ReplayLog(e, Front(log)), ReplayLog(f, Front(log));
      ReplayKeepsLive(e, Front(log));
      ReplayKeepsLive(f, Front(log));
      NextIsFresh(e, log);
      NextIsFresh(f, log);
      SameDepthStep(e', f', o);
      ProcessKeepsLive(e', o);
      ProcessKeepsLive(f', o);
      ExecutedTaker(e', o);
      ExecutedTaker(f', o);
      TakerFilledOne(Process(e', o).executed, o.id, id, p);
      TakerFilledOne(Process(f', o).executed, o.id, id, p);
      TakerFilledConcat(ReplayFills(e, Front(log)), Process(e', o).executed, id, p);
      TakerFilledConcat(ReplayFills(f, Front(log)), Process(f', o).executed, id, p);
      SentNext(e, log);
      SentNext(f, log);
      TakerFilledConcat(SentFills(e, Front(log)), Process(e', o).executed, id, p);
      TakerFilledConcat(SentFills(f, Front(log)), Process(f', o).executed, id, p);
    }
  }

  // ---------- Engines that differ only in the fill sequence ----------

  function Shift(f: Fill, k: nat): Fill {
    f.(sequence := f.sequence + k)
  }

  function ShiftAll(fills: seq<Fill>, k: nat): seq<Fill> {
    if fills == [] then [] else [Shift(fills[0], k)] + ShiftAll(fills[1..], k)
  }

  lemma {:induction false} ShiftConcat(a: seq<Fill>, b: seq<Fill>, k: nat)
    ensures ShiftAll(a + b, k) == ShiftAll(a, k) + ShiftAll(b, k)
  {
    if a == [] {
      assert a + b == b;
    } else {
      assert (a + b)[1..] == a[1..] + b;
      ShiftConcat(a[1..], b, k);
    }
  }

  lemma {:induction false} GreedyShift(taker: Order, bound: Option<Price>, makers: seq<Order>, sequence: nat, k: nat)
    ensures var g, h := Greedy(taker, bound, makers, sequence), Greedy(taker, bound, makers, sequence + k);
            h == Outcome(g.taker, g.makers, ShiftAll(g.fills, k), g.sequence + k)
    decreases |makers|
  {
    ShiftNothing(k);
    hide ShiftAll, Eligible;
    if 0 < taker.Remaining() && makers != [] && Eligible(taker.side, bound, makers[0].PriceOrZero()) {
      var q := Min(taker.Remaining(), makers[0].Remaining());
      var fill := Fill(makers[0].id, taker.id, makers[0].PriceOrZero(), q, sequence + 1);
      ShiftOne(fill, k);
      if makers[0].Remaining() <= q {
        GreedyShift(ApplyFill(taker, q), bound, makers[1..], sequence + 1, k);
        ShiftConcat([fill], Greedy(ApplyFill(taker, q), bound, makers[1..], sequence + 1).fills, k);
      }
    }
  }

  lemma ShiftNothing(k: nat)
    ensures ShiftAll([], k) == []
  {
  }

  lemma ShiftOne(fill: Fill, k: nat)
    ensures ShiftAll([fill], k) == [Shift(fill, k)]
  {
    assert [fill][1..] == [];
  }

  lemma ProcessShift(v: View, sequence: nat, k: nat, o: Order)
    ensures var p, q := Process(Engine(v, sequence), o), Process(Engine(v, sequence + k), o);
            && q.engine == Engine(p.engine.view, p.engine.sequence + k)
            && q.executed == ShiftAll(p.executed, k)
            && (Publishes(p.result) <==> Publishes(q.result))
  {
    if 0 < o.quantity {
      GreedyShift(o, BoundOf(o), v.On(o.side.Opposite()), sequence, k);
    }
  }

  lemma {:induction false} EngineShift(v: View, sequence: nat, k: nat, log: Log)
    ensures var a := ReplayLog(Engine(v, sequence), log);
            ReplayLog(Engine(v, sequence + k), log) == Engine(a.view, a.sequence + k)
  {
    hide Process;
    if log != [] {
      EngineShift(v, sequence, k, Front(log));
      var mid := ReplayLog(Engine(v, sequence), Front(log));
      ProcessShift(mid.view, mid.sequence, k, Last(log));
    }
  }

  /** The two engines treat the next order of a log alike. */
  lemma ShiftNext(v: View, sequence: nat, k: nat, log: Log)
    requires log != []
    ensures var p := Process(ReplayLog(Engine(v, sequence), Front(log)), Last(log));
            var q := Process(ReplayLog(Engine(v, sequence + k), Front(log)), Last(log));
            q.executed == ShiftAll(p.executed, k) && (Publishes(p.result) <==> Publishes(q.result)) && Prices(q.engine.view) == Prices(p.engine.view)
  {
    hide Process, ReplayLog, ShiftAll, Publishes, BestPrice;
    EngineShift(v, sequence, k, Front(log));
    var mid := ReplayLog(Engine(v, sequence), Front(log));
    ProcessShift(mid.view, mid.sequence, k, Last(log));
  }

  lemma {:induction false} FillsShift(v: View, sequence: nat, k: nat, log: Log)
    ensures ReplayFills(Engine(v, sequence + k), log) == ShiftAll(ReplayFills(Engine(v, sequence), log), k)
  {
    if log != [] {
      hide Process, ReplayLog, ShiftAll, Publishes, BestPrice;
      FillsShift(v, sequence, k, Front(log));
      ShiftNext(v, sequence, k, log);
      var e := Engine(v, sequence);
      ShiftConcat(ReplayFills(e, Front(log)), Process(ReplayLog(e, Front(log)), Last(log)).executed, k);
    }
  }

  lemma {:induction false} UpdatesShift(v: View, sequence: nat, k: nat, log: Log)
    ensures Updates(Engine(v, sequence + k), log) == Updates(Engine(v, sequence), log)
  {
    if log != [] {
      hide Process, ReplayLog, ShiftAll, Publishes, Prices;
      UpdatesShift(v, sequence, k, Front(log));
      ShiftNext(v, sequence, k, log);
    }
  }

  lemma {:induction false} SentShift(v: View, sequence: nat, k: nat, log: Log)
    ensures SentFills(Engine(v, sequence + k), log) == ShiftAll(SentFills(Engine(v, sequence), log), k)
  {
    if log != [] {
      var e, f := Engine(v, sequence), Engine(v, sequence + k);
      hide Process, ReplayLog, ShiftAll, Publishes, BestPrice, SentFills;
      SentShift(v, sequence, k, Front(log));
      ShiftNext(v, sequence, k, log);
      SentNext(e, log);
      SentNext(f, log);
      ShiftConcat(SentFills(e, Front(log)), Process(ReplayLog(e, Front(log)), Last(log)).executed, k);
    }
  }

  /** A different starting fill sequence shifts the fills' sequence numbers and changes nothing else. */
  lemma ReplayShift(v: View, sequence: nat, k: nat, log: Log)
    ensures var a, b := Engine(v, sequence), Engine(v, sequence + k);
            && ReplayLog(b, log) == Engine(ReplayLog(a, log).view, ReplayLog(a, log).sequence + k)
            && ReplayFills(b, log) == ShiftAll(ReplayFills(a, log), k)
            && Updates(b, log) == Updates(a, log)
            && SentFills(b, log) == ShiftAll(SentFills(a, log), k)
  {
    hide *;
    EngineShift(v, sequence, k, log);
    FillsShift(v, sequence, k, log);
    UpdatesShift(v, sequence, k, log);
    SentShift(v, sequence, k, log);
  }

  // ---------- Fill sequence numbers ----------

  /** Over a log the engine numbers its fills consecutively and gives them positive quantities. */
  lemma {:induction false} FillsNumbered(e: Engine, log: Log)
    requires LiveView(e.view) && Follows(e.view, log)
    ensures ReplayLog(e, log).sequence == e.sequence + |ReplayFills(e, log)|
    ensures forall i :: 0 <= i < |ReplayFills(e, log)| ==>
              ReplayFills(e, log)[i].sequence == e.sequence + 1 + i && 0 < ReplayFills(e, log)[i].quantity
  {
    hide LiveView, Process;
    if log != [] {
      FillsNumbered(e, Front(log));
      ReplayKeepsLive(e, Front(log));
      NextIsFresh(e, log);
      ProcessShape(ReplayLog(e, Front(log)), Last(log));
    }
  }

  /** When every limit order has a price, the engine thread sends on every fill that happened. */
  lemma {:induction false} AllFillsSent(e: Engine, log: Log)
    requires LiveView(e.view) && Follows(e.view, log)
    requires forall i :: 0 <= i < |log| ==> log[i].orderType.Limit? ==> log[i].price.Some?
    ensures SentFills(e, log) == ReplayFills(e, log)
  {
    hide LiveView, Process;
    if log != [] {
      AllFillsSent(e, Front(log));
      ReplayKeepsLive(e, Front(log));
      NextIsFresh(e, log);
      ProcessShape(ReplayLog(e, Front(log)), Last(log));
    }
  }

  // ---------- How stale published prices can be ----------

  /** The second price is at least as good as the first. */
  predicate NotWorse(side: Side, before: Option<Price>, after: Option<Price>) {
    before.Some? ==> after.Some? && Rank(side, after.value) <= Rank(side, before.value)
  }

  ghost predicate NeitherWorse(v: View, w: View) {
    NotWorse(Bid, BestPrice(v.bids), BestPrice(w.bids)) && NotWorse(Ask, BestPrice(v.asks), BestPrice(w.asks))
  }

  /** An order that empties the best opposite level although the thread reports no fills: a limit
      order without a price. */
  predicate DrainsSilently(e: Engine, o: Order) {
    var side := o.side.Opposite();
    var makers := e.view.On(side);
    && 0 < o.quantity && o.orderType.Limit? && o.price.None?
    && makers != []
    && Depth(side, makers, RankOf(side, makers[0])) <= TradedBy(e, o)
  }

  lemma BestAfterConsume(side: Side, s: seq<Order>, q: int)
    requires LiveSide(side, s) && s != [] && 0 <= q
    ensures NotWorse(side, BestPrice(s), BestPrice(Consume(s, q))) <==> q < Depth(side, s, RankOf(side, s[0]))
  {
    var r := RankOf(side, s[0]);
    var c := Consume(s, q);
    DepthNonNegative(side, s, r);
    DepthOfConsume(side, s, q, r);
    ConsumeKeepsLive(side, s, q);
    if c != [] && r < RankOf(side, c[0]) {
      DepthBeyond(side, c, r);
    }
    if c != [] {
      DepthNonNegative(side, c, r);
    }
  }

  lemma BestAfterRest(side: Side, s: seq<Order>, o: Order)
    ensures NotWorse(side, BestPrice(s), BestPrice(Rest(side, s, o)))
  {
  }

  /** An order the thread does not publish leaves neither best price worse, except exactly when it
      drains the best opposite level silently. */
  lemma StalenessStep(e: Engine, o: Order)
    requires LiveView(e.view) && Incoming(o) && !Publishes(Process(e, o).result)
    ensures NeitherWorse(e.view, Process(e, o).engine.view) <==> !DrainsSilently(e, o)
  {
    hide LiveView, Process, PoursOver, Rest, Consume, Depth;
    ProcessShape(e, o);
    var side := o.side.Opposite();
    var t := TradedBy(e, o);
    LiveParts(e.view, side);
    var own, makers := e.view.On(o.side), e.view.On(side);
    BestAfterRest(o.side, own, AfterTrading(o, t));
    if makers != [] {
      DepthNonNegative(side, makers, RankOf(side, makers[0]));
      BestAfterConsume(side, makers, t);
    } else {
      ConsumeNothing(t);
    }
    if 0 < o.quantity {
      var w := Process(e, o).engine.view;
      assert w.On(side) == Consume(makers, t);
      assert w.On(o.side) == own || w.On(o.side) == Rest(o.side, own, AfterTrading(o, t));
    } else {
      ConsumeZero(makers);
    }
  }

  lemma ConsumeNothing(q: int)
    ensures Consume([], q) == []
  {
  }

  lemma ConsumeZero(s: seq<Order>)
    ensures Consume(s, 0) == s
  {
  }

  /** What was last published along the log; before the first update, the prices at the start. */
  function LastPublished(e: Engine, log: Log): BookUpdate {
    if Updates(e, log) == [] then Prices(e.view) else Updates(e, log)[|Updates(e, log)| - 1]
  }

  /** Since the last update no order has drained the best opposite level silently. */
  predicate QuietSince(e: Engine, log: Log) {
    log == []
    || Publishes(Process(ReplayLog(e, Front(log)), Last(log)).result)
    || (QuietSince(e, Front(log)) && !DrainsSilently(ReplayLog(e, Front(log)), Last(log)))
  }

  /** The true best bid is at least the published one, and the true best ask at most. */
  predicate AtLeastAsGood(published: BookUpdate, now: BookUpdate) {
    NotWorse(Bid, published.bestBid, now.bestBid) && NotWorse(Ask, published.bestAsk, now.bestAsk)
  }

  /** After any log the true best bid is not below, and the true best ask not above, the prices last
      published, provided no order has drained a best level silently since. */
  lemma {:induction false} PublishedPricesAreSafe(e: Engine, log: Log)
    requires LiveView(e.view) && Follows(e.view, log) && QuietSince(e, log)
    ensures AtLeastAsGood(LastPublished(e, log), Prices(ReplayLog(e, log).view))
  {
    hide LiveView, Process, DrainsSilently, NotWorse;
    if log == [] {
      NotWorseSame(Prices(e.view));
    } else {
      var mid := ReplayLog(e, Front(log));
      if Publishes(Process(mid, Last(log)).result) {
        NotWorseSame(Prices(ReplayLog(e, log).view));
      } else {
        PublishedPricesAreSafe(e, Front(log));
        ReplayKeepsLive(e, Front(log));
        NextIsFresh(e, log);
        StalenessStep(mid, Last(log));
        NotWorseChain(LastPublished(e, log), Prices(mid.view), Prices(ReplayLog(e, log).view));
      }
    }
  }

  lemma NotWorseSame(u: BookUpdate)
    ensures AtLeastAsGood(u, u)
  {
  }

  lemma NotWorseChain(u: BookUpdate, v: BookUpdate, w: BookUpdate)
    requires AtLeastAsGood(u, v) && AtLeastAsGood(v, w)
    ensures AtLeastAsGood(u, w)
  {
  }

  /** Logs in which every limit order has a price never drain a level silently. */
  lemma {:induction false} PricedIsQuiet(e: Engine, log: Log)
    requires forall i :: 0 <= i < |log| ==> log[i].orderType.Limit? ==> log[i].price.Some?
    ensures QuietSince(e, log)
  {
    hide Process;
    if log != [] {
      PricedIsQuiet(e, Front(log));
    }
  }

  /** Every unpriced limit order of two units or more can do so: let one unit rest at the price it
      is compared with. */
  lemma UnpricedCanDrain(o: Order)
    requires Incoming(o) && 1 < o.quantity && o.orderType.Limit? && o.price.None?
    ensures var e := OneUnitAtLimit(o);
            && LiveView(e.view) && !Publishes(Process(e, o).result)
            && DrainsSilently(e, o)
            && !NeitherWorse(e.view, Process(e, o).engine.view)
  {
    var e := OneUnitAtLimit(o);
    var side := o.side.Opposite();
    var makers := e.view.On(side);
    OneUnitTrades(o);
    assert makers[1..] == [];
    assert Depth(side, makers, RankOf(side, makers[0])) == 1;
    UnpricedCanLoseFills(o);
    StalenessStep(e, o);
  }
}
