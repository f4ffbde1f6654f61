/** Recovery: a live book is written out, rebuilt, and the rest of the log replayed. */
module Recovery {
  import opened Types
  import opened PriceTime
  import opened Waterfall
  import opened BookModel
  import opened Draining
  import opened ProcessLaws
  import opened Conservation
  import opened Snapshots
  import opened Replay
  import Matching

  lemma {:induction false} DepthConcat(side: Side, a: seq<Order>, b: seq<Order>, r: int)
    ensures Depth(side, a + b, r) == Depth(side, a, r) + Depth(side, b, r)
  {
    if a == [] {
      assert a + b == b;
    } else {
      assert (a + b)[1..] == a[1..] + b;
      DepthConcat(side, a[1..], b, r);
    }
  }

  /** Taking one order out of a list. */
  lemma DepthOfSplit(side: Side, t: seq<Order>, i: nat, r: int)
    requires i < |t|
    ensures Depth(side, t, r) == Depth(side, [t[i]], r) + Depth(side, t[..i] + t[i + 1..], r)
  {
    hide Depth;
    assert t == t[..i] + ([t[i]] + t[i + 1..]);
    DepthConcat(side, t[..i], [t[i]] + t[i + 1..], r);
    DepthConcat(side, [t[i]], t[i + 1..], r);
    DepthConcat(side, t[..i], t[i + 1..], r);
  }

  lemma RemoveOne<T>(t: seq<T>, i: nat)
    requires i < |t|
    ensures multiset(t[..i] + t[i + 1..]) == multiset(t) - multiset{t[i]}
  {
    assert t == t[..i] + [t[i]] + t[i + 1..];
    assert multiset(t) == multiset(t[..i]) + multiset{t[i]} + multiset(t[i + 1..]);
    assert multiset(t[..i] + t[i + 1..]) == multiset(t[..i]) + multiset(t[i + 1..]);
  }

  lemma RemoveHead<T>(s: seq<T>)
    requires s != []
    ensures multiset(s[1..]) == multiset(s) - multiset{s[0]}
  {
    assert s == [s[0]] + s[1..];
    assert multiset(s) == multiset{s[0]} + multiset(s[1..]);
  }

  lemma PermutationTail<T>(s: seq<T>, t: seq<T>) returns (i: nat)
    requires multiset(s) == multiset(t) && s != []
    ensures i < |t| && t[i] == s[0]
    ensures multiset(s[1..]) == multiset(t[..i] + t[i + 1..])
  {
    assert s[0] in multiset(t);
    i :| 0 <= i < |t| && t[i] == s[0];
    RemoveOne(t, i);
    RemoveHead(s);
  }

  lemma {:induction false} DepthOfPermutation(side: Side, s: seq<Order>, t: seq<Order>, r: int)
    requires multiset(s) == multiset(t)
    ensures Depth(side, s, r) == Depth(side, t, r)
  {
    if s == [] {
      assert |t| == |multiset(t)| == |multiset(s)| == 0;
    } else {
      hide Depth;
      var i := PermutationTail(s, t);
      DepthOfSplit(side, t, i, r);
      DepthOfSplit(side, s, 0, r);
      assert s[..0] + s[1..] == s[1..];
      DepthOfPermutation(side, s[1..], t[..i] + t[i + 1..], r);
    }
  }

  /** The concrete book after a log, slab keys and all. */
  ghost function BookLog(b: Book, log: Log): Book {
    if log == [] then b
    else
      var before := BookLog(b, Front(log));
      if Sound(before) then BookAfter(before, Last(log)) else before
  }

  lemma BookLogNext(b: Book, log: Log, n: nat)
    requires n < |log| && Sound(BookLog(b, log[..n]))
    ensures BookLog(b, log[..n + 1]) == BookAfter(BookLog(b, log[..n]), log[n])
  {
    hide Sound, BookAfter;
    var next := log[..n + 1];
    assert next != [] && Front(next) == log[..n] && Last(next) == log[n];
  }

  lemma LastFollows(e: Engine, log: Log)
    requires log != [] && LiveView(e.view) && Follows(e.view, log)
    ensures Follows(e.view, Front(log))
    ensures Incoming(Last(log)) && !ReplayLog(e, Front(log)).view.Contains(Last(log).id)
  {
    hide LiveView, ReplayLog;
    ReplayKeepsLive(e, Front(log));
    NextIsFresh(e, log);
  }

  /** The concrete book after a log, seen flat, is the replay of the log; so it stays live. */
  lemma {:induction false} BookLogIsReplay(b: Book, log: Log)
    requires Matchable(b)
    ensures Matchable(BookLog(b, log))
    ensures ViewOf(BookLog(b, log)) == ReplayLog(Engine(ViewOf(b), 0), log).view
    ensures Live(b) && Follows(ViewOf(b), log) ==> Live(BookLog(b, log))
  {
    hide Sound, AllIndexed, AllUnfilled, AllLive, Process, ViewOf, BookAfter, LiveView, Follows;
    if log != [] {
      if Live(b) && Follows(ViewOf(b), log) {
        LiveBookHasLiveView(b);
        LastFollows(Engine(ViewOf(b), 0), log);
      }
      BookLogIsReplay(b, Front(log));
      var before, e := BookLog(b, Front(log)), ReplayLog(Engine(ViewOf(b), 0), Front(log));
      Matching.BookAfterIsProcess(before, Last(log), e.sequence);
      if Live(b) && Follows(ViewOf(b), log) {
        Matching.NotInIndex(before, Last(log).id);
      }
    }
  }

  /** After any log, the restart rebuilds the replayed view if and only if the log left every queue
      ascending in slab key. */
  lemma LogRecoversExactly(log: Log)
    requires Follows(EmptyView, log)
    ensures Live(BookLog(EmptyBook, log))
    ensures RestartView(BookLog(EmptyBook, log)) == ReplayLog(NewEngine, log).view <==> AscendingBook(BookLog(EmptyBook, log))
  {
    hide Live, Sound, AllUnfilled, ViewOf, Follows, AscendingBook, ReplayLog, BookLog;
    Matching.EmptyBookView();
    LiveIsMatchable(EmptyBook);
    BookLogIsReplay(EmptyBook, log);
    RoundTripExactly(BookLog(EmptyBook, log));
  }

  /** What a restart is given and what it makes of it. */
  ghost function RestartView(b: Book): View
    requires Live(b)
  {
    RoundTripExactly(b);
    ViewOf(Restored(b))
  }

  lemma RestartSameDepth(b: Book)
    requires Live(b)
    ensures LiveView(ViewOf(b)) && LiveView(RestartView(b)) && SameDepth(RestartView(b), ViewOf(b))
  {
    hide AllLive, Sound, AllIndexed, Restored, Flat, LiveView;
    LiveIsWellFormed(b);
    RoundTripContents(b, Bid);
    RoundTripContents(b, Ask);
    LiveBookHasLiveView(b);
    LiveBookHasLiveView(Restored(b));
    forall side: Side, r
      ensures Depth(side, RestartView(b).On(side), r) == Depth(side, ViewOf(b).On(side), r)
    {
      DepthOfPermutation(side, RestartView(b).On(side), ViewOf(b).On(side), r);
    }
  }

  lemma SameIds(s: seq<Order>, t: seq<Order>, id: OrderId)
    requires multiset(s) == multiset(t)
    ensures HasId(s, id) ==> HasId(t, id)
  {
    if HasId(s, id) {
      var i :| 0 <= i < |s| && s[i].id == id;
      assert s[i] in multiset(t);
      var j :| 0 <= j < |t| && t[j] == s[i];
    }
  }

  lemma RestartFollows(b: Book, log: Log)
    requires Live(b) && Follows(ViewOf(b), log)
    ensures Follows(RestartView(b), log)
  {
    hide AllLive, Sound, AllIndexed, Restored, Flat, HasId;
    LiveIsWellFormed(b);
    RoundTripContents(b, Bid);
    RoundTripContents(b, Ask);
    forall id
      ensures RestartView(b).Contains(id) ==> ViewOf(b).Contains(id)
    {
      SameIds(RestartView(b).bids, ViewOf(b).bids, id);
      SameIds(RestartView(b).asks, ViewOf(b).asks, id);
    }
  }

  /** For every live book, every fill sequence and every rest of the log: the restarted engine
      rests the same quantity at every price, publishes the same best prices, and gives every taker
      the same quantity at every price as the engine that was never stopped. */
  lemma RecoveryPreservesDepth(b: Book, sequence: nat, rest: Log, id: OrderId, p: Price)
    requires Live(b) && Follows(ViewOf(b), rest)
    ensures var stopped, running := Engine(RestartView(b), 0), Engine(ViewOf(b), sequence);
            && SameDepth(ReplayLog(stopped, rest).view, ReplayLog(running, rest).view)
            && Prices(ReplayLog(stopped, rest).view) == Prices(ReplayLog(running, rest).view)
            && Updates(stopped, rest) == Updates(running, rest)
            && TakerFilledAt(ReplayFills(stopped, rest), id, p) == TakerFilledAt(ReplayFills(running, rest), id, p)
            && forall side: Side :: RestingAt(ReplayLog(stopped, rest).view.On(side), p) == RestingAt(ReplayLog(running, rest).view.On(side), p)
  {
    hide SameDepth, RestingAt;
    RestartSameDepth(b);
    RestartFollows(b, rest);
    var stopped, running := Engine(RestartView(b), 0), Engine(ViewOf(b), sequence);
    SameDepthReplay(stopped, running, rest, id, p);
    forall side: Side {
      SameDepthSameLevels(ReplayLog(stopped, rest).view, ReplayLog(running, rest).view, side, p);
    }
  }

  /** The restarted engine's book is the running one's, and its fills are the same but numbered from
      one again. */
  ghost predicate ExactOn(b: Book, sequence: nat, rest: Log)
    requires Live(b)
  {
    var stopped, running := Engine(RestartView(b), 0), Engine(ViewOf(b), sequence);
    && ReplayLog(stopped, rest).view == ReplayLog(running, rest).view
    && ReplayFills(running, rest) == ShiftAll(ReplayFills(stopped, rest), sequence)
  }

  lemma ExactWhenSameView(b: Book, sequence: nat, rest: Log)
    requires Live(b) && RestartView(b) == ViewOf(b)
    ensures ExactOn(b, sequence, rest)
  {
    hide Live, Sound, AllIndexed, RestartView, ReplayLog, ReplayFills, ShiftAll;
    LiveIsWellFormed(b);
    ReplayShift(ViewOf(b), 0, sequence, rest);
  }

  lemma ExactOnNothing(b: Book, sequence: nat)
    requires Live(b)
    ensures WellFormed(b) && Follows(ViewOf(b), [])
    ensures ExactOn(b, sequence, []) ==> RestartView(b) == ViewOf(b)
  {
    LiveIsWellFormed(b);
    hide Live, Sound, AllIndexed, RestartView;
  }

  lemma RestartViewExactly(b: Book)
    requires Live(b)
    ensures WellFormed(b) && (RestartView(b) == ViewOf(b) <==> AscendingBook(b))
  {
    hide AscendingBook;
    RoundTripExactly(b);
  }

  /** Recovery is exact for every rest of the log exactly when, at the snapshot, every level was
      ascending in slab key. */
  lemma RecoveryExactly(b: Book, sequence: nat)
    requires Live(b)
    ensures AscendingBook(b) <==> forall rest: Log :: Follows(ViewOf(b), rest) ==> ExactOn(b, sequence, rest)
  {
    LiveIsWellFormed(b);
    RestartViewExactly(b);
    hide Live, Sound, AllIndexed, RestartView, ExactOn, Follows, AscendingBook;
    if AscendingBook(b) {
      forall rest: Log | Follows(ViewOf(b), rest)
        ensures ExactOn(b, sequence, rest)
      {
        ExactWhenSameView(b, sequence, rest);
      }
    } else {
      ExactOnNothing(b, sequence);
    }
  }

  // ---------- The order of a queue shows in the trades ----------

  /** The fills of the restarted engine are those of the running one, numbered from one again. */
  ghost predicate SameTradesOn(b: Book, sequence: nat, rest: Log)
    requires Live(b)
  {
    ReplayFills(Engine(ViewOf(b), sequence), rest) == ShiftAll(ReplayFills(Engine(RestartView(b), 0), rest), sequence)
  }

  lemma {:induction false} ShiftKeepsMakers(fills: seq<Fill>, k: nat)
    ensures |ShiftAll(fills, k)| == |fills|
    ensures forall i :: 0 <= i < |fills| ==> ShiftAll(fills, k)[i].makerOrderId == fills[i].makerOrderId
  {
    if fills != [] {
      ShiftKeepsMakers(fills[1..], k);
    }
  }

  /** A market order for all that rests on the other side. */
  function Sweep(id: OrderId, side: Side, q: Quantity): Order {
    Order(id, "", side, Market, None, q, 0, Open, 0)
  }

  /** Such an order trades with every order of the side, front to back. */
  lemma SweepNamesAll(e: Engine, o: Order)
    requires LiveView(e.view) && Incoming(o) && o.orderType.Market?
    requires 0 < o.quantity && Total(e.view.On(o.side.Opposite())) <= o.quantity
    ensures var makers := e.view.On(o.side.Opposite());
            var fills := ReplayFills(e, [o]);
            && |fills| == |makers|
            && forall i :: 0 <= i < |makers| ==> fills[i].makerOrderId == makers[i].id
  {
    hide LiveView, LiveSide, AllResting, Greedy;
    var side := o.side.Opposite();
    var makers := e.view.On(side);
    assert [o][..0] == [] && [] + Process(e, o).executed == Process(e, o).executed;
    LiveParts(e.view, side);
    LiveSideParts(side, makers);
    RestingRemains(side, makers);
    GreedyPriority(o, None, makers, e.sequence);
    GreedyConsumes(o, None, makers, e.sequence);
    ConsumeAll(side, makers, Total(makers));
    DepthNonNegative(side, makers, 0);
  }

  lemma RestingRemains(side: Side, s: seq<Order>)
    requires AllResting(side, s)
    ensures forall i :: 0 <= i < |s| ==> 0 < s[i].Remaining()
  {
  }

  lemma {:induction false} ConsumeAll(side: Side, s: seq<Order>, q: int)
    requires AllResting(side, s) && q == Total(s)
    ensures Consume(s, q) == []
  {
    if s != [] {
      DepthNonNegative(side, s[1..], 0);
      ConsumeAll(side, s[1..], q - s[0].Remaining());
    }
  }

  /** Lists of the same orders that name the same ids in the same order are equal. */
  lemma SameOrderOfIds(s: seq<Order>, t: seq<Order>)
    requires multiset(s) == multiset(t) && DistinctIds(t)
    requires |s| == |t| && forall i :: 0 <= i < |s| ==> s[i].id == t[i].id
    ensures s == t
  {
    forall i | 0 <= i < |s|
      ensures s[i] == t[i]
    {
      assert s[i] in multiset(s);
      assert s[i] in t;
      var j :| 0 <= j < |t| && t[j] == s[i];
    }
  }

  lemma {:induction false} FreshFor(s: seq<Order>) returns (id: OrderId)
    ensures forall i :: 0 <= i < |s| ==> s[i].id < id
  {
    if s == [] {
      id := 0;
    } else {
      id := FreshFor(s[1..]);
      id := Max(id, s[0].id + 1);
    }
  }

  lemma FollowsAlone(v: View, o: Order)
    requires Incoming(o) && !v.Contains(o.id)
    ensures Follows(v, [o])
  {
  }

  /** Two views whose sweeps name the same makers hold the swept side in the same order. */
  lemma SweepComparesSides(v: View, w: View, o: Order, sequence: nat)
    requires LiveView(v) && LiveView(w) && Incoming(o) && o.orderType.Market?
    requires multiset(w.On(o.side.Opposite())) == multiset(v.On(o.side.Opposite()))
    requires DistinctIds(v.On(o.side.Opposite()))
    requires 0 < o.quantity && Total(v.On(o.side.Opposite())) <= o.quantity && Total(w.On(o.side.Opposite())) <= o.quantity
    requires ReplayFills(Engine(v, sequence), [o]) == ShiftAll(ReplayFills(Engine(w, 0), [o]), sequence)
    ensures w.On(o.side.Opposite()) == v.On(o.side.Opposite())
  {
    hide LiveView, ReplayFills, ShiftAll, Total, DistinctIds;
    SweepNamesAll(Engine(v, sequence), o);
    SweepNamesAll(Engine(w, 0), o);
    ShiftKeepsMakers(ReplayFills(Engine(w, 0), [o]), sequence);
    SameOrderOfIds(w.On(o.side.Opposite()), v.On(o.side.Opposite()));
  }

  /** A sweep of a side that can come next. */
  lemma SweepFor(v: View, side: Side) returns (o: Order)
    ensures Incoming(o) && o.orderType.Market? && o.side.Opposite() == side
    ensures 0 < o.quantity && Total(v.On(side)) <= o.quantity
    ensures Follows(v, [o])
  {
    var i := FreshFor(v.bids);
    var j := FreshFor(v.asks);
    o := Sweep(Max(i, j), side.Opposite(), Max(1, Total(v.On(side))));
    FollowsAlone(v, o);
  }

  /** If the trades agree whatever comes next, both views hold each side in the same order. */
  lemma TradesShowTheSide(b: Book, sequence: nat, side: Side)
    requires Live(b)
    requires forall rest: Log :: Follows(ViewOf(b), rest) ==> SameTradesOn(b, sequence, rest)
    ensures Sound(b) && RestartView(b).On(side) == ViewOf(b).On(side)
  {
    LiveIsMatchable(b);
    RestartSameDepth(b);
    RestartContents(b, side);
    hide Live, Sound, AllIndexed, LiveView, RestartView, ReplayFills, ShiftAll, Total, ViewOf, Follows, SameDepth, DistinctIds;
    EqualTotals(RestartView(b), ViewOf(b), side);
    var o := SweepFor(ViewOf(b), side);
    assert SameTradesOn(b, sequence, [o]);
    SweepComparesSides(ViewOf(b), RestartView(b), o, sequence);
  }

  lemma EqualTotals(v: View, w: View, side: Side)
    requires SameDepth(v, w)
    ensures Total(v.On(side)) == Total(w.On(side))
  {
    forall r
      ensures Depth(side, v.On(side), r) == Depth(side, w.On(side), r)
    {
      SameDepthAt(v, w, side, r);
    }
    TotalFromDepth(side, v.On(side), w.On(side));
  }

  lemma RestartContents(b: Book, side: Side)
    requires Live(b)
    ensures Sound(b) && multiset(RestartView(b).On(side)) == multiset(ViewOf(b).On(side))
    ensures DistinctIds(ViewOf(b).On(side))
  {
    RoundTripContents(b, side);
    LiveBookHasLiveView(b);
  }

  /** The restarted engine makes the same trades as the running one on every rest of the log exactly
      when, at the snapshot, every level was ascending in slab key: a queue that is not shows in the
      makers of the next sweep. */
  lemma TradesRecoverExactly(b: Book, sequence: nat)
    requires Live(b)
    ensures AscendingBook(b) <==> forall rest: Log :: Follows(ViewOf(b), rest) ==> SameTradesOn(b, sequence, rest)
  {
    LiveIsMatchable(b);
    RestartViewExactly(b);
    hide Live, Sound, AllIndexed, RestartView, SameTradesOn, Follows, AscendingBook;
    if AscendingBook(b) {
      forall rest: Log | Follows(ViewOf(b), rest)
        ensures SameTradesOn(b, sequence, rest)
      {
        ExactWhenSameView(b, sequence, rest);
        ExactTrades(b, sequence, rest);
      }
    } else if forall rest: Log :: Follows(ViewOf(b), rest) ==> SameTradesOn(b, sequence, rest) {
      TradesShowTheSide(b, sequence, Bid);
      TradesShowTheSide(b, sequence, Ask);
      assert false;
    }
  }

  lemma ExactTrades(b: Book, sequence: nat, rest: Log)
    requires Live(b) && ExactOn(b, sequence, rest)
    ensures SameTradesOn(b, sequence, rest)
  {
  }
}
