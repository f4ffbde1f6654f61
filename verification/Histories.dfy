/** The mutable engine driven through whole histories, and what that means for its four structures. */
module Histories {
  import opened Types
  import opened PriceTime
  import opened BookModel
  import opened Matching
  import opened ProcessLaws
  import opened Runs
  import opened Replay

  lemma {:induction false} HistoryPrefix(events: seq<Event>, n: nat)
    requires History(events) && n <= |events|
    ensures History(events[..n])
  {
    if n == |events| {
      assert events[..n] == events;
    } else {
      var earlier := events[..|events| - 1];
      HistoryPrefix(earlier, n);
      assert earlier[..n] == events[..n];
    }
  }

  /** What the next event of a history finds. */
  lemma NextEvent(events: seq<Event>, n: nat)
    requires History(events) && n < |events|
    ensures var next := events[..n + 1]; next[..|next| - 1] == events[..n] && next[|next| - 1] == events[n]
    ensures events[n].Submit? ==> Incoming(events[n].order) && !Run(events[..n]).view.Contains(events[n].order.id)
  {
    hide Run;
    HistoryPrefix(events, n + 1);
    HistoryPrefix(events, n);
    var next := events[..n + 1];
    assert next[..|next| - 1] == events[..n];
    RunKeepsBook(events[..n]);
  }

  /** Any history of submissions and cancels keeps the four structures of the book in agreement, the
      book uncrossed, and numbers the fills without a gap. */
  method RunHistory(events: seq<Event>) returns (engine: MatchingEngine)
    requires History(events)
    ensures engine.IsLive()
    ensures engine.Abs() == Run(events)
    ensures Uncrossed(engine.Abs().view)
    ensures engine.sequence == |Trades(events)|
  {
    hide Sound, AllIndexed, AllLive, History, Uncrossed, Process, Cancel;
    engine := new MatchingEngine("SOL-USDC");
    for n := 0 to |events|
      invariant fresh(engine) && fresh(engine.book) && engine.IsLive()
      invariant engine.Abs() == Run(events[..n])
    {
      NextEvent(events, n);
      match events[n] {
        case Submit(order) =>
          EngineIndex(engine, order.id);
          var result := engine.ProcessOrder(order);
        case CancelById(id) =>
          var result := engine.Cancel(id);
      }
    }
    assert events[..|events|] == events;
    RunKeepsBook(events);
    TradesNumbered(events);
  }

  lemma {:induction false} TradesNumbered(events: seq<Event>)
    requires History(events)
    ensures Run(events).sequence == |Trades(events)|
    ensures forall i :: 0 <= i < |Trades(events)| ==> Trades(events)[i].sequence == i + 1 && 0 < Trades(events)[i].quantity
  {
    hide Process, LiveView;
    if events != [] {
      var earlier, last := events[..|events| - 1], events[|events| - 1];
      TradesNumbered(earlier);
      RunKeepsBook(earlier);
      if last.Submit? {
        ProcessShape(Run(earlier), last.order);
      }
    }
  }

  /** Run a list of orders, whatever they are, and collect the reported fills. */
  method RunSequence(orders: Log) returns (allFills: seq<Fill>)
    ensures allFills == SentFills(NewEngine, orders)
  {
    hide Sound, AllIndexed, AllUnfilled, AllLive, Process, ReplayLog, SentFills;
    EmptyBookView();
    var engine := new MatchingEngine("SOL-USDC");
    allFills := [];
    SequenceStarts(orders);
    for n := 0 to |orders|
      invariant fresh(engine) && fresh(engine.book) && engine.Valid()
      invariant Collected(orders, n, engine.Abs(), allFills)
    {
      SequenceNext(orders, n, engine.Abs(), allFills);
      var result := engine.ProcessOrder(orders[n]);
      match result {
        case Ok(Fills(fills)) => allFills := allFills + fills;
        case Ok(_) =>
        case Err(_) =>
      }
    }
    assert orders[..|orders|] == orders;
  }

  ghost predicate Collected(orders: Log, n: nat, now: Engine, fills: seq<Fill>) {
    n <= |orders| && now == ReplayLog(NewEngine, orders[..n]) && fills == SentFills(NewEngine, orders[..n])
  }

  lemma SequenceStarts(orders: Log)
    ensures Collected(orders, 0, NewEngine, [])
  {
  }

  lemma SequenceNext(orders: Log, n: nat, now: Engine, fills: seq<Fill>)
    requires n < |orders| && Collected(orders, n, now, fills)
    ensures var p := Process(now, orders[n]);
            Collected(orders, n + 1, p.engine, fills + (if Publishes(p.result) then p.result.value.fills else []))
  {
    hide Process;
    var next := orders[..n + 1];
    assert next != [] && Front(next) == orders[..n] && Last(next) == orders[n];
  }
}
