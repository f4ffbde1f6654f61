/** The threads around the engine: the leader's loop with its snapshots, the restart from the stored
    snapshot, and the follower's replay loop.  Channels become sequences of what they deliver. */
module Processor {
  import opened Types
  import opened PriceTime
  import opened BookModel
  import opened Draining
  import opened Matching
  import opened Snapshots
  import opened Runs
  import opened Replay
  import opened Recovery

  const MARKET_ID := "SOL/USDC"

  /** The row of the snapshot table. */
  datatype Saved = Saved(snapshot: BookSnapshot, offset: nat)

  /** The book a thread starts from. */
  ghost function StartBook(initial: Option<BookSnapshot>): Book {
    if initial.Some? then Restore(initial.value.orders) else EmptyBook
  }

  ghost function StartEngine(initial: Option<BookSnapshot>): Engine
    requires Sound(StartBook(initial))
  {
    Engine(ViewOf(StartBook(initial)), 0)
  }

  /** The thread starts from a live book and its orders can follow it. */
  ghost predicate Clean(initial: Option<BookSnapshot>, orders: Log) {
    Live(StartBook(initial)) && Follows(StartEngine(initial).view, orders)
  }

  /** An engine over the restored book; the fill sequence starts from zero again. */
  method StartFrom(initial: Option<BookSnapshot>) returns (engine: MatchingEngine)
    requires Matchable(StartBook(initial))
    ensures fresh(engine) && fresh(engine.book) && engine.Valid()
    ensures engine.Abs() == StartEngine(initial)
    ensures engine.book.State() == StartBook(initial)
    ensures engine.sequence == 0 && engine.marketId == "SOL/USDC"
    ensures engine.book.State() == EmptyBook || initial.Some?
    ensures initial.Some? ==> PutInOrder(engine.book.State(), PutBack(initial.value.orders))
  {
    hide PutInOrder;
    engine := new MatchingEngine(MARKET_ID);
    if initial.Some? {
      var book := DeserializeBook(initial.value);
      engine.book := book;
    }
  }

  lemma NextOrder(e: Engine, log: Log, i: nat)
    requires LiveView(e.view) && Follows(e.view, log) && i < |log|
    ensures Incoming(log[i]) && !ReplayLog(e, log[..i]).view.Contains(log[i].id)
    ensures Front(log[..i + 1]) == log[..i] && Last(log[..i + 1]) == log[i]
  {
    FollowsRest(e, log, i);
    assert log[i..][0] == log[i];
  }

  /** Where the last stored snapshot of a run over `n` orders was taken: the last multiple of `every`
      at which the save did not fail; zero when there is none. */
  function SnapshotPoint(n: nat, every: nat, failed: set<nat>): (k: nat)
    requires 0 < every
    ensures k <= n && (k != 0 ==> k % every == 0 && k !in failed)
    ensures forall j :: k < j <= n ==> j % every != 0 || j in failed
  {
    if n == 0 || (n % every == 0 && n !in failed) then n else SnapshotPoint(n - 1, every, failed)
  }

  /** What the leader's loop has produced after `n` orders. */
  ghost predicate Done(start: Engine, orders: Log, n: nat, now: Engine, fills: seq<Fill>, updates: seq<BookUpdate>) {
    && n <= |orders|
    && now == ReplayLog(start, orders[..n])
    && fills == SentFills(start, orders[..n])
    && updates == Updates(start, orders[..n])
  }

  lemma DoneNext(start: Engine, orders: Log, n: nat, now: Engine, fills: seq<Fill>, updates: seq<BookUpdate>)
    requires n < |orders| && Done(start, orders, n, now, fills, updates)
    ensures var p := Process(now, orders[n]);
            Done(start, orders, n + 1, p.engine,
                 fills + (if Publishes(p.result) then p.result.value.fills else []),
                 updates + (if Publishes(p.result) then [Prices(p.engine.view)] else []))
  {
    hide Process, Prices;
    var next := orders[..n + 1];
    assert next != [] && Front(next) == orders[..n] && Last(next) == orders[n];
  }

  /** The saved row is a snapshot of a book whose view is the replay of the orders up to its offset;
      before the first successful save there is none. */
  ghost predicate SavedAt(from: Book, orders: Log, n: nat, every: nat, failed: set<nat>, saved: Option<Saved>, at: Book)
    requires 0 < every && n <= |orders| && Sound(from)
  {
    var k := SnapshotPoint(n, every, failed);
    if k == 0 then saved.None?
    else Sound(at) && at == BookLog(from, orders[..k])
         && ViewOf(at) == ReplayLog(Engine(ViewOf(from), 0), orders[..k]).view
         && saved == Some(Saved(SnapshotOf(at, MARKET_ID, k), orders[k - 1].sequence))
  }

  lemma SavedNext(from: Book, orders: Log, n: nat, every: nat, failed: set<nat>, saved: Option<Saved>, at: Book, now: Book)
    requires 0 < every && n < |orders| && Sound(from) && SavedAt(from, orders, n, every, failed, saved, at)
    requires Sound(now) && now == BookLog(from, orders[..n + 1])
    requires ViewOf(now) == ReplayLog(Engine(ViewOf(from), 0), orders[..n + 1]).view
    ensures if (n + 1) % every == 0 && n + 1 !in failed
            then SavedAt(from, orders, n + 1, every, failed, Some(Saved(SnapshotOf(now, MARKET_ID, n + 1), orders[n].sequence)), now)
            else SavedAt(from, orders, n + 1, every, failed, saved, at)
  {
    hide Sound, ReplayLog, BookLog, SnapshotOf, ViewOf;
  }

  /** The leader's engine thread, for any orders at all: process, send fills, publish best prices
      after every order that was reported as fills, and save the book every `snapshotEvery` orders.
      Saves may fail, at the counts in `failed`; the loop goes on.  From a live book, with orders
      that can follow it, the book and the saved book stay live. */
  method EngineThread(initial: Option<BookSnapshot>, orders: Log, snapshotEvery: nat, failed: set<nat>)
    returns (engine: MatchingEngine, fills: seq<Fill>, updates: seq<BookUpdate>, saved: Option<Saved>, ghost at: Book)
    requires 0 < snapshotEvery && Matchable(StartBook(initial))
    ensures fresh(engine) && fresh(engine.book) && engine.Valid()
    ensures engine.Abs() == ReplayLog(StartEngine(initial), orders)
    ensures engine.book.State() == BookLog(StartBook(initial), orders)
    ensures fills == SentFills(StartEngine(initial), orders)
    ensures updates == Updates(StartEngine(initial), orders)
    ensures SavedAt(StartBook(initial), orders, |orders|, snapshotEvery, failed, saved, at)
    ensures Clean(initial, orders) ==> engine.IsLive() && (saved.Some? ==> Live(at))
    ensures LastSave(orders, snapshotEvery, failed, saved)
  {
    hide Sound, AllIndexed, AllUnfilled, AllLive, LiveView, Follows, SavedAt, Done, Process, Prices, SnapshotOf, Updates, SentFills, ReplayLog,
         BookLog, BookAfter, LastSave, PutInOrder, PutBack;
    engine := StartFrom(initial);
    fills, updates, saved := [], [], None;
    at := EmptyBook;
    var processed, lastOffset := 0, 0;
    ghost var start, from := StartEngine(initial), StartBook(initial);
    if Clean(initial, orders) {
      LiveBookHasLiveView(StartBook(initial));
    }
    Started(start, from, orders, snapshotEvery, failed, at);
    while processed < |orders|
      invariant processed <= |orders|
      invariant fresh(engine) && fresh(engine.book) && engine.Valid()
      invariant Done(start, orders, processed, engine.Abs(), fills, updates)
      invariant engine.book.State() == BookLog(from, orders[..processed])
      invariant SavedAt(from, orders, processed, snapshotEvery, failed, saved, at)
      invariant Clean(initial, orders) ==> engine.IsLive() && (saved.Some? ==> Live(at))
    {
      var order := orders[processed];
      lastOffset := order.sequence;
      DoneNow(start, orders, processed, engine.Abs(), fills, updates);
      DoneNext(start, orders, processed, engine.Abs(), fills, updates);
      if Clean(initial, orders) {
        NextOrder(start, orders, processed);
      }
      BookLogNext(from, orders, processed);
      var sent, published := HandleOrder(engine, order);
      fills := fills + sent;
      updates := updates + published;
      DoneNow(start, orders, processed + 1, engine.Abs(), fills, updates);
      SavedNext(from, orders, processed, snapshotEvery, failed, saved, at, engine.book.State());
      processed := processed + 1;
      if processed % snapshotEvery == 0 {
        var snapshot;
        ghost var keys;
        snapshot, keys := SerializeBook(engine.book, MARKET_ID, processed);
        if processed !in failed {
          at := engine.book.State();
          saved := Some(Saved(snapshot, lastOffset));
        }
      }
    }
    DoneNow(start, orders, |orders|, engine.Abs(), fills, updates);
    assert orders[..|orders|] == orders;
    SavedSays(from, orders, snapshotEvery, failed, saved, at);
  }

  /** What the stored row says of itself: the number of orders processed, a multiple of the interval,
      the last one whose save did not fail, and the offset of that order.  There is none if no save
      went through. */
  ghost predicate LastSave(orders: Log, every: nat, failed: set<nat>, saved: Option<Saved>)
    requires 0 < every
  {
    if saved.None? then forall j :: 0 < j <= |orders| ==> j % every != 0 || j in failed
    else
      var n := saved.value.snapshot.sequence;
      && saved.value.snapshot.marketId == "SOL/USDC"
      && 0 < n <= |orders| && n % every == 0 && n !in failed
      && (forall j :: n < j <= |orders| ==> j % every != 0 || j in failed)
      && saved.value.offset == orders[n - 1].sequence
  }

  lemma SavedSays(from: Book, orders: Log, every: nat, failed: set<nat>, saved: Option<Saved>, at: Book)
    requires 0 < every && Sound(from) && SavedAt(from, orders, |orders|, every, failed, saved, at)
    ensures LastSave(orders, every, failed, saved)
  {
    hide Sound, BookLog, ReplayLog, ViewOf, Written;
  }

  lemma Started(start: Engine, from: Book, orders: Log, every: nat, failed: set<nat>, at: Book)
    requires 0 < every && Sound(from)
    ensures Done(start, orders, 0, start, [], []) && SavedAt(from, orders, 0, every, failed, None, at)
    ensures BookLog(from, orders[..0]) == from
  {
  }

  lemma DoneNow(start: Engine, orders: Log, n: nat, now: Engine, fills: seq<Fill>, updates: seq<BookUpdate>)
    requires Done(start, orders, n, now, fills, updates)
    ensures n <= |orders| && now == ReplayLog(start, orders[..n])
    ensures fills == SentFills(start, orders[..n]) && updates == Updates(start, orders[..n])
  {
  }

  /** One order: process it, and on a result of fills send them and publish the best prices. */
  method HandleOrder(engine: MatchingEngine, order: Order) returns (sent: seq<Fill>, published: seq<BookUpdate>)
    requires engine.Valid()
    modifies engine`sequence, engine.book
    ensures engine.Valid()
    ensures old(engine.IsLive()) && Incoming(order) && !old(engine.Abs()).view.Contains(order.id) ==> engine.IsLive()
    ensures var p := Process(old(engine.Abs()), order);
            && engine.Abs() == p.engine
            && engine.book.State() == BookAfter(old(engine.book.State()), order)
            && sent == (if Publishes(p.result) then p.result.value.fills else [])
            && published == (if Publishes(p.result) then [Prices(p.engine.view)] else [])
  {
    hide Sound, AllIndexed, AllUnfilled, AllLive, Process, ViewOf, BookAfter;
    if engine.IsLive() && !engine.Abs().view.Contains(order.id) {
      EngineIndex(engine, order.id);
    }
    sent, published := [], [];
    var hadFills := false;
    var result := engine.ProcessOrder(order);
    match result {
      case Ok(Fills(fills)) =>
        hadFills := true;
        sent := fills;
      case Ok(_) =>
      case Err(_) =>
    }
    if hadFills {
      var update := BestPrices(engine);
      published := [update];
    }
  }

  /** The best prices of the book, as published. */
  method BestPrices(engine: MatchingEngine) returns (u: BookUpdate)
    requires engine.Valid()
    ensures u == Prices(engine.Abs().view)
  {
    FrontOf(engine.book.State(), Bid);
    FrontOf(engine.book.State(), Ask);
    var bid := engine.book.BestBid();
    var ask := engine.book.BestAsk();
    return BookUpdate(bid, ask);
  }

  // ---------- Restart ----------

  /** Offsets grow along the log. */
  ghost predicate Offsets(log: Log) {
    forall i, j :: 0 <= i < j < |log| ==> log[i].sequence < log[j].sequence
  }

  /** The consumer's position: everything from `offset` on. */
  function SeekTo(log: Log, offset: nat): Log {
    if log == [] || offset <= log[0].sequence then log else SeekTo(log[1..], offset)
  }

  /** Seeking an offset leaves exactly the orders at that offset or later. */
  lemma {:induction false} SeekExactly(log: Log, offset: nat) returns (n: nat)
    requires Offsets(log)
    ensures n <= |log| && SeekTo(log, offset) == log[n..]
    ensures (forall i :: 0 <= i < n ==> log[i].sequence < offset) && (forall i :: n <= i < |log| ==> offset <= log[i].sequence)
  {
    if log == [] || offset <= log[0].sequence {
      n := 0;
      forall i | 0 < i < |log|
        ensures offset <= log[i].sequence
      {
        assert log[0].sequence < log[i].sequence;
      }
    } else {
      assert forall i :: 0 <= i < |log[1..]| ==> log[1..][i] == log[i + 1];
      var m := SeekExactly(log[1..], offset);
      n := m + 1;
      assert log[1..][m..] == log[n..];
      forall i | 0 <= i < |log|
        ensures if i < n then log[i].sequence < offset else offset <= log[i].sequence
      {
        if 0 < i { assert log[i] == log[1..][i - 1]; }
      }
    }
  }

  /** Seeking just past the n-th order's offset leaves exactly the orders after it. */
  lemma {:induction false} SeekPast(log: Log, n: nat)
    requires Offsets(log) && 0 < n <= |log|
    ensures SeekTo(log, log[n - 1].sequence + 1) == log[n..]
  {
    assert log[0].sequence <= log[n - 1].sequence;
    if n == 1 {
      if |log| > 1 { assert log[0].sequence < log[1].sequence; }
    } else {
      SeekPast(log[1..], n - 1);
      assert log[1..][n - 1..] == log[n..];
    }
  }

  /** Run a leader over the first `crashAt` orders, lose it, and start a new one from what it
      saved: however the queues were rebuilt, the new leader ends with the depth, the best prices,
      the published updates and the fills per taker and price of one that never stopped.  If the
      saved book was ascending in slab key, it ends with the very same book and fills, the fills
      numbered from one again. */
  method CrashAndRestart(log: Log, crashAt: nat, snapshotEvery: nat, failed: set<nat>)
    returns (engine: MatchingEngine, fills: seq<Fill>, updates: seq<BookUpdate>, row: Option<Saved>, ghost at: Book)
    requires 0 < snapshotEvery && crashAt <= |log|
    requires Follows(EmptyView, log) && Offsets(log)
    ensures engine.IsLive()
    ensures var n := SnapshotPoint(crashAt, snapshotEvery, failed);
            var running, whole := ReplayLog(NewEngine, log[..n]), ReplayLog(NewEngine, log);
            && SameDepth(engine.Abs().view, whole.view)
            && Prices(engine.Abs().view) == Prices(whole.view)
            && updates == Updates(running, log[n..])
            && SameTakerFills(fills, SentFills(running, log[n..]))
            && (n == 0 ==> row.None?)
            && (0 < n ==>
                  && Live(at) && ViewOf(at) == running.view && at == BookLog(EmptyBook, log[..n])
                  && row == Some(Saved(SnapshotOf(at, MARKET_ID, n), log[n - 1].sequence))
                  && (AscendingBook(at) ==>
                        && engine.Abs().view == whole.view
                        && SentFills(running, log[n..]) == ShiftAll(fills, running.sequence)))
  {
    hide Sound, AllIndexed, AllLive, LiveView, SameDepth, Process, Follows, Offsets, SeekTo, SnapshotPoint, Updates, ReplayLog, SavedAt,
         SentFills, SameTakerFills, ShiftAll, Prices, AscendingBook, BookLog;
    EmptyBookView();
    ghost var n := SnapshotPoint(crashAt, snapshotEvery, failed);
    PrefixFollows(log, crashAt);
    var crashed, f, lost, saved, b := EngineThread(None, log[..crashAt], snapshotEvery, failed);
    at, row := b, saved;
    SavedBefore(log, crashAt, snapshotEvery, failed, saved, at);
    var next;
    ghost var after;
    if saved.None? {
      engine, fills, updates, next, after := EngineThread(None, SeekTo(log, 0), snapshotEvery, failed);
      SameDepthSelf(engine.Abs().view);
      SameTakerFillsSelf(fills);
    } else {
      RestartRest(log, n, at);
      var rest := SeekTo(log, saved.value.offset + 1);
      engine, fills, updates, next, after := EngineThread(Some(saved.value.snapshot), rest, snapshotEvery, failed);
      RestartEnd(log, n, at);
    }
  }

  /** What the first leader left behind. */
  lemma SavedBefore(log: Log, crashAt: nat, every: nat, failed: set<nat>, saved: Option<Saved>, at: Book)
    requires 0 < every && crashAt <= |log| && Sound(EmptyBook) && ViewOf(EmptyBook) == EmptyView
    requires SavedAt(EmptyBook, log[..crashAt], crashAt, every, failed, saved, at)
    ensures var n := SnapshotPoint(crashAt, every, failed);
            && n <= crashAt
            && (saved.None? <==> n == 0)
            && (n == 0 ==> SeekTo(log, 0) == log && ReplayLog(NewEngine, log[..n]) == NewEngine && log[n..] == log)
            && (0 < n ==> Sound(at) && ViewOf(at) == ReplayLog(NewEngine, log[..n]).view && at == BookLog(EmptyBook, log[..n])
                          && saved == Some(Saved(SnapshotOf(at, MARKET_ID, n), log[n - 1].sequence)))
  {
    hide Sound, ViewOf, SnapshotOf, Process, BookLog;
    var n := SnapshotPoint(crashAt, every, failed);
    assert log[..crashAt][..n] == log[..n];
    if 0 < n { assert log[..crashAt][n - 1] == log[n - 1]; }
  }

  /** What the second leader starts from. */
  lemma RestartRest(log: Log, n: nat, at: Book)
    requires Follows(EmptyView, log) && Offsets(log) && 0 < n <= |log|
    requires Live(at) && ViewOf(at) == ReplayLog(NewEngine, log[..n]).view
    ensures SeekTo(log, log[n - 1].sequence + 1) == log[n..]
    ensures Live(Restored(at)) && Matchable(Restored(at)) && ViewOf(Restored(at)) == RestartView(at)
    ensures Follows(ViewOf(at), log[n..]) && Follows(RestartView(at), log[n..])
  {
    RoundTripExactly(at);
    LiveIsMatchable(Restored(at));
    hide Live, Matchable, Sound, AllIndexed, Follows, Offsets, SeekTo;
    SeekPast(log, n);
    RestFollows(log, n);
    RestartFollows(at, log[n..]);
  }

  /** Two engines with the same depth profile, one of them the replay of the first `n` orders, after
      `k` more. */
  lemma RunsAlike(log: Log, n: nat, start: Engine, k: nat)
    requires Follows(EmptyView, log) && n + k <= |log|
    requires LiveView(start.view) && SameDepth(start.view, ReplayLog(NewEngine, log[..n]).view)
    requires Follows(start.view, log[n..])
    ensures var running, part := ReplayLog(NewEngine, log[..n]), log[n..n + k];
            && log[n..][..k] == part
            && Follows(start.view, part)
            && Follows(ReplayLog(start, part).view, log[n + k..])
            && LiveView(ReplayLog(start, part).view) && LiveView(ReplayLog(NewEngine, log[..n + k]).view)
            && SameDepth(ReplayLog(start, part).view, ReplayLog(NewEngine, log[..n + k]).view)
            && Prices(ReplayLog(start, part).view) == Prices(ReplayLog(NewEngine, log[..n + k]).view)
            && Updates(start, part) == Updates(running, part)
            && SameTakerFills(SentFills(start, part), SentFills(running, part))
            && ReplayLog(NewEngine, log[..n + k]) == ReplayLog(running, part)
  {
    EmptyViewIsLive();
    assert NewEngine.view == EmptyView;
    hide *;
    var running, part := ReplayLog(NewEngine, log[..n]), log[n..n + k];
    Slices(log, n, k);
    FollowsRest(start, log[n..], k);
    PrefixFollows(log, n);
    ReplayKeepsLive(NewEngine, log[..n]);
    RestFollows(log, n);
    FollowsRest(running, log[n..], k);
    SameDepthReplay(start, running, part, 0, 0);
    SameDepthSameFills(start, running, part);
    ReplayConcat(NewEngine, log[..n], part);
  }

  lemma Slices(log: Log, n: nat, k: nat)
    requires n + k <= |log|
    ensures log[n..][..k] == log[n..n + k] && log[n..][k..] == log[n + k..]
    ensures log[..n] + log[n..n + k] == log[..n + k]
  {
  }

  /** Where the second leader ends. */
  lemma RestartEnd(log: Log, n: nat, at: Book)
    requires Follows(EmptyView, log) && n <= |log|
    requires Live(at) && ViewOf(at) == ReplayLog(NewEngine, log[..n]).view
    requires Follows(RestartView(at), log[n..])
    ensures var start, running := Engine(RestartView(at), 0), ReplayLog(NewEngine, log[..n]);
            var stopped, whole := ReplayLog(start, log[n..]), ReplayLog(NewEngine, log);
            && SameDepth(stopped.view, whole.view)
            && Prices(stopped.view) == Prices(whole.view)
            && Updates(start, log[n..]) == Updates(running, log[n..])
            && SameTakerFills(SentFills(start, log[n..]), SentFills(running, log[n..]))
            && (AscendingBook(at) ==>
                  && stopped.view == whole.view
                  && SentFills(running, log[n..]) == ShiftAll(SentFills(start, log[n..]), running.sequence))
  {
    hide Live, Sound, AllIndexed, LiveView, Follows, SameDepth, Prices, Updates, ReplayLog, RestartView, AscendingBook,
         SameTakerFills, SentFills, ShiftAll, ViewOf;
    RestartSameDepth(at);
    RestartViewExactly(at);
    SplitReplay(log, n);
    Renumbered(ReplayLog(NewEngine, log[..n]), log[n..]);
    RunsAlike(log, n, Engine(RestartView(at), 0), |log| - n);
    assert log[n..|log|] == log[n..] && log[..n + (|log| - n)] == log;
  }

  lemma SplitReplay(log: Log, n: nat)
    requires n <= |log|
    ensures ReplayLog(ReplayLog(NewEngine, log[..n]), log[n..]) == ReplayLog(NewEngine, log)
  {
    hide *;
    assert log[..n] + log[n..] == log;
    ReplayConcat(NewEngine, log[..n], log[n..]);
  }

  /** From the same view, only the numbers of the fills differ. */
  lemma Renumbered(running: Engine, rest: Log)
    ensures var start := Engine(running.view, 0);
            && ReplayLog(start, rest).view == ReplayLog(running, rest).view
            && SentFills(running, rest) == ShiftAll(SentFills(start, rest), running.sequence)
  {
    hide ReplayLog, SentFills, ShiftAll;
    assert running == Engine(running.view, 0 + running.sequence);
    ReplayShift(running.view, 0, running.sequence, rest);
  }

  lemma SameTakerFillsSelf(a: seq<Fill>)
    ensures SameTakerFills(a, a)
  {
  }

  lemma SameDepthSelf(v: View)
    ensures SameDepth(v, v)
  {
  }

  lemma PrefixFollows(log: Log, n: nat)
    requires Follows(EmptyView, log) && n <= |log|
    ensures Follows(EmptyView, log[..n])
  {
  }

  lemma RestFollows(log: Log, n: nat)
    requires Follows(EmptyView, log) && n <= |log|
    ensures Follows(ReplayLog(NewEngine, log[..n]).view, log[n..])
  {
    FollowsRest(NewEngine, log, n);
  }

  // ---------- Any number of crashes ----------

  function SnapshotIn(row: Option<Saved>): Option<BookSnapshot> {
    if row.Some? then Some(row.value.snapshot) else None
  }

  function StartOffset(row: Option<Saved>): nat {
    if row.Some? then row.value.offset + 1 else 0
  }

  /** The stored row stands for the first `n` orders: restored, it has the depth of an engine that
      processed them without a stop, and the rest of the log can follow it. */
  ghost predicate RowOk(log: Log, n: nat, row: Option<Saved>) {
    && n <= |log|
    && Live(StartBook(SnapshotIn(row)))
    && LiveView(ReplayLog(NewEngine, log[..n]).view)
    && SameDepth(StartEngine(SnapshotIn(row)).view, ReplayLog(NewEngine, log[..n]).view)
    && Follows(StartEngine(SnapshotIn(row)).view, log[n..])
    && (if row.None? then n == 0 else 0 < n && row.value.offset == log[n - 1].sequence)
  }

  lemma RowAtStart(log: Log)
    requires Follows(EmptyView, log)
    ensures RowOk(log, 0, None)
  {
    EmptyBookView();
    EmptyViewIsLive();
    SameDepthSelf(EmptyView);
    assert log[0..] == log && log[..0] == [];
  }

  /** A leader started from the row consumes exactly the rest of the log. */
  lemma RowSeeks(log: Log, n: nat, row: Option<Saved>)
    requires Offsets(log) && RowOk(log, n, row)
    ensures SeekTo(log, StartOffset(row)) == log[n..]
  {
    hide Live, LiveView, Follows, SameDepth, ReplayLog;
    if row.Some? {
      SeekPast(log, n);
    } else {
      assert log[0..] == log;
    }
  }

  /** Where a leader started from the row stands after `k` more orders. */
  lemma RowRuns(log: Log, n: nat, row: Option<Saved>, k: nat)
    requires Follows(EmptyView, log) && RowOk(log, n, row) && n + k <= |log|
    ensures var start, whole := StartEngine(SnapshotIn(row)), ReplayLog(NewEngine, log[..n]);
            && log[n..][..k] == log[n..n + k]
            && Clean(SnapshotIn(row), log[n..n + k])
            && Follows(ReplayLog(start, log[n..n + k]).view, log[n + k..])
            && LiveView(ReplayLog(NewEngine, log[..n + k]).view)
            && SameDepth(ReplayLog(start, log[n..n + k]).view, ReplayLog(NewEngine, log[..n + k]).view)
            && Prices(ReplayLog(start, log[n..n + k]).view) == Prices(ReplayLog(NewEngine, log[..n + k]).view)
            && Updates(start, log[n..n + k]) == Updates(whole, log[n..n + k])
            && SameTakerFills(SentFills(start, log[n..n + k]), SentFills(whole, log[n..n + k]))
  {
    RowStartsLive(row);
    hide Live, Sound, LiveView, Follows, SameDepth, ReplayLog, Updates, Prices, SentFills, SameTakerFills;
    RunsAlike(log, n, StartEngine(SnapshotIn(row)), k);
  }

  lemma RowStartsLive(row: Option<Saved>)
    requires Live(StartBook(SnapshotIn(row)))
    ensures LiveView(StartEngine(SnapshotIn(row)).view)
  {
    LiveBookHasLiveView(StartBook(SnapshotIn(row)));
  }

  /** A leader that starts from the row and dies after `k` orders leaves a row that is in order,
      whichever of its saves failed. */
  lemma RowAfter(log: Log, n: nat, row: Option<Saved>, k: nat, every: nat, failed: set<nat>, saved: Option<Saved>, at: Book)
    requires 0 < every && Follows(EmptyView, log) && RowOk(log, n, row) && n + k <= |log|
    requires SavedAt(StartBook(SnapshotIn(row)), log[n..n + k], k, every, failed, saved, at)
    requires saved.Some? ==> Live(at)
    ensures saved.None? <==> SnapshotPoint(k, every, failed) == 0
    ensures if saved.None? then RowOk(log, n, row) else RowOk(log, n + SnapshotPoint(k, every, failed), saved)
  {
    hide Live, Sound, LiveView, Follows, SameDepth, ReplayLog, Updates, Prices, RowOk, BookLog;
    if saved.Some? {
      var j := SnapshotPoint(k, every, failed);
      var start := StartOf(log, n, row);
      assert log[n..n + k][..j] == log[n..n + j];
      RowRunsOf(log, n, row, j);
      RowFromSnapshot(log, n, j, start, at);
      assert saved == Some(Saved(SnapshotOf(at, MARKET_ID, j), log[n..n + k][j - 1].sequence));
      assert log[n..n + k][j - 1] == log[n + j - 1];
      RowBuilt(log, n + j, saved, at);
    }
  }

  lemma StartOf(log: Log, n: nat, row: Option<Saved>) returns (start: Engine)
    requires RowOk(log, n, row)
    ensures Live(StartBook(SnapshotIn(row))) && Matchable(StartBook(SnapshotIn(row)))
    ensures start == StartEngine(SnapshotIn(row))
  {
    LiveIsMatchable(StartBook(SnapshotIn(row)));
    start := StartEngine(SnapshotIn(row));
  }

  lemma RowRunsOf(log: Log, n: nat, row: Option<Saved>, j: nat)
    requires Follows(EmptyView, log) && RowOk(log, n, row) && n + j <= |log|
    ensures var start := StartEngine(SnapshotIn(row));
            && Follows(ReplayLog(start, log[n..n + j]).view, log[n + j..])
            && LiveView(ReplayLog(NewEngine, log[..n + j]).view)
            && SameDepth(ReplayLog(start, log[n..n + j]).view, ReplayLog(NewEngine, log[..n + j]).view)
  {
    hide Live, LiveView, Follows, SameDepth, ReplayLog, RowOk;
    RowRuns(log, n, row, j);
  }

  /** A snapshot of a book with the right depth restores to the right depth. */
  lemma RowFromSnapshot(log: Log, n: nat, j: nat, start: Engine, at: Book)
    requires n + j <= |log| && Live(at) && ViewOf(at) == ReplayLog(start, log[n..n + j]).view
    requires Follows(ReplayLog(start, log[n..n + j]).view, log[n + j..])
    requires SameDepth(ReplayLog(start, log[n..n + j]).view, ReplayLog(NewEngine, log[..n + j]).view)
    ensures Live(Restored(at)) && ViewOf(Restored(at)) == RestartView(at)
    ensures SameDepth(RestartView(at), ReplayLog(NewEngine, log[..n + j]).view)
    ensures Follows(RestartView(at), log[n + j..])
  {
    RoundTripExactly(at);
    LiveIsWellFormed(Restored(at));
    hide Sound, AllIndexed, AllLive, LiveView, Follows, SameDepth, ReplayLog;
    RestartSameDepth(at);
    RestartFollows(at, log[n + j..]);
    SameDepthTransitive(RestartView(at), ViewOf(at), ReplayLog(NewEngine, log[..n + j]).view);
  }

  lemma RowBuilt(log: Log, n: nat, saved: Option<Saved>, at: Book)
    requires 0 < n <= |log| && Live(at) && Live(Restored(at)) && ViewOf(Restored(at)) == RestartView(at)
    requires saved.Some? && saved.value.snapshot.orders == Written(at.slab.entries, at.slab.capacity)
    requires saved.value.offset == log[n - 1].sequence
    requires LiveView(ReplayLog(NewEngine, log[..n]).view)
    requires SameDepth(RestartView(at), ReplayLog(NewEngine, log[..n]).view)
    requires Follows(RestartView(at), log[n..])
    ensures RowOk(log, n, saved)
  {
    LiveIsWellFormed(Restored(at));
    hide Sound, AllIndexed, AllLive, LiveView, Follows, SameDepth, ReplayLog, RestartView;
    assert StartBook(SnapshotIn(saved)) == Restored(at);
  }

  /** One leader's life: how many orders it handles, and which of its saves fail. */
  datatype Crash = Crash(orders: nat, failedSaves: set<nat>)

  /** How many of the log's `total` orders the stored row stands for after these crashes. */
  function StoredAfter(total: nat, crashes: seq<Crash>, every: nat): (n: nat)
    requires 0 < every
    ensures n <= total
  {
    if crashes == [] then 0
    else
      var n := StoredAfter(total, crashes[..|crashes| - 1], every);
      var c := crashes[|crashes| - 1];
      n + SnapshotPoint(Min(c.orders, total - n), every, c.failedSaves)
  }

  /** The fills that are sent again: after a crash, the orders behind the last stored row are run
      once more. */
  function SentAgain(log: Log, crashes: seq<Crash>, every: nat): seq<Fill>
    requires 0 < every
  {
    if crashes == [] then []
    else
      var earlier, c := crashes[..|crashes| - 1], crashes[|crashes| - 1];
      var n := StoredAfter(|log|, earlier, every);
      var k := Min(c.orders, |log| - n);
      var stored := n + SnapshotPoint(k, every, c.failedSaves);
      SentAgain(log, earlier, every) + SentFills(ReplayLog(NewEngine, log[..stored]), log[stored..n + k])
  }

  /** What the leaders that crashed have published, one after the other. */
  function Published(log: Log, crashes: seq<Crash>, every: nat): seq<BookUpdate>
    requires 0 < every
  {
    if crashes == [] then []
    else
      var earlier, c := crashes[..|crashes| - 1], crashes[|crashes| - 1];
      var n := StoredAfter(|log|, earlier, every);
      Published(log, earlier, every) + Updates(ReplayLog(NewEngine, log[..n]), log[n..n + Min(c.orders, |log| - n)])
  }

  /** Every leader dies just after a save that went through. */
  ghost predicate StopsStored(total: nat, crashes: seq<Crash>, every: nat)
    requires 0 < every
  {
    crashes != [] ==>
      var earlier, c := crashes[..|crashes| - 1], crashes[|crashes| - 1];
      var k := Min(c.orders, total - StoredAfter(total, earlier, every));
      StopsStored(total, earlier, every) && (k == 0 || (k % every == 0 && k !in c.failedSaves))
  }

  lemma {:induction false} NothingSentAgain(log: Log, crashes: seq<Crash>, every: nat)
    requires 0 < every && StopsStored(|log|, crashes, every)
    ensures SentAgain(log, crashes, every) == []
  {
    if crashes != [] {
      NothingSentAgain(log, crashes[..|crashes| - 1], every);
    }
  }

  /** What has been sent, and what is still to be sent from order `n` on, give every taker at every
      price what a leader that never stops sends, and what is sent again. */
  ghost predicate AllSent(log: Log, n: nat, sent: seq<Fill>, again: seq<Fill>) {
    n <= |log| &&
    SameTakerFills(sent + SentFills(ReplayLog(NewEngine, log[..n]), log[n..]), SentFills(NewEngine, log) + again)
  }

  lemma AllSentStarts(log: Log)
    ensures AllSent(log, 0, [], [])
  {
    assert log[..0] == [] && log[0..] == log;
    assert [] + SentFills(NewEngine, log) == SentFills(NewEngine, log) + [];
    SameTakerFillsSelf(SentFills(NewEngine, log));
  }

  /** Sending a list cut in two. */
  lemma SentSplit(log: Log, n: nat, m: nat, k: nat)
    requires n <= m <= k <= |log|
    ensures var at := ReplayLog(NewEngine, log[..n]);
            SentFills(at, log[n..k]) == SentFills(at, log[n..m]) + SentFills(ReplayLog(NewEngine, log[..m]), log[m..k])
  {
    hide *;
    var at := ReplayLog(NewEngine, log[..n]);
    assert log[n..m] + log[m..k] == log[n..k] && log[..n] + log[n..m] == log[..m];
    ReplayConcat(NewEngine, log[..n], log[n..m]);
    SentConcat(at, log[n..m], log[m..k]);
  }

  lemma AllSentNext(log: Log, n: nat, j: nat, k: nat, sent: seq<Fill>, again: seq<Fill>, f: seq<Fill>)
    requires AllSent(log, n, sent, again) && j <= k && n + k <= |log|
    requires SameTakerFills(f, SentFills(ReplayLog(NewEngine, log[..n]), log[n..n + k]))
    ensures AllSent(log, n + j, sent + f, again + SentFills(ReplayLog(NewEngine, log[..n + j]), log[n + j..n + k]))
  {
    hide ReplayLog, SentFills, TakerFilledAt;
    var at, later := ReplayLog(NewEngine, log[..n]), ReplayLog(NewEngine, log[..n + j]);
    var twice := SentFills(later, log[n + j..n + k]);
    assert log[n..|log|] == log[n..] && log[n + j..|log|] == log[n + j..];
    SentSplit(log, n, n + j, |log|);
    SentSplit(log, n, n + j, n + k);
    forall id, p
      ensures TakerFilledAt(sent + f + SentFills(later, log[n + j..]), id, p)
           == TakerFilledAt(SentFills(NewEngine, log) + (again + twice), id, p)
    {
      TakerFilledConcat(sent + f, SentFills(later, log[n + j..]), id, p);
      TakerFilledConcat(sent, f, id, p);
      TakerFilledConcat(sent, SentFills(at, log[n..]), id, p);
      TakerFilledConcat(SentFills(at, log[n..n + j]), SentFills(later, log[n + j..]), id, p);
      TakerFilledConcat(SentFills(at, log[n..n + j]), twice, id, p);
      TakerFilledConcat(SentFills(NewEngine, log), again + twice, id, p);
      TakerFilledConcat(SentFills(NewEngine, log), again, id, p);
      TakerFilledConcat(again, twice, id, p);
    }
  }

  lemma AllSentEnds(log: Log, n: nat, sent: seq<Fill>, again: seq<Fill>, f: seq<Fill>)
    requires AllSent(log, n, sent, again)
    requires SameTakerFills(f, SentFills(ReplayLog(NewEngine, log[..n]), log[n..]))
    ensures SameTakerFills(sent + f, SentFills(NewEngine, log) + again)
  {
    hide ReplayLog, SentFills, TakerFilledAt;
    forall id, p
      ensures TakerFilledAt(sent + f, id, p) == TakerFilledAt(SentFills(NewEngine, log) + again, id, p)
    {
      TakerFilledConcat(sent, f, id, p);
      TakerFilledConcat(sent, SentFills(ReplayLog(NewEngine, log[..n]), log[n..]), id, p);
    }
  }

  /** One more crash. */
  lemma CrashNext(log: Log, crashes: seq<Crash>, c: nat, every: nat)
    requires 0 < every && c < |crashes|
    ensures var n := StoredAfter(|log|, crashes[..c], every);
            var k := Min(crashes[c].orders, |log| - n);
            var stored := n + SnapshotPoint(k, every, crashes[c].failedSaves);
            && StoredAfter(|log|, crashes[..c + 1], every) == stored
            && SentAgain(log, crashes[..c + 1], every)
               == SentAgain(log, crashes[..c], every) + SentFills(ReplayLog(NewEngine, log[..stored]), log[stored..n + k])
            && Published(log, crashes[..c + 1], every)
               == Published(log, crashes[..c], every) + Updates(ReplayLog(NewEngine, log[..n]), log[n..n + k])
  {
    hide ReplayLog, SentFills, Updates, SnapshotPoint;
    assert crashes[..c + 1][..c] == crashes[..c];
  }

  lemma NoCrashes(log: Log, crashes: seq<Crash>, every: nat)
    requires 0 < every
    ensures StoredAfter(|log|, crashes[..0], every) == 0
    ensures SentAgain(log, crashes[..0], every) == [] && Published(log, crashes[..0], every) == []
  {
  }

  /** One leader's life, from the row it finds to the row it leaves. */
  method RunLeader(log: Log, ghost n: nat, row: Option<Saved>, orders: nat, snapshotEvery: nat, failed: set<nat>)
    returns (engine: MatchingEngine, fills: seq<Fill>, updates: seq<BookUpdate>, left: Option<Saved>)
    requires 0 < snapshotEvery && Follows(EmptyView, log) && Offsets(log) && RowOk(log, n, row)
    ensures n <= |log|
    ensures var k := Min(orders, |log| - n);
            var running, whole := ReplayLog(NewEngine, log[..n]), ReplayLog(NewEngine, log[..n + k]);
            && engine.IsLive()
            && SameDepth(engine.Abs().view, whole.view) && Prices(engine.Abs().view) == Prices(whole.view)
            && updates == Updates(running, log[n..n + k])
            && SameTakerFills(fills, SentFills(running, log[n..n + k]))
            && RowOk(log, n + SnapshotPoint(k, snapshotEvery, failed), left)
  {
    hide Sound, AllIndexed, AllLive, LiveView, Follows, Offsets, SameDepth, ReplayLog, Updates, Prices, RowOk, SavedAt, SeekTo,
         SentFills, SameTakerFills, SnapshotPoint, BookLog;
    RowSeeks(log, n, row);
    RowLength(log, n, row);
    var rest := SeekTo(log, StartOffset(row));
    var k := Min(orders, |rest|);
    ghost var start := StartOf(log, n, row);
    RowRuns(log, n, row, k);
    var saved;
    ghost var at;
    engine, fills, updates, saved, at := EngineThread(SnapshotIn(row), rest[..k], snapshotEvery, failed);
    RowAfter(log, n, row, k, snapshotEvery, failed, saved, at);
    left := if saved.Some? then saved else row;
  }

  /** Leaders die one after the other, each after some more orders, each restarted from whatever row
      was stored last.  The last one still ends with the depth, the best prices, the published
      updates and the fills per taker and price of a leader that never stopped; and all leaders
      together have sent those fills and the ones sent again. */
  method SurviveCrashes(log: Log, crashes: seq<Crash>, snapshotEvery: nat, lastFailed: set<nat>)
    returns (engine: MatchingEngine, fills: seq<Fill>, updates: seq<BookUpdate>, sent: seq<Fill>, published: seq<BookUpdate>)
    requires 0 < snapshotEvery && Follows(EmptyView, log) && Offsets(log)
    ensures engine.IsLive()
    ensures SameDepth(engine.Abs().view, ReplayLog(NewEngine, log).view)
    ensures Prices(engine.Abs().view) == Prices(ReplayLog(NewEngine, log).view)
    ensures var n := StoredAfter(|log|, crashes, snapshotEvery);
            && updates == Updates(ReplayLog(NewEngine, log[..n]), log[n..])
            && SameTakerFills(fills, SentFills(ReplayLog(NewEngine, log[..n]), log[n..]))
    ensures SameTakerFills(sent, SentFills(NewEngine, log) + SentAgain(log, crashes, snapshotEvery))
    ensures published == Published(log, crashes, snapshotEvery) + updates
  {
    hide Sound, AllIndexed, AllLive, LiveView, Follows, Offsets, SameDepth, ReplayLog, Updates, Prices, RowOk,
         SentFills, SameTakerFills, SnapshotPoint, AllSent, StoredAfter, SentAgain, Published;
    var row: Option<Saved> := None;
    ghost var n := 0;
    RowAtStart(log);
    AllSentStarts(log);
    NoCrashes(log, crashes, snapshotEvery);
    sent, published := [], [];
    for c := 0 to |crashes|
      invariant n == StoredAfter(|log|, crashes[..c], snapshotEvery)
      invariant RowOk(log, n, row)
      invariant AllSent(log, n, sent, SentAgain(log, crashes[..c], snapshotEvery))
      invariant published == Published(log, crashes[..c], snapshotEvery)
    {
      CrashNext(log, crashes, c, snapshotEvery);
      var e, f, u, left := RunLeader(log, n, row, crashes[c].orders, snapshotEvery, crashes[c].failedSaves);
      ghost var k := Min(crashes[c].orders, |log| - n);
      ghost var j := SnapshotPoint(k, snapshotEvery, crashes[c].failedSaves);
      AllSentNext(log, n, j, k, sent, SentAgain(log, crashes[..c], snapshotEvery), f);
      sent, published := sent + f, published + u;
      row := left;
      n := n + j;
    }
    assert crashes[..|crashes|] == crashes;
    engine, fills, updates, row := RunLeader(log, n, row, |log|, snapshotEvery, lastFailed);
    assert log[n..|log|] == log[n..] && log[..|log|] == log;
    AllSentEnds(log, n, sent, SentAgain(log, crashes, snapshotEvery), fills);
    sent, published := sent + fills, published + updates;
  }

  lemma RowLength(log: Log, n: nat, row: Option<Saved>)
    requires RowOk(log, n, row)
    ensures n <= |log|
  {
  }

  // ---------- Several partitions ----------

  /** A topic is several partitions, each with offsets of its own from zero; a schedule says from
      which partition each order was taken. */
  type Topic = seq<Log>

  function Consumed(schedule: seq<nat>, p: nat): nat {
    if schedule == [] then 0
    else Consumed(schedule[..|schedule| - 1], p) + (if schedule[|schedule| - 1] == p then 1 else 0)
  }

  ghost predicate IsSchedule(topic: Topic, schedule: seq<nat>) {
    && (forall i :: 0 <= i < |schedule| ==> schedule[i] < |topic|)
    && (forall p :: 0 <= p < |topic| ==> Consumed(schedule, p) <= |topic[p]|)
  }

  /** Where a restart begins, on every partition alike: one past the offset of the last order taken,
      which is its offset within its own partition. */
  function NextOffset(schedule: seq<nat>): nat {
    if schedule == [] then 0 else Consumed(schedule, schedule[|schedule| - 1])
  }

  /** What a consumer positioned at `offset` gets from a partition.  An offset past the end is out of
      range, and the consumer is set to begin again from the earliest order. */
  function FirstFrom(partition: Log, offset: nat): nat {
    if offset <= |partition| then offset else 0
  }

  function FromOffset(partition: Log, offset: nat): Log {
    partition[FirstFrom(partition, offset)..]
  }

  function Delivered(topic: Topic, schedule: seq<nat>, p: nat): Log
    requires p < |topic|
  {
    FromOffset(topic[p], NextOffset(schedule))
  }

  function Owed(topic: Topic, schedule: seq<nat>, p: nat): Log
    requires p < |topic| && Consumed(schedule, p) <= |topic[p]|
  {
    topic[p][Consumed(schedule, p)..]
  }

  /** The partition stands at the shared offset, or it is untouched and too short for it. */
  predicate InStep(topic: Topic, schedule: seq<nat>, p: nat)
    requires p < |topic|
  {
    var done, next := Consumed(schedule, p), NextOffset(schedule);
    next == done || (done == 0 && |topic[p]| < next)
  }

  lemma PartitionRestart(partition: Log, done: nat, next: nat)
    requires done <= |partition|
    ensures FromOffset(partition, next) == partition[done..] <==> next == done || (done == 0 && |partition| < next)
  {
    if FromOffset(partition, next) == partition[done..] {
      assert |FromOffset(partition, next)| == |partition[done..]|;
    }
  }

  /** After a snapshot a restart delivers exactly what is owed, on every partition, if and only if
      every partition is in step with the one that was served last. */
  lemma SharedOffsetExactly(topic: Topic, schedule: seq<nat>)
    requires IsSchedule(topic, schedule)
    ensures (forall p :: 0 <= p < |topic| ==> Delivered(topic, schedule, p) == Owed(topic, schedule, p))
       <==> (forall p :: 0 <= p < |topic| ==> InStep(topic, schedule, p))
  {
    forall p | 0 <= p < |topic|
      ensures Delivered(topic, schedule, p) == Owed(topic, schedule, p) <==> InStep(topic, schedule, p)
    {
      PartitionRestart(topic[p], Consumed(schedule, p), NextOffset(schedule));
    }
  }

  /** The restart delivers order `j` of partition `p`. */
  predicate Gets(topic: Topic, schedule: seq<nat>, p: nat, j: nat)
    requires p < |topic|
  {
    FirstFrom(topic[p], NextOffset(schedule)) <= j < |topic[p]|
  }

  /** A partition loses orders exactly when the shared offset is ahead of it but within it, and
      repeats orders exactly when the offset is behind it, or past its end after it was served. */
  lemma LostOrRepeated(topic: Topic, schedule: seq<nat>, p: nat)
    requires IsSchedule(topic, schedule) && p < |topic|
    ensures var done, next := Consumed(schedule, p), NextOffset(schedule);
            && ((exists j :: done <= j < |topic[p]| && !Gets(topic, schedule, p, j)) <==> done < next <= |topic[p]|)
            && ((exists j :: 0 <= j < done && Gets(topic, schedule, p, j)) <==> next < done || (|topic[p]| < next && 0 < done))
  {
    var done, next := Consumed(schedule, p), NextOffset(schedule);
    if done < next <= |topic[p]| {
      assert !Gets(topic, schedule, p, done);
    }
    if next < done || (|topic[p]| < next && 0 < done) {
      assert Gets(topic, schedule, p, done - 1);
    }
  }

  lemma {:induction false} ConsumedAll(schedule: seq<nat>)
    requires forall i :: 0 <= i < |schedule| ==> schedule[i] == 0
    ensures Consumed(schedule, 0) == |schedule|
  {
    if schedule != [] {
      ConsumedAll(schedule[..|schedule| - 1]);
    }
  }

  /** With a single partition a restart always delivers exactly what is owed. */
  lemma OnePartitionIsExact(topic: Topic, schedule: seq<nat>)
    requires |topic| == 1 && IsSchedule(topic, schedule)
    ensures Delivered(topic, schedule, 0) == Owed(topic, schedule, 0)
  {
    ConsumedAll(schedule);
  }

  /** With two partitions it need not: serving only the first loses both orders of the second, and
      serving the second once more repeats the first's last order. */
  lemma TwoPartitionsGoWrong(a: Order, b: Order, c: Order, d: Order)
    ensures var topic := [[a, b], [c, d]];
            && IsSchedule(topic, [0, 0])
            && Delivered(topic, [0, 0], 1) == [] && Owed(topic, [0, 0], 1) == [c, d]
            && IsSchedule(topic, [0, 0, 1])
            && Delivered(topic, [0, 0, 1], 0) == [b] && Owed(topic, [0, 0, 1], 0) == []
  {
    var topic := [[a, b], [c, d]];
    CountTwo();
    assert [a, b][1..] == [b] && [a, b][2..] == [] && [c, d][2..] == [] && [c, d][0..] == [c, d];
  }

  lemma CountTwo()
    ensures Consumed([0, 0], 0) == 2 && Consumed([0, 0], 1) == 0
    ensures Consumed([0, 0, 1], 0) == 2 && Consumed([0, 0, 1], 1) == 1
  {
    assert [0, 0, 1][..2] == [0, 0] && [0, 0][..1] == [0] && [0][..0] == [];
    forall p: nat
      ensures Consumed([0], p) == if p == 0 then 1 else 0
      ensures Consumed([0, 0], p) == if p == 0 then 2 else 0
    {
      assert [0, 0][..1] == [0] && [0][..0] == [];
    }
  }

  // ---------- The follower ----------

  datatype Received = Received(order: Order) | Timeout | Disconnected

  /** One turn of the follower's loop: the leader flag it reads, then what the channel gives. */
  datatype Poll = Poll(isLeader: bool, received: Received)

  /** The orders a follower gets to see before it is promoted or cut off. */
  function Seen(polls: seq<Poll>): Log {
    if polls == [] || polls[0].isLeader || polls[0].received.Disconnected? then []
    else (if polls[0].received.Received? then [polls[0].received.order] else []) + Seen(polls[1..])
  }

  /** Nothing is seen after the first poll that finds the pod promoted or the channel closed; until
      then every order received is seen, in order, and a timeout adds nothing. */
  lemma {:induction false} SeenExactly(polls: seq<Poll>, last: Poll)
    ensures Seen([]) == []
    ensures (exists i :: 0 <= i < |polls| && Stops(polls[i])) || last.isLeader || last.received == Disconnected ==>
              Seen(polls + [last]) == Seen(polls)
    ensures (forall i :: 0 <= i < |polls| ==> !Stops(polls[i])) && !last.isLeader ==>
              && (last.received == Timeout ==> Seen(polls + [last]) == Seen(polls))
              && (last.received.Received? ==> Seen(polls + [last]) == Seen(polls) + [last.received.order])
  {
    if polls == [] {
      assert polls + [last] == [last] && [last][1..] == [];
    } else {
      SeenExactly(polls[1..], last);
      assert (polls + [last])[1..] == polls[1..] + [last];
      assert forall i :: 0 < i < |polls| ==> polls[i] == polls[1..][i - 1];
    }
  }

  predicate Stops(poll: Poll) {
    poll.isLeader || poll.received == Disconnected
  }

  /** After `n` orders the follower's engine is the replay of them. */
  ghost predicate Replayed(start: Engine, log: Log, n: nat, now: Engine) {
    n <= |log| && now == ReplayLog(start, log[..n])
  }

  lemma ReplayedNext(start: Engine, log: Log, n: nat, now: Engine)
    requires n < |log| && Replayed(start, log, n, now)
    ensures Replayed(start, log, n + 1, Process(now, log[n]).engine)
  {
    hide Process;
    var next := log[..n + 1];
    assert next != [] && Front(next) == log[..n] && Last(next) == log[n];
  }

  /** What is still to be seen, one poll at a time. */
  lemma SeenNext(polls: seq<Poll>, i: nat, log: Log, n: nat)
    requires i < |polls| && n <= |log| && log[n..] == Seen(polls[i..])
    ensures polls[i].isLeader || polls[i].received.Disconnected? ==> n == |log|
    ensures !polls[i].isLeader && polls[i].received.Timeout? ==> log[n..] == Seen(polls[i + 1..])
    ensures !polls[i].isLeader && polls[i].received.Received? ==>
              n < |log| && log[n] == polls[i].received.order && log[n + 1..] == Seen(polls[i + 1..])
  {
    assert polls[i..][1..] == polls[i + 1..];
    if !polls[i].isLeader && polls[i].received.Received? {
      assert log[n..][0] == polls[i].received.order;
      assert log[n..][1..] == log[n + 1..];
    }
  }

  lemma ReplayedAll(start: Engine, log: Log, n: nat, now: Engine)
    requires Replayed(start, log, n, now) && n == |log|
    ensures now == ReplayLog(start, log)
  {
    assert log[..n] == log;
  }

  lemma ReplayStarts(start: Engine, log: Log)
    ensures Replayed(start, log, 0, start)
  {
  }

  /** The follower replays into its book until promotion or disconnect. */
  method FollowerEngine(initial: Option<BookSnapshot>, polls: seq<Poll>) returns (engine: MatchingEngine, processed: nat)
    requires Matchable(StartBook(initial))
    ensures engine.Valid()
    ensures engine.Abs() == ReplayLog(StartEngine(initial), Seen(polls))
    ensures processed == |Seen(polls)|
  {
    hide Sound, AllIndexed, AllUnfilled, AllLive, Process, Replayed, Seen, ReplayLog, ViewOf, StartBook;
    engine := StartFrom(initial);
    processed := 0;
    ghost var start, log := StartEngine(initial), Seen(polls);
    ReplayStarts(start, log);
    var i := 0;
    while i < |polls|
      invariant i <= |polls| && processed <= |log|
      invariant fresh(engine) && fresh(engine.book) && engine.Valid()
      invariant log[processed..] == Seen(polls[i..])
      invariant Replayed(start, log, processed, engine.Abs())
    {
      SeenNext(polls, i, log, processed);
      if polls[i].isLeader {
        ReplayedAll(start, log, processed, engine.Abs());
        return;
      }
      match polls[i].received {
        case Received(order) =>
          ReplayedNext(start, log, processed, engine.Abs());
          var result := engine.ProcessOrder(order);
          processed := processed + 1;
        case Timeout =>
        case Disconnected =>
          ReplayedAll(start, log, processed, engine.Abs());
          return;
      }
      i := i + 1;
    }
    SeenNothing(polls, i);
    ReplayedAll(start, log, processed, engine.Abs());
  }

  lemma SeenNothing(polls: seq<Poll>, i: nat)
    requires i == |polls|
    ensures Seen(polls[i..]) == []
  {
  }

  /** A follower and a leader that start from snapshots of books with the same view, and have seen
      the same orders, hold the same book, whatever their slab keys are. */
  method LeaderAndFollowerAgree(leaderSnap: Option<BookSnapshot>, followerSnap: Option<BookSnapshot>,
                                orders: Log, polls: seq<Poll>, snapshotEvery: nat)
    returns (leader: MatchingEngine, follower: MatchingEngine)
    requires 0 < snapshotEvery && Seen(polls) == orders
    requires Matchable(StartBook(leaderSnap)) && Matchable(StartBook(followerSnap))
    requires ViewOf(StartBook(leaderSnap)) == ViewOf(StartBook(followerSnap))
    ensures leader.Valid() && follower.Valid() && leader.Abs() == follower.Abs()
  {
    var fills, updates, saved;
    ghost var at;
    leader, fills, updates, saved, at := EngineThread(leaderSnap, orders, snapshotEvery, {});
    var processed;
    follower, processed := FollowerEngine(followerSnap, polls);
  }
}
