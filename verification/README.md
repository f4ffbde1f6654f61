# Verification of the limit order book engine

This project models the price-time matching engine of `clob-engine` and the state machines around
it in `clob-api`, and proves what they keep, what they conserve, and where they do not.

* `Types.dfy`: orders, fills, results and errors. Prices and quantities are exact integers.
* `PriceTime.dfy`: the meaning of the engine on two flat lists, best price first and oldest first
  within a price: `Greedy` matching, `Rest`, `Without`, `Process`, `Cancel`.
* `Waterfall.dfy`: greedy matching in closed form, and the depth profile of a side.
* `Levels.dfy`, `Book.dfy`: ordered price maps, the slab with its last-freed-first keys, the id
  index; the representation invariant `WellFormed`, and what each operation does to the flat view.
* `OrderBook.dfy`, `MatchingEngine.dfy`: the two mutable classes, with the loops and branches of
  the source, proved against the flat meaning and, through `Drain.dfy`, against the concrete book:
  which slab keys an order frees and which one it takes.
* `ProcessLaws.dfy`, `Runs.dfy`, `Conservation.dfy`, `Laws.dfy`: one order, whole runs,
  conservation, time priority, and laws that relate different orders.
* `OrderLaws.dfy`: what one order does, told from the fields of the order and of the orders that
  rest, without the functions the engine is specified by.
* `Histories.dfy`: the mutable engine driven through whole histories.
* `Snapshot.dfy`, `Replay.dfy`, `Recovery.dfy`, `Reordering.dfy`, `Processor.dfy`: snapshots, log
  replay, recovery, logs whose restart reverses a queue, the leader's engine thread with restart,
  and the follower's loop.
* `Lease.dfy`: leader election, per pod and for several pods on a shared clock.
* `VecBook.dfy`: the benchmark's book over sorted vectors.

How the layers fit: every method of `MatchingEngine` states its new state as a function of the flat
view (`Abs`), so slab keys never matter to matching, and every theorem about `Process`, `Cancel`,
`Run` and `ReplayLog` is a theorem about the class. Snapshots are the one place where slab keys do
matter. There the theorems speak of the concrete `Book`: `ProcessOrder` also leaves exactly
`BookAfter`, a log exactly `BookLog`, and both are the flat meaning when seen flat
(`Matching.BookAfterIsProcess`, `Recovery.BookLogIsReplay`).

## What the model shows about the code

* The comment at crates/clob-engine/src/snapshot.rs:35 promises price-time order; the loop at line
  37 walks the slab in key order. Queues survive a restart exactly when each is ascending in slab
  key (`Snapshots.RoundTripExactly`, and for the book a log leaves, `Recovery.LogRecoversExactly`).
  `Reordering.LogCanReorder` is a log of four orders after which the restart reverses a queue,
  `Reordering.FreedKeysReorder` one that turns on two freed keys coming back last freed first;
  `Snapshots.RestartCanReorder` does it with a cancel. A reversed queue always shows in the makers
  of some later trades (`Recovery.TradesRecoverExactly`). Depth, best prices, published updates and
  the fills per taker and price survive always (`Recovery.RecoveryPreservesDepth`), through any
  number of crashes and failed saves (`Processor.SurviveCrashes`). What is sent twice, per taker and
  price, is exactly the fills of the orders between the last stored row and the crash; nothing is,
  if every leader dies just after a save that went through (`Processor.NothingSentAgain`).
* A limit order without a price is matched against zero or the largest decimal and can trade before
  it is refused; the fills are then not reported (`ProcessLaws.FillsLostExactly`; a failing input is
  `ProcessLaws.UnpricedCanLoseFills`). It is also the only order for which the two sides are not
  treated alike (`Laws.MirrorExactly`) and the only one that can make published prices too good
  without an update (`Replay.StalenessStep`, `Replay.UnpricedCanDrain`). The HTTP handler
  refuses such orders (crates/clob-api/src/handlers/orders.rs:47-50); the engine does not.
* Inserting an id the index already knows breaks the index (`BookModel.InsertNeedsFreshId`).
* The lease lets another pod in after sixteen whole seconds, not fifteen, because the elapsed time
  is truncated to seconds before it is compared (`Lease.ExpiresAfterSixteenSeconds`); the README's
  "≤15s" is therefore one second short. A standby looks only every three seconds: if the holder
  never renews again, the lease has changed hands within a time `t` of the last renewal if and only
  if `t` is at least sixteen seconds, the retry interval and the standby's lateness together
  (`Lease.TakeoverThreshold`). Two pods never lead at once exactly when renewal interval
  plus lateness stays under sixteen seconds (`Lease.SafetyThreshold`). Reading and writing the
  lease are separate calls without a version check, so an attempt that is overtaken is answered
  wrongly (`Lease.InterruptedExactly`, `Lease.OvertakenIsWrong`) and an expired lease can be won
  twice (`Lease.RaceTwoWinners`). A pod that is told of the loss right after a success stops counting
  as healthy; an error in between hides the loss for as long as the pod does not win the lease again
  (`Lease.FlagsExactly`, `Lease.ErrorHidesLoss`). When two pods win one lease, the transition count
  is right only if the first to write held the lease already (`Lease.RaceCountExactly`).
* One saved offset is sought on every partition, and an offset past a partition's end starts it
  again from the earliest order. A restart replays what is owed exactly when every partition stands
  at the offset of the one served last, or is untouched and shorter (`Processor.SharedOffsetExactly`);
  otherwise it loses or repeats orders (`Processor.LostOrRepeated`, `Processor.TwoPartitionsGoWrong`).
  With one partition it is always right (`Processor.OnePartitionIsExact`), and the recovery theorems
  are about one totally ordered log.

The engine's methods take any order whatsoever. What callers guarantee is stated as preconditions
where a law needs it: incoming orders have nothing filled and status open, and carry an id of their
own (crates/clob-api/src/handlers/orders.rs:57-66). Clocks, channels, and failures of the lease API
and of snapshot saves are parameters.

## Model

| member | source | states |
|---|---|---|
| `Waterfall.GreedyConsumes` | crates/clob-engine/src/matching.rs:91-158 | matching trades the smaller of what the taker wants and what stands within its reach, and takes exactly that from the front of the opposite side |
| `Waterfall.GreedyPours` | crates/clob-engine/src/matching.rs:91-224 | fill i names maker i in priority order at the maker's price, exhausts every maker but the last, is positive and consecutively numbered; no more fills than makers, and no fewer than needed |
| `Waterfall.DepthOfConsume` | crates/clob-engine/src/matching.rs:176-223 | matching acts on the cumulative depth of a side by subtracting the traded quantity |
| `Waterfall.ConsumeIsSuffix` | crates/clob-engine/src/matching.rs:212-223 | what is left of the consumed side is a suffix of it whose first order may be partly filled |
| `ProcessLaws.RestIsInsertion` | crates/clob-engine/src/orderbook.rs:47-51 | a rested order stands after every equal or better price and before every worse one, and nothing else moves |
| `ProcessLaws.ProcessShape` | crates/clob-engine/src/matching.rs:37-86 | any order on a live book, whatever its fields: the quantity traded, the new book, the fills, and the exact result for each kind of order |
| `ProcessLaws.ProcessKeepsLive` | crates/clob-engine/src/matching.rs:37-86 | sides stay sorted, resting orders stay unexhausted with the right status, ids stay distinct, and only the order's own id can appear |
| `ProcessLaws.ProcessKeepsUncrossed` | crates/clob-engine/src/matching.rs:62-130 | an uncrossed book stays uncrossed |
| `OrderLaws.LimitIsKept` | crates/clob-engine/src/matching.rs:103-121 | no limit bid buys above its price and no limit ask sells below it; nothing is traded when every opposite price is worse |
| `OrderLaws.TradesWhatIsOffered` | crates/clob-engine/src/matching.rs:91-158 | the quantity traded is the smaller of what the order still wants and what the other side still has at prices the order accepts, with the two stand-in prices for unpriced limit orders |
| `OrderLaws.FillsWithinPrice` | crates/clob-engine/src/matching.rs:161-210 | fill by fill: the taker, the maker whose turn it is, that maker's own price, a positive quantity the maker has, the number, and a price the order accepts |
| `OrderLaws.ResultExactly` | crates/clob-engine/src/matching.rs:53-86 | the answer to any order on any engine, from its quantity, what is left of it, its type and price, and the fills |
| `OrderLaws.RestsAtItsPrice` | crates/clob-engine/src/orderbook.rs:47-51 | an order that rests stands behind every equal or better price of its side and before every worse one, with what it traded recorded on it |
| `OrderLaws.CancelExactly` | crates/clob-engine/src/matching.rs:44-49 | a cancel takes the one order of that id out of its side and leaves all else, an unknown id is reported and changes nothing |
| `OrderLaws.SidesByPrice` | crates/clob-engine/src/orderbook.rs:22-26 | bids stand from the highest price down, asks from the lowest up |
| `ProcessLaws.GreedyPriority` | crates/clob-engine/src/matching.rs:107-128 | fills name makers front to back and only the last maker named can still be waiting, at the front |
| `ProcessLaws.FillsLostExactly` | crates/clob-engine/src/matching.rs:59-65 | an error comes back after fills exactly for unpriced limit orders that reach something but not enough |
| `ProcessLaws.UnpricedCanLoseFills` | crates/clob-engine/src/matching.rs:59-65 | every unpriced limit order of two units or more, against one unit at the price it is compared with, trades that unit and reports an error |
| `BookModel.InsertRefines` | crates/clob-engine/src/orderbook.rs:36-54 | inserting a fresh priced order keeps slab, index and levels in agreement and rests the order on its side of the view |
| `BookModel.InsertNeedsFreshId` | crates/clob-engine/src/orderbook.rs:43-45 | inserting keeps the structures in agreement if and only if the id is not in the index |
| `BookModel.RemoveRefines` | crates/clob-engine/src/orderbook.rs:70-83 | removing a key from slab, index and level drops exactly its order from the view |
| `BookModel.RemoveIsSound` | crates/clob-engine/src/orderbook.rs:70-83 | a removal does so even where the index no longer names every order |
| `BookModel.TakenIsNext` | crates/clob-engine/src/orderbook.rs:44-80 | a freed slab key is the next one handed out, and handing it out restores the free list |
| `BookModel.FreedKeysComeBack` | crates/clob-engine/src/orderbook.rs:44-80 | keys freed one after the other go to as many new orders in the opposite order, and then the free list is what it was |
| `BookModel.InsertAfterRemove` | crates/clob-engine/src/orderbook.rs:36-83 | the order inserted after a removal gets the removed order's key in slab and index, at the back of its level |
| `BookModel.AmendFront` | crates/clob-engine/src/matching.rs:183-195 | filling the front maker in place changes only the head of its side |
| `BookModel.RemoveFront` | crates/clob-engine/src/orderbook.rs:119-134 | removing the front order drops only the head of its side |
| `BookModel.PopFrontRemoves` | crates/clob-engine/src/orderbook.rs:119-134 | popping a level's front is removing that key from all four structures |
| `BookModel.LiveBookHasLiveView` | crates/clob-engine/src/orderbook.rs:15-27 | a book whose structures agree flattens to sorted sides of distinct resting orders |
| `Levels.FlattenPush` | crates/clob-engine/src/orderbook.rs:47-51 | pushing at the back of a price level is resting behind every equal or better price in the flat list |
| `Levels.LevelOfFlatten` | crates/clob-engine/src/orderbook.rs:99-104 | a level's queue is what the flat list holds at its price |
| `OrderBooks.OrderBook.InsertOrder` | crates/clob-engine/src/orderbook.rs:36-54 | both refusals change nothing; otherwise the order rests under the key last freed, or a new one at the end if none is free |
| `OrderBooks.OrderBook.CancelOrder` | crates/clob-engine/src/orderbook.rs:58-86 | each refusal and its condition; otherwise exactly the named order leaves the book, its id leaves the index and its key is the next to be handed out |
| `OrderBooks.OrderBook.BestBid` | crates/clob-engine/src/orderbook.rs:89-91 | the highest bid, or none exactly when there are no bids |
| `OrderBooks.OrderBook.BestAsk` | crates/clob-engine/src/orderbook.rs:94-96 | the lowest ask, or none exactly when there are no asks |
| `OrderBooks.OrderBook.LevelDepth` | crates/clob-engine/src/orderbook.rs:99-104 | the number of orders the view holds at a price |
| `OrderBooks.OrderBook.BestBidFront` | crates/clob-engine/src/orderbook.rs:107-110 | the first key of the best bid level |
| `OrderBooks.OrderBook.BestAskFront` | crates/clob-engine/src/orderbook.rs:113-116 | the first key of the best ask level |
| `OrderBooks.OrderBook.PopFront` | crates/clob-engine/src/orderbook.rs:119-134 | the front key leaves level, slab and index; an emptied level disappears |
| `Matching.MatchingEngine.ProcessOrder` | crates/clob-engine/src/matching.rs:37-42 | for any order, whatever its fields: the new view, fill sequence and result are those of the flat specification, and the concrete book, slab keys included, is `BookAfter`; a fresh unfilled order keeps the four structures in agreement |
| `Matching.MatchingEngine.Cancel` | crates/clob-engine/src/matching.rs:44-49 | a known id leaves its side of the view, an unknown one is reported and changes nothing |
| `Matching.MatchingEngine.MatchAgainstBook` | crates/clob-engine/src/matching.rs:91-130 | the limit loop terminates and computes the greedy match within the taker's price |
| `Matching.MatchingEngine.SweepBook` | crates/clob-engine/src/matching.rs:133-158 | the market loop terminates and computes the greedy match without a price bound |
| `Matching.MatchingEngine.ExecuteFill` | crates/clob-engine/src/matching.rs:161-224 | one positive fill at the front maker, which is removed exactly when exhausted; a missing key or exhausted taker changes nothing |
| `Matching.FillFrontIs` | crates/clob-engine/src/matching.rs:183-223 | filling the front key of a side in the concrete book changes or drops the head of that side, keeps the structures in agreement, and nothing else moves |
| `Matching.DrainIsGreedy` | crates/clob-engine/src/matching.rs:91-158 | taking what the taker gains key by key from the concrete book leaves, seen flat, the makers of the greedy match |
| `Matching.DrainFrees` | crates/clob-engine/src/matching.rs:212-223 | the keys of the exhausted makers come free from the front on, the last one on top, and the other keys keep their places |
| `Matching.BookAfterIsProcess` | crates/clob-engine/src/matching.rs:37-86 | the concrete book after any order, seen flat, is the flat book after it, and stays live for a fresh unfilled order |
| `Histories.RunHistory` | crates/clob-engine/src/matching.rs:37-49 | any history of submissions and cancels keeps the structures in agreement and the book uncrossed, and numbers fills without a gap |
| `Histories.RunSequence` | crates/clob-engine/src/matching.rs:438-447 | a list of orders yields exactly the reported fills of the flat specification |
| `Histories.TradesNumbered` | crates/clob-engine/src/matching.rs:176-210 | over any history fills are positive and numbered 1, 2, 3, ... |
| `Runs.RunKeepsBook` | crates/clob-engine/src/matching.rs:37-86 | after any history the book is live, not crossed, and holds only submitted orders |
| `Runs.CancelKeepsView` | crates/clob-engine/src/orderbook.rs:58-86 | cancelling keeps the book live and uncrossed, adds no order and really removes the id |
| `Conservation.QuantityConserved` | crates/clob-engine/src/matching.rs:53-86 | per side, accepted quantity is traded plus resting plus withdrawn plus discarded, with the same traded quantity on both sides |
| `Conservation.RunAccounted` | crates/clob-engine/src/matching.rs:168-210 | the fills naming an order sum to its filled quantity and never exceed its quantity; every resting order comes from its submission |
| `Conservation.GreedyCredits` | crates/clob-engine/src/matching.rs:183-210 | a match credits each maker and the taker with exactly what its fills say |
| `Conservation.RunTimeOrdered` | crates/clob-engine/src/orderbook.rs:43-51 | if sequence numbers grow, every price level stays ordered by sequence number |
| `Conservation.PriceTimePriority` | crates/clob-engine/src/matching.rs:107-128 | no order is filled while another that precedes it in price and time is still waiting |
| `Laws.MarketOrdersAdd` | crates/clob-engine/src/matching.rs:76-86 | market orders of a and then b leave the book and every maker's fills of one market order of a + b |
| `Laws.ConsumeAdds` | crates/clob-engine/src/matching.rs:133-158 | taking a and then b from a side is taking a + b, order by order |
| `Laws.MarketIsLimitThenCancel` | crates/clob-engine/src/matching.rs:91-158 | a market order is a limit order priced past everything, followed by its cancel |
| `Laws.CancelUndoesRest` | crates/clob-engine/src/orderbook.rs:36-86 | cancelling a just rested order restores the side |
| `Laws.MirrorCommutes` | crates/clob-engine/src/matching.rs:97-126 | swapping the sides and negating prices commutes with processing, on book, fills and result |
| `Laws.MirrorExactly` | crates/clob-engine/src/matching.rs:104-118 | it does so on every live book exactly for market orders, priced limit orders and refused quantities |
| `Snapshots.SerializeBook` | crates/clob-engine/src/snapshot.rs:30-58 | market and sequence as given, and the orders under the occupied keys in ascending key order, every field recorded |
| `Snapshots.DeserializeBook` | crates/clob-engine/src/snapshot.rs:60-83 | the book holds exactly the orders that are neither filled nor cancelled and have a quantity, under keys 0, 1, 2, ..., each level in the order of the snapshot |
| `Snapshots.RestorePutsBack` | crates/clob-engine/src/snapshot.rs:62-80 | so for every snapshot whatsoever, even with several orders under one id |
| `Snapshots.LevelRoundTrip` | crates/clob-engine/src/snapshot.rs:35-80 | each level keeps its orders, and its order exactly when its queue was ascending in slab key |
| `Snapshots.RoundTripContents` | crates/clob-engine/src/snapshot.rs:30-83 | every live book restores to a live book with the same orders, level depths and best prices |
| `Snapshots.RoundTripExactly` | crates/clob-engine/src/snapshot.rs:35-80 | the whole view survives if and only if every level was ascending in slab key |
| `Snapshots.RestartCanReorder` | crates/clob-engine/src/snapshot.rs:35-49 | insert two, cancel the first, insert a third: the restart puts the newest order first |
| `Replay.SameDepthStep` | crates/clob-engine/src/matching.rs:53-86 | engines with equal depth profiles trade the same quantity at the same prices and keep equal profiles |
| `Replay.SameDepthReplay` | crates/clob-api/src/ingest/processor.rs:106-151 | so they do over any log, with the same published updates, and the same fills, executed or sent, per taker and price |
| `Replay.SameDepthSameLevels` | crates/clob-engine/src/orderbook.rs:99-104 | equal depth profiles rest the same quantity at every single price |
| `Replay.ReplayShift` | crates/clob-engine/src/matching.rs:180-181 | a different starting fill sequence shifts the numbers of executed and sent fills and changes nothing else |
| `Replay.FillsNumbered` | crates/clob-engine/src/matching.rs:176-210 | along a log fills are positive and numbered consecutively from the engine's sequence |
| `Replay.AllFillsSent` | crates/clob-api/src/ingest/processor.rs:122-141 | when every limit order has a price, the thread sends on exactly the fills that happened |
| `OrderLaws.PublishesExactly` | crates/clob-api/src/ingest/processor.rs:122-151 | an order publishes and sends if and only if it has a quantity and is a market order, or exhausted, or priced with something traded; a market order does so even with nobody to trade with |
| `OrderLaws.UpdatesAndFillsOf` | crates/clob-api/src/ingest/processor.rs:122-151 | along any log such an order adds one update, the prices right after it, and sends every fill it made; any other adds nothing |
| `OrderLaws.PricesAreBest` | crates/clob-api/src/ingest/processor.rs:144-151 | published prices are the highest bid and the lowest ask, missing exactly for an empty side |
| `Replay.StalenessStep` | crates/clob-api/src/ingest/processor.rs:122-151 | an unpublished order leaves neither best price worse, except exactly an unpriced limit order that empties the best opposite level |
| `Replay.UnpricedCanDrain` | crates/clob-api/src/ingest/processor.rs:122-151 | every unpriced limit order of two units or more can empty the best opposite level with no update published |
| `Replay.PublishedPricesAreSafe` | crates/clob-api/src/ingest/processor.rs:122-151 | after any log the best bid is at least, and the best ask at most, what was last published, if no order since has silently emptied a best level |
| `Replay.PricedIsQuiet` | crates/clob-api/src/ingest/processor.rs:122-151 | when every limit order has a price, none ever does |
| `Recovery.RecoveryPreservesDepth` | crates/clob-api/src/ingest/processor.rs:85-122 | for every live book and rest of the log, a restart keeps depth, best prices, updates and fills per taker and price |
| `Recovery.RecoveryExactly` | crates/clob-api/src/ingest/processor.rs:79-122 | a restart gives the same book and the same fills, renumbered from one, for every rest of the log if and only if every level was ascending in slab key |
| `Recovery.BookLogIsReplay` | crates/clob-api/src/ingest/processor.rs:106-120 | the concrete book a log leaves, seen flat, is the replay of the log, and it is live if the orders can follow the start |
| `Recovery.LogRecoversExactly` | crates/clob-api/src/ingest/processor.rs:79-122 | after any log the restart rebuilds the replayed view if and only if the log left every queue ascending in slab key |
| `Reordering.LogCanReorder` | crates/clob-engine/src/snapshot.rs:35-49 | two orders at a price, a taker that exhausts the first, a fourth order at that price: the engine's book holds the second before the fourth, the restarted one the fourth before the second |
| `Reordering.FreedKeysReorder` | crates/clob-engine/src/snapshot.rs:35-49 | two orders at a price, one order that takes both, two more at that price: they get the freed keys last freed first, so the restart reverses them |
| `Recovery.TradesRecoverExactly` | crates/clob-api/src/ingest/processor.rs:79-122 | so for the trades alone: makers, takers, prices and quantities agree on every rest of the log if and only if every level was ascending |
| `Processor.StartFrom` | crates/clob-api/src/ingest/processor.rs:76-98 | a thread starts from an empty book or the orders its snapshot puts back, with the fill sequence at zero |
| `Processor.EngineThread` | crates/clob-api/src/ingest/processor.rs:76-187 | the thread's book (slab keys included), sent fills and published prices are those of the replay of any orders; the stored row holds a snapshot of the book at the last multiple of the interval whose save did not fail, with that count as its sequence and that order's offset |
| `Processor.CrashAndRestart` | crates/clob-api/src/main.rs:75-112 | a leader restarted from the stored row and the offset after it ends with the depth, prices, updates and fills per taker and price of one that never stopped; with the same book and renumbered fills if the book the log had left at the row was ascending |
| `Processor.RunLeader` | crates/clob-api/src/main.rs:75-112 | one leader started from a stored row: what it holds, publishes and sends, and the row it leaves, whichever saves fail |
| `Processor.SurviveCrashes` | crates/clob-api/src/main.rs:75-112 | after any number of crashes at any points, with any saves failing, each leader restarted from the last stored row: the last one has the depth and prices of one that never stopped, and publishes and sends, from the last row on, the same updates and the same fills per taker and price; all leaders together send, per taker and price, the fills of one that never stopped plus those of the orders run again, and publish the updates of their stretches one after the other |
| `Processor.NothingSentAgain` | crates/clob-api/src/ingest/processor.rs:153-179 | no fill is sent again if every leader dies just after a save that went through |
| `Processor.RowAfter` | crates/clob-api/src/ingest/processor.rs:153-179 | a restarted leader that dies at any point, whichever saves failed, leaves a stored row that restores to the right depth at its own offset |
| `Processor.SeekPast` | crates/clob-api/src/main.rs:75-84 | consuming from the saved offset plus one delivers exactly the orders after the snapshot |
| `Processor.SeekExactly` | crates/clob-api/src/kafka/consumer.rs:48-56 | seeking any offset leaves exactly the orders at that offset or later |
| `Processor.SharedOffsetExactly` | crates/clob-api/src/kafka/consumer.rs:27-63 | for every topic and every interleaving: one offset sought on all partitions delivers what each still owes if and only if each stands at it, or is untouched and too short for it |
| `Processor.LostOrRepeated` | crates/clob-api/src/kafka/consumer.rs:27-63 | exactly when a partition loses orders, and exactly when it repeats some |
| `Processor.OnePartitionIsExact` | crates/clob-api/src/kafka/consumer.rs:48-56 | with one partition a restart always delivers what is owed |
| `Processor.TwoPartitionsGoWrong` | crates/clob-api/src/kafka/consumer.rs:48-56 | two partitions of two orders: one run whose restart loses both orders of the second, one whose restart repeats an order of the first |
| `Processor.FollowerEngine` | crates/clob-api/src/follower.rs:30-76 | the follower's book is the replay of the orders it saw before promotion or disconnect |
| `Processor.SeenExactly` | crates/clob-api/src/follower.rs:49-75 | nothing is seen after the first poll that finds the pod promoted or the channel closed; until then every order received is, in order |
| `Processor.LeaderAndFollowerAgree` | crates/clob-api/src/follower.rs:47-75 | leader and follower that start from equal views and see the same orders hold equal books, whatever their slab keys |
| `Lease.LeaderElector.TryAcquireOrRenew` | crates/clob-api/src/leader.rs:82-158 | one attempt: create, renew, take over or stand back, and what each failure leaves behind |
| `Lease.AttemptExactly` | crates/clob-api/src/leader.rs:82-158 | one attempt from the fields of the lease, for every lease, missing fields included, every moment and every fault: the lease after it and the answer |
| `Lease.LeaderElector.Turn` | crates/clob-api/src/leader.rs:49-79 | one turn: the lease, both flags and the sleep, five or three seconds, after each outcome |
| `Lease.TurnOfLeader` | crates/clob-api/src/leader.rs:49-79 | a leader that is told the lease is another pod's neither leads nor counts as healthy; one whose attempt fails stops leading and counts as before |
| `Lease.FlagsExactly` | crates/clob-api/src/leader.rs:49-79 | over any answers since the start: a pod leads if and only if the last attempt succeeded, and counts as healthy if and only if one has succeeded and no loss was reported right after a success since |
| `Lease.ErrorHidesLoss` | crates/clob-api/src/leader.rs:61-77 | after an error no number of refusals and errors makes a healthy pod count as unhealthy |
| `Lease.ExpiresAfterSixteenSeconds` | crates/clob-api/src/leader.rs:121-127 | another pod's attempt succeeds exactly sixteen seconds after the last renewal, not fifteen |
| `Lease.SafeRun` | crates/clob-api/src/leader.rs:49-158 | in every run with leaders late by less than the slack, one leader at most, and it is the recorded holder, whatever calls fail |
| `Lease.SafetyThreshold` | crates/clob-api/src/leader.rs:14-17 | two pods never lead at once, in any run from any lease, if and only if leaders are late by less than eleven seconds, sixteen less the renewal interval |
| `Lease.TransitionsCounted` | crates/clob-api/src/leader.rs:129-142 | the transition count is the number of changes of holder in the write history |
| `Lease.TakeoverBound` | crates/clob-api/src/leader.rs:49-158 | if no write of the holder gets through again, the lease belongs to another pod sixteen seconds, the retry interval and a standby's lateness after the last renewal, whatever further pods do |
| `Lease.SuccessorLeads` | crates/clob-api/src/leader.rs:49-158 | if no third pod takes a turn, the standby holds the lease then, and leads |
| `Lease.TakeoverThreshold` | crates/clob-api/src/leader.rs:14-17 | the lease changes hands within a given time of the last renewal, in every such run, if and only if the time is at least nineteen seconds and the standby's lateness |
| `Lease.InterruptedExactly` | crates/clob-api/src/leader.rs:87-152 | when a write after a read does what an atomic attempt at that moment would do: exactly when the lease was absent both times, or present both times and equally free to the pod (its own or expired), and if free, with the same transition count to write |
| `Lease.OvertakenIsWrong` | crates/clob-api/src/leader.rs:87-152 | a pod overtaken on an expired lease is told it leads where an atomic attempt would have stood back |
| `Lease.RaceOutcome` | crates/clob-api/src/leader.rs:87-149 | when two interleaved attempts both win: exactly when each was free to take an existing lease |
| `Lease.RaceTwoWinners` | crates/clob-api/src/leader.rs:87-149 | on an expired lease both win, and the count misses one change of holder |
| `Lease.RaceCountExactly` | crates/clob-api/src/leader.rs:129-142 | when both win, the count grows by the changes of holder if and only if the first to write held the lease already; it misses both if the second did, and one otherwise |
| `VecBooks.BinarySearch` | crates/clob-engine/benches/btreemap_vs_vec.rs:56-63 | the index of a price, or the only place where it keeps the vector sorted |
| `VecBooks.InsertLevel` | crates/clob-engine/benches/btreemap_vs_vec.rs:58-62 | a level inserted at that place adds exactly that price to the map the vector stands for |
| `VecBooks.RemoveLevel` | crates/clob-engine/benches/btreemap_vs_vec.rs:85-87 | removing a level removes exactly that price |
| `VecBooks.VecBook.Insert` | crates/clob-engine/benches/btreemap_vs_vec.rs:43-64 | the vector book reaches the state the map book's insert reaches |
| `VecBooks.VecBook.Cancel` | crates/clob-engine/benches/btreemap_vs_vec.rs:66-89 | the vector book reaches the state the map book's removal reaches |
| `VecBooks.VecBook.BestBid` | crates/clob-engine/benches/btreemap_vs_vec.rs:91-93 | the last level holds the highest bid |
| `VecBooks.VecBook.BestAsk` | crates/clob-engine/benches/btreemap_vs_vec.rs:95-97 | the first level holds the lowest ask |
| `VecBooks.SameStates` | crates/clob-engine/benches/btreemap_vs_vec.rs:33-98 | after any run of inserts, with or without a price, under new or reused ids, and cancels, both books agree on slab, index, every queue and the best prices |

## Left out

- Decimal rounding and overflow: prices and quantities are unbounded integers; the only decimal limit kept is the largest value, which unpriced asks are compared with.
- The 64-bit fill sequence and the 32-bit transition count do not wrap.
- The `slab` crate is not part of this repository; its keys are modelled as last freed, first reused, and iteration as ascending in key.
- The postcard byte encoding is the identity on `BookSnapshot`, so decoding errors do not occur.
- Kafka, Postgres, Redis, gRPC, HTTP and WebSocket code; channels are sequences of what they deliver, and sends never fail. Deletion of old Kafka records is not modelled.
- Cancels in the replayed log: the HTTP cancel is not implemented, so logs hold orders only; cancels are covered at engine level.
- The market name in a published update, and the order of sends on different channels.
- `FillWriter` batching, metrics, tracing, health endpoints, pod labels and the mock ingestor: no hard property.
- That only the leader writes: `run_leader` ignores its leadership flag, so only the flag itself is covered.
- VecBooks.SameStates: priced inserts have a positive quantity and are not complete on arrival; the map book refuses the first kind and refuses to cancel the second, the vector book does neither.
- Processor.EngineThread: `snapshotEvery` is positive; the source divides by zero when the environment sets it to zero.
- The lease's acquire time, which no decision reads.
