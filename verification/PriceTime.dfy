/** Price-time priority on flattened sides: what matching, resting and cancelling mean when the
    book is seen as two lists, best price first and oldest first within a price. */
module PriceTime {
  import opened Types

  /** Lower rank is better: asks by price, bids by negated price. */
  function Rank(side: Side, p: Price): int {
    if side.Ask? then p else -p
  }

  function RankOf(side: Side, o: Order): int {
    Rank(side, o.PriceOrZero())
  }

  ghost predicate Sorted(side: Side, s: seq<Order>) {
    forall i, j :: 0 <= i < j < |s| ==> RankOf(side, s[i]) <= RankOf(side, s[j])
  }

  ghost predicate AllResting(side: Side, s: seq<Order>) {
    forall i :: 0 <= i < |s| ==> RestingOrder(s[i]) && s[i].side == side
  }

  /** One side of a live book. */
  ghost predicate LiveSide(side: Side, s: seq<Order>) {
    Sorted(side, s) && AllResting(side, s)
  }

  // ---------- The two operations on one side ----------

  /** Record a fill of `q` on an order. */
  function ApplyFill(o: Order, q: Quantity): Order {
    o.(filled := o.filled + q,
       status := if o.quantity - (o.filled + q) <= 0 then Filled else PartiallyFilled)
  }

  /** Put `o` behind every order of equal or better price. */
  function Rest(side: Side, s: seq<Order>, o: Order): seq<Order> {
    if s == [] || RankOf(side, o) < RankOf(side, s[0]) then [o] + s
    else [s[0]] + Rest(side, s[1..], o)
  }

  /** Drop the order named `id`. */
  function Without(s: seq<Order>, id: OrderId): seq<Order> {
    if s == [] then []
    else if s[0].id == id then Without(s[1..], id)
    else [s[0]] + Without(s[1..], id)
  }

  ghost predicate HasId(s: seq<Order>, id: OrderId) {
    exists i :: 0 <= i < |s| && s[i].id == id
  }

  /** Dropping an id that is not there changes nothing. */
  lemma {:induction false} WithoutMissing(s: seq<Order>, id: OrderId)
    requires !HasId(s, id)
    ensures Without(s, id) == s
  {
    if s != [] {
      assert !HasId(s[1..], id);
      WithoutMissing(s[1..], id);
    }
  }

  // ---------- Matching one taker against the opposite side ----------

  /** May a taker on `side` trade at `p`?  No bound means a market order. */
  predicate Eligible(side: Side, bound: Option<Price>, p: Price) {
    bound.Some? ==> Rank(side.Opposite(), p) <= Rank(side.Opposite(), bound.value)
  }

  /** The price a limit taker is compared with: an unpriced bid counts as zero, an unpriced ask as
      the largest decimal. */
  function LimitPrice(o: Order): Price {
    if o.price.Some? then o.price.value
    else if o.side.Bid? then 0
    else DECIMAL_MAX
  }

  function BoundOf(o: Order): Option<Price> {
    if o.orderType.Market? then None else Some(LimitPrice(o))
  }

  datatype Outcome = Outcome(taker: Order, makers: seq<Order>, fills: seq<Fill>, sequence: nat)

  /** Trade with the front maker until the taker is exhausted or the front is out of reach. */
  function Greedy(taker: Order, bound: Option<Price>, makers: seq<Order>, sequence: nat): Outcome
    decreases |makers|
  {
    if taker.Remaining() <= 0 || makers == [] || !Eligible(taker.side, bound, makers[0].PriceOrZero()) then
      Outcome(taker, makers, [], sequence)
    else
      var maker := makers[0];
      var q := Min(taker.Remaining(), maker.Remaining());
      var fill := Fill(maker.id, taker.id, maker.PriceOrZero(), q, sequence + 1);
      if maker.Remaining() <= q then
        var rest := Greedy(ApplyFill(taker, q), bound, makers[1..], sequence + 1);
        rest.(fills := [fill] + rest.fills)
      else
        Outcome(ApplyFill(taker, q), [ApplyFill(maker, q)] + makers[1..], [fill], sequence + 1)
  }

  // ---------- The whole engine ----------

  datatype View = View(bids: seq<Order>, asks: seq<Order>) {
    function On(side: Side): seq<Order> {
      if side.Bid? then bids else asks
    }

    function With(side: Side, s: seq<Order>): View {
      if side.Bid? then View(s, asks) else View(bids, s)
    }

    ghost predicate Contains(id: OrderId) {
      HasId(bids, id) || HasId(asks, id)
    }
  }

  const EmptyView := View([], [])

  /** Engine state: the book's view and the last fill sequence number issued. */
  datatype Engine = Engine(view: View, sequence: nat)

  const NewEngine := Engine(EmptyView, 0)

  /** A processed order: the new state, what the caller is told, and the fills that really happened
      (the caller is told of them only when the result is `Fills`). */
  datatype Processed = Processed(
    engine: Engine,
    result: Result<ProcessResult, EngineError>,
    executed: seq<Fill>
  )

  /** Matching `o` against the opposite side of the view. */
  function Matched(e: Engine, o: Order): Outcome {
    Greedy(o, BoundOf(o), e.view.On(o.side.Opposite()), e.sequence)
  }

  function Process(e: Engine, o: Order): Processed {
    if o.quantity <= 0 then
      Processed(e, Err(InvalidQuantity), [])
    else
      var m := Matched(e, o);
      var view := e.view.With(o.side.Opposite(), m.makers);
      if o.orderType.Market? || m.taker.Remaining() <= 0 then
        Processed(Engine(view, m.sequence), Ok(Fills(m.fills)), m.fills)
      else if o.price.None? then
        Processed(Engine(view, m.sequence), Err(InvalidQuantity), m.fills)
      else
        var rested := view.With(o.side, Rest(o.side, view.On(o.side), m.taker));
        Processed(Engine(rested, m.sequence), Ok(if m.fills == [] then Resting else Fills(m.fills)), m.fills)
  }

  ghost function Cancel(e: Engine, id: OrderId): (r: (Engine, Result<ProcessResult, EngineError>)) {
    if e.view.Contains(id) then
      (e.(view := View(Without(e.view.bids, id), Without(e.view.asks, id))), Ok(CancelDone))
    else
      (e, Err(OrderNotFound(id)))
  }

  // ---------- Live views ----------

  ghost predicate DistinctIds(s: seq<Order>) {
    forall i, j :: 0 <= i < j < |s| ==> s[i].id != s[j].id
  }

  ghost predicate LiveView(v: View) {
    && LiveSide(Bid, v.bids)
    && LiveSide(Ask, v.asks)
    && DistinctIds(v.bids)
    && DistinctIds(v.asks)
    && forall i, j :: 0 <= i < |v.bids| && 0 <= j < |v.asks| ==> v.bids[i].id != v.asks[j].id
  }

  /** No bid reaches any ask. */
  ghost predicate Uncrossed(v: View) {
    forall i, j :: 0 <= i < |v.bids| && 0 <= j < |v.asks| ==>
      v.bids[i].PriceOrZero() < v.asks[j].PriceOrZero()
  }

  function BestPrice(s: seq<Order>): Option<Price> {
    if s == [] then None else Some(s[0].PriceOrZero())
  }
}
