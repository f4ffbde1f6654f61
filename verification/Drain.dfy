/** The concrete book after an order: which slab keys are freed and which one is taken.  The flat view
    does not need this; snapshots do, because they are written in key order. */
module Draining {
  import opened Types
  import opened PriceTime
  import opened Levels
  import opened BookModel

  ghost predicate HasFront(b: Book, side: Side) {
    b.On(side) != map[] && Queue(b.On(side), Best(side, b.On(side).Keys)) != []
    && b.On(side)[Best(side, b.On(side).Keys)][0] in b.slab.entries
  }

  ghost function FrontKey(b: Book, side: Side): nat
    requires HasFront(b, side)
  {
    b.On(side)[Best(side, b.On(side).Keys)][0]
  }

  /** Fill the front order of a side by `q`; if that exhausts it, it leaves the book. */
  ghost function FillFront(b: Book, side: Side, q: Quantity): Book
    requires HasFront(b, side)
  {
    var k := FrontKey(b, side);
    var o := ApplyFill(b.slab.entries[k], q);
    var amended := Amend(b, k, o);
    if o.Remaining() <= 0 then PopFront(amended, side, Best(side, b.On(side).Keys)) else amended
  }

  /** Take `t` from the front of a side, order by order. */
  ghost function Drain(b: Book, side: Side, t: Quantity): Book
    decreases if t < 0 then 0 else t
  {
    if t <= 0 || !HasFront(b, side) then b
    else
      var q := Min(t, b.slab.entries[FrontKey(b, side)].Remaining());
      if q <= 0 then b else Drain(FillFront(b, side, q), side, t - q)
  }

  /** The order itself after matching. */
  function TakerAfter(b: View, o: Order): Order {
    Greedy(o, BoundOf(o), b.On(o.side.Opposite()), 0).taker
  }

  /** The concrete book after one order. */
  ghost function BookAfter(b: Book, o: Order): Book
    requires Sound(b)
  {
    if o.quantity <= 0 then b
    else
      var taker := TakerAfter(ViewOf(b), o);
      var drained := Drain(b, o.side.Opposite(), taker.filled - o.filled);
      if o.orderType.Limit? && taker.price.Some? && 0 < taker.Remaining() then Insert(drained, taker) else drained
  }

  lemma {:induction false} TakerIgnoresSequence(taker: Order, bound: Option<Price>, makers: seq<Order>, sequence: nat, other: nat)
    ensures Greedy(taker, bound, makers, sequence).taker == Greedy(taker, bound, makers, other).taker
    decreases |makers|
  {
    if 0 < taker.Remaining() && makers != [] && Eligible(taker.side, bound, makers[0].PriceOrZero()) {
      var q := Min(taker.Remaining(), makers[0].Remaining());
      if makers[0].Remaining() <= q {
        TakerIgnoresSequence(ApplyFill(taker, q), bound, makers[1..], sequence + 1, other + 1);
      }
    }
  }

  /** What the taker gains is at least the first fill and at most what it wants. */
  lemma {:induction false} TakerGains(taker: Order, bound: Option<Price>, makers: seq<Order>, sequence: nat)
    requires forall i :: 0 <= i < |makers| ==> 0 < makers[i].Remaining()
    ensures var gain := Greedy(taker, bound, makers, sequence).taker.filled - taker.filled;
            && 0 <= gain <= Max(0, taker.Remaining())
            && (0 < taker.Remaining() && makers != [] && Eligible(taker.side, bound, makers[0].PriceOrZero()) ==>
                  Min(taker.Remaining(), makers[0].Remaining()) <= gain)
    decreases |makers|
  {
    if 0 < taker.Remaining() && makers != [] && Eligible(taker.side, bound, makers[0].PriceOrZero()) {
      var q := Min(taker.Remaining(), makers[0].Remaining());
      if makers[0].Remaining() <= q {
        assert forall i :: 0 <= i < |makers[1..]| ==> makers[1..][i] == makers[i + 1];
        TakerGains(ApplyFill(taker, q), bound, makers[1..], sequence + 1);
      }
    }
  }

  /** Draining `left` from `b` ends where draining `total` from `start` does. */
  ghost predicate Drained(start: Book, total: Quantity, b: Book, left: Quantity, side: Side) {
    Drain(start, side, total) == Drain(b, side, left)
  }

  lemma DrainStarts(b: Book, t: Quantity, side: Side)
    ensures Drained(b, t, b, t, side)
  {
  }

  lemma DrainEnds(start: Book, total: Quantity, b: Book, side: Side)
    requires Drained(start, total, b, 0, side)
    ensures b == Drain(start, side, total)
  {
  }

  lemma DrainStep(start: Book, total: Quantity, b: Book, left: Quantity, side: Side, q: Quantity)
    requires Drained(start, total, b, left, side) && HasFront(b, side)
    requires 0 < q <= left && q <= b.slab.entries[FrontKey(b, side)].Remaining()
    requires q == left || q == b.slab.entries[FrontKey(b, side)].Remaining()
    ensures Drained(start, total, FillFront(b, side, q), left - q, side)
  {
    hide HasFront, FrontKey, FillFront;
  }
}
