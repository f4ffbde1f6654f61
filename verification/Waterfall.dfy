/** Greedy matching in closed form.  The quantity traded is the smaller of what the taker wants and
    what stands within its reach; it pours over the makers front to back. */
module Waterfall {
  import opened Types
  import opened PriceTime

  /** Everything that rests in `s`. */
  function Total(s: seq<Order>): int {
    if s == [] then 0 else s[0].Remaining() + Total(s[1..])
  }

  /** What rests in `s` at rank `r` or better: the cumulative depth profile of a side. */
  function Depth(side: Side, s: seq<Order>, r: int): int {
    if s == [] then 0
    else (if RankOf(side, s[0]) <= r then s[0].Remaining() else 0) + Depth(side, s[1..], r)
  }

  /** What a taker on `side` with this bound can reach in `makers`. */
  function Reach(side: Side, bound: Option<Price>, makers: seq<Order>): int {
    if bound.None? then Total(makers)
    else Depth(side.Opposite(), makers, Rank(side.Opposite(), bound.value))
  }

  function Traded(taker: Order, bound: Option<Price>, makers: seq<Order>): int {
    Min(taker.Remaining(), Reach(taker.side, bound, makers))
  }

  /** Take `q` away from the front of a side. */
  function Consume(s: seq<Order>, q: int): seq<Order> {
    if s == [] || q <= 0 then s
    else if s[0].Remaining() <= q then Consume(s[1..], q - s[0].Remaining())
    else [ApplyFill(s[0], q)] + s[1..]
  }

  /** An order after trading `q` in any number of fills. */
  function AfterTrading(o: Order, q: int): Order {
    if q == 0 then o else ApplyFill(o, q)
  }

  function FillTotal(fills: seq<Fill>): int {
    if fills == [] then 0 else fills[0].quantity + FillTotal(fills[1..])
  }

  // ---------- Depth ----------

  lemma {:induction false} DepthNonNegative(side: Side, s: seq<Order>, r: int)
    requires AllResting(side, s)
    ensures 0 <= Depth(side, s, r) <= Total(s)
    ensures s != [] ==> 0 < Total(s)
    ensures s != [] && RankOf(side, s[0]) <= r ==> 0 < Depth(side, s, r)
  {
    if s != [] {
      DepthNonNegative(side, s[1..], r);
    }
  }

  lemma {:induction false} DepthBeyond(side: Side, s: seq<Order>, r: int)
    requires forall i :: 0 <= i < |s| ==> r < RankOf(side, s[i])
    ensures Depth(side, s, r) == 0
  {
    if s != [] {
      DepthBeyond(side, s[1..], r);
    }
  }

  lemma {:induction false} DepthOfAll(side: Side, s: seq<Order>, r: int)
    requires forall i :: 0 <= i < |s| ==> RankOf(side, s[i]) <= r
    ensures Depth(side, s, r) == Total(s)
  {
    if s != [] {
      DepthOfAll(side, s[1..], r);
    }
  }

  lemma ReachOfFront(side: Side, bound: Option<Price>, makers: seq<Order>)
    requires LiveSide(side.Opposite(), makers) && makers != []
    ensures 0 <= Reach(side, bound, makers)
    ensures Eligible(side, bound, makers[0].PriceOrZero()) ==>
      && 0 < Reach(side, bound, makers)
      && 0 <= Reach(side, bound, makers[1..])
      && Reach(side, bound, makers) == makers[0].Remaining() + Reach(side, bound, makers[1..])
    ensures !Eligible(side, bound, makers[0].PriceOrZero()) ==> Reach(side, bound, makers) == 0
  {
    var maker := side.Opposite();
    var r := if bound.Some? then Rank(maker, bound.value) else 0;
    DepthNonNegative(maker, makers, r);
    DepthNonNegative(maker, makers[1..], r);
    if !Eligible(side, bound, makers[0].PriceOrZero()) {
      DepthBeyond(maker, makers, r);
    }
  }

  // ---------- Greedy matching, closed form ----------

  lemma {:induction false} GreedyConsumes(taker: Order, bound: Option<Price>, makers: seq<Order>, sequence: nat)
    requires LiveSide(taker.side.Opposite(), makers)
    requires 0 <= taker.Remaining()
    ensures var g := Greedy(taker, bound, makers, sequence);
            var t := Traded(taker, bound, makers);
            && 0 <= t
            && g.taker == AfterTrading(taker, t)
            && g.makers == Consume(makers, t)
            && g.sequence == sequence + |g.fills|
            && FillTotal(g.fills) == t
            && (t == 0 <==> g.fills == [])
    decreases |makers|
  {
    var side := taker.side;
    if makers != [] {
      ReachOfFront(side, bound, makers);
      var maker := makers[0];
      if 0 < taker.Remaining() && Eligible(side, bound, maker.PriceOrZero()) {
        var q := Min(taker.Remaining(), maker.Remaining());
        if maker.Remaining() <= q {
          GreedyConsumes(ApplyFill(taker, q), bound, makers[1..], sequence + 1);
          var g := Greedy(taker, bound, makers, sequence);
          assert g.fills[1..] == Greedy(ApplyFill(taker, q), bound, makers[1..], sequence + 1).fills;
        } else {
          assert FillTotal(Greedy(taker, bound, makers, sequence).fills) == q;
        }
      }
    }
  }

  /** What fill `i` of a match says. */
  predicate PourAt(fill: Fill, i: nat, taker: Order, bound: Option<Price>, makers: seq<Order>, t: int, sequence: nat)
    requires i < |makers|
  {
    && fill == Fill(makers[i].id, taker.id, makers[i].PriceOrZero(),
                    Min(makers[i].Remaining(), t - Total(makers[..i])), sequence + 1 + i)
    && 0 < fill.quantity
    && Eligible(taker.side, bound, makers[i].PriceOrZero())
  }

  /** The fills of a match are exactly the pouring of `t` over the front of the side. */
  ghost predicate PoursOver(fills: seq<Fill>, taker: Order, bound: Option<Price>, makers: seq<Order>, t: int, sequence: nat) {
    && |fills| <= |makers|
    && (forall i :: 0 <= i < |fills| ==> PourAt(fills[i], i, taker, bound, makers, t, sequence))
    && (fills != [] ==> Total(makers[..|fills| - 1]) < t)
    && t <= Total(makers[..|fills|])
  }

  /** Every maker but the last traded with is exhausted, in priority order, at its own price, with
      consecutive sequence numbers and no more fills than makers. */
  lemma {:induction false} GreedyPours(taker: Order, bound: Option<Price>, makers: seq<Order>, sequence: nat)
    requires LiveSide(taker.side.Opposite(), makers)
    requires 0 <= taker.Remaining()
    ensures PoursOver(Greedy(taker, bound, makers, sequence).fills, taker, bound, makers,
                      Traded(taker, bound, makers), sequence)
    decreases |makers|
  {
    hide PoursOver, LiveSide;
    var side := taker.side;
    if makers == [] {
      PourNothing(taker, bound, makers, sequence);
    } else {
      ReachOfFront(side, bound, makers);
      FrontRests(side.Opposite(), makers);
      var maker := makers[0];
      var t := Traded(taker, bound, makers);
      if 0 < taker.Remaining() && Eligible(side, bound, maker.PriceOrZero()) {
        var q := Min(taker.Remaining(), maker.Remaining());
        if maker.Remaining() <= q {
          var taker' := ApplyFill(taker, q);
          GreedyPours(taker', bound, makers[1..], sequence + 1);
          PourMore(Greedy(taker', bound, makers[1..], sequence + 1).fills, taker, taker', bound, makers, t, sequence);
        } else {
          PourOne(taker, bound, makers, q, sequence);
        }
      } else {
        PourNothing(taker, bound, makers, sequence);
      }
    }
  }

  lemma FrontRests(side: Side, makers: seq<Order>)
    requires LiveSide(side, makers) && makers != []
    ensures 0 < makers[0].Remaining() && LiveSide(side, makers[1..])
  {
  }

  lemma PourNothing(taker: Order, bound: Option<Price>, makers: seq<Order>, sequence: nat)
    ensures PoursOver([], taker, bound, makers, 0, sequence)
  {
    assert makers[..0] == [];
  }

  lemma PourOne(taker: Order, bound: Option<Price>, makers: seq<Order>, t: int, sequence: nat)
    requires makers != [] && 0 < t < makers[0].Remaining()
    requires Eligible(taker.side, bound, makers[0].PriceOrZero())
    ensures PoursOver([Fill(makers[0].id, taker.id, makers[0].PriceOrZero(), t, sequence + 1)], taker, bound, makers, t, sequence)
  {
    var one := [Fill(makers[0].id, taker.id, makers[0].PriceOrZero(), t, sequence + 1)];
    assert |one| == 1 && makers[..0] == [] && makers[..1] == [makers[0]];
    assert [makers[0]][1..] == [];
    assert Total(makers[..1]) == makers[0].Remaining() && Total(makers[..|one| - 1]) == 0;
  }

  lemma TotalTo(s: seq<Order>, n: nat)
    requires s != [] && n < |s|
    ensures Total(s[..n + 1]) == s[0].Remaining() + Total(s[1..][..n])
  {
    assert s[..n + 1][1..] == s[1..][..n];
  }

  lemma PourLater(fill: Fill, i: nat, taker: Order, taker': Order, bound: Option<Price>, makers: seq<Order>, t: int, sequence: nat)
    requires 0 < i < |makers| && taker'.id == taker.id && taker'.side == taker.side
    requires PourAt(fill, i - 1, taker', bound, makers[1..], t - makers[0].Remaining(), sequence + 1)
    ensures PourAt(fill, i, taker, bound, makers, t, sequence)
  {
    hide Total, Eligible;
    TotalTo(makers, i - 1);
  }

  lemma PourMore(tail: seq<Fill>, taker: Order, taker': Order, bound: Option<Price>, makers: seq<Order>, t: int, sequence: nat)
    requires makers != [] && 0 < makers[0].Remaining() <= t
    requires taker'.id == taker.id && taker'.side == taker.side
    requires Eligible(taker.side, bound, makers[0].PriceOrZero())
    requires PoursOver(tail, taker', bound, makers[1..], t - makers[0].Remaining(), sequence + 1)
    ensures PoursOver([Fill(makers[0].id, taker.id, makers[0].PriceOrZero(), makers[0].Remaining(), sequence + 1)] + tail,
                      taker, bound, makers, t, sequence)
  {
    var fill := Fill(makers[0].id, taker.id, makers[0].PriceOrZero(), makers[0].Remaining(), sequence + 1);
    var fills := [fill] + tail;
    assert makers[..0] == [] && Total(makers[..0]) == 0;
    assert PourAt(fill, 0, taker, bound, makers, t, sequence);
    hide Total, Eligible, PourAt;
    forall i | 0 < i < |fills|
      ensures PourAt(fills[i], i, taker, bound, makers, t, sequence)
    {
      assert fills[i] == tail[i - 1];
      PourLater(fills[i], i, taker, taker', bound, makers, t, sequence);
    }
    if tail != [] {
      TotalTo(makers, |tail| - 1);
    }
    TotalTo(makers, |tail|);
  }

  // ---------- Consuming acts on the depth profile by subtraction ----------

  lemma {:induction false} DepthOfConsume(side: Side, s: seq<Order>, q: int, r: int)
    requires LiveSide(side, s) && 0 <= q
    ensures Depth(side, Consume(s, q), r) == Max(0, Depth(side, s, r) - q)
  {
    DepthNonNegative(side, s, r);
    if s != [] && 0 < q {
      if RankOf(side, s[0]) > r {
        DepthBeyond(side, s, r);
        DepthBeyond(side, s[1..], r);
      }
      DepthNonNegative(side, s[1..], r);
      if s[0].Remaining() <= q {
        DepthOfConsume(side, s[1..], q - s[0].Remaining(), r);
      } else {
        assert Consume(s, q)[1..] == s[1..];
      }
    }
  }

  lemma {:induction false} DepthOfRest(side: Side, s: seq<Order>, o: Order, r: int)
    ensures Depth(side, Rest(side, s, o), r) == Depth(side, s, r) + (if RankOf(side, o) <= r then o.Remaining() else 0)
    ensures Total(Rest(side, s, o)) == Total(s) + o.Remaining()
  {
    if s == [] || RankOf(side, o) < RankOf(side, s[0]) {
      assert Rest(side, s, o)[1..] == s;
    } else {
      assert Rest(side, s, o)[1..] == Rest(side, s[1..], o);
      DepthOfRest(side, s[1..], o, r);
    }
  }

  lemma {:induction false} TotalOfConsume(side: Side, s: seq<Order>, q: int)
    requires AllResting(side, s) && 0 <= q
    ensures Total(Consume(s, q)) == Max(0, Total(s) - q)
  {
    DepthNonNegative(side, s, 0);
    if s != [] && 0 < q {
      DepthNonNegative(side, s[1..], 0);
      if s[0].Remaining() <= q {
        TotalOfConsume(side, s[1..], q - s[0].Remaining());
      } else {
        assert Consume(s, q)[1..] == s[1..];
      }
    }
  }

  // ---------- Shape of a consumed side ----------

  /** How many orders of `s` are exhausted when `q` is taken from the front. */
  function Exhausted(s: seq<Order>, q: int): nat {
    if s == [] || q <= 0 || q < s[0].Remaining() then 0
    else 1 + Exhausted(s[1..], q - s[0].Remaining())
  }

  /** `c` is `s` without its first `n` orders, the next one filled by what is left of `q`. */
  ghost predicate IsRest(s: seq<Order>, q: int, n: nat, c: seq<Order>)
    requires n <= |s|
  {
    var left := q - Total(s[..n]);
    && 0 <= left
    && c == (if n == |s| || left == 0 then s[n..] else [ApplyFill(s[n], left)] + s[n + 1..])
    && (n < |s| ==> left < s[n].Remaining())
  }

  lemma IsRestOfTail(s: seq<Order>, q: int, n: nat, c: seq<Order>)
    requires s != [] && n < |s| && IsRest(s[1..], q - s[0].Remaining(), n, c)
    ensures IsRest(s, q, n + 1, c)
  {
    assert s[..n + 1][1..] == s[1..][..n];
    assert s[1..][n..] == s[n + 1..];
    if n + 1 < |s| {
      assert s[1..][n + 1..] == s[n + 2..];
    }
  }

  /** A consumed side is a suffix of the old one whose front may have been partly filled. */
  lemma {:induction false} ConsumeIsSuffix(side: Side, s: seq<Order>, q: int) returns (n: nat)
    requires AllResting(side, s) && 0 <= q
    ensures n == Exhausted(s, q) <= |s|
    ensures IsRest(s, q, n, Consume(s, q))
  {
    if s == [] || q <= 0 || q < s[0].Remaining() {
      n := 0;
      assert s[..0] == [] && s[0..] == s;
    } else {
      hide IsRest;
      var m := ConsumeIsSuffix(side, s[1..], q - s[0].Remaining());
      n := m + 1;
      IsRestOfTail(s, q, m, Consume(s, q));
    }
  }

  /** The same order, further filled at most. */
  predicate StaysInPlace(o: Order, o': Order) {
    o'.id == o.id && o'.price == o.price && o'.side == o.side && RestingOrder(o')
  }

  lemma RestStays(side: Side, s: seq<Order>, q: int, n: nat, c: seq<Order>)
    requires AllResting(side, s) && n <= |s| && IsRest(s, q, n, c)
    ensures |c| == |s| - n && forall i :: 0 <= i < |c| ==> StaysInPlace(s[n + i], c[i])
    ensures forall i :: 0 <= i < |c| ==> RankOf(side, c[i]) == RankOf(side, s[n + i])
  {
    hide Total;
    forall i | 0 <= i < |c|
      ensures StaysInPlace(s[n + i], c[i])
    {
      if i != 0 { assert c[i] == s[n + i]; }
    }
    forall i | 0 <= i < |c|
      ensures RankOf(side, c[i]) == RankOf(side, s[n + i])
    {
      assert StaysInPlace(s[n + i], c[i]);
    }
  }

  lemma ConsumeKeepsLive(side: Side, s: seq<Order>, q: int)
    requires LiveSide(side, s) && 0 <= q
    ensures LiveSide(side, Consume(s, q))
    ensures DistinctIds(s) ==> DistinctIds(Consume(s, q))
    ensures forall i :: 0 <= i < |Consume(s, q)| ==>
              exists j :: 0 <= j < |s| && s[j].id == Consume(s, q)[i].id && s[j].price == Consume(s, q)[i].price
  {
    var n := ConsumeIsSuffix(side, s, q);
    hide Consume, IsRest, Exhausted, RestingOrder, RankOf;
    var c := Consume(s, q);
    RestStays(side, s, q, n, c);
    forall i, j | 0 <= i < j < |c|
      ensures RankOf(side, c[i]) <= RankOf(side, c[j])
      ensures DistinctIds(s) ==> c[i].id != c[j].id
    {
      assert RankOf(side, s[n + i]) <= RankOf(side, s[n + j]);
    }
  }
}
