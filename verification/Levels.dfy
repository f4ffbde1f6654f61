/** Ordered price maps: the best price, and the flattening of a map of queues into one list. */
module Levels {
  import opened Types
  import opened PriceTime

  /** `p` is the best price of a side. */
  ghost predicate IsBest(side: Side, prices: set<Price>, p: Price) {
    p in prices && forall q :: q in prices ==> Rank(side, p) <= Rank(side, q)
  }

  lemma Member<T>(s: set<T>) returns (x: T)
    requires s != {}
    ensures x in s
  {
    x :| x in s;
  }

  lemma {:induction false} BestExists(side: Side, prices: set<Price>)
    requires prices != {}
    ensures exists p :: IsBest(side, prices, p)
    decreases |prices|
  {
    var x := Member(prices);
    if prices == {x} {
      assert IsBest(side, prices, x);
    } else {
      var rest := prices - {x};
      assert prices == rest + {x};
      BestExists(side, rest);
      var y :| IsBest(side, rest, y);
      assert IsBest(side, prices, if Rank(side, x) <= Rank(side, y) then x else y);
    }
  }

  ghost function Best(side: Side, prices: set<Price>): (p: Price)
    requires prices != {}
    ensures IsBest(side, prices, p)
  {
    BestExists(side, prices);
    var p :| IsBest(side, prices, p);
    p
  }

  /** The queues of a side, best price first. */
  ghost function Flatten<T>(side: Side, m: map<Price, seq<T>>): seq<T>
    decreases |m|
  {
    if m == map[] then []
    else
      var p := Best(side, m.Keys);
      m[p] + Flatten(side, m - {p})
  }

  function Queue<T>(m: map<Price, seq<T>>, p: Price): seq<T> {
    if p in m then m[p] else []
  }

  /** Replace a level; an empty queue removes it. */
  function SetQueue<T>(m: map<Price, seq<T>>, p: Price, q: seq<T>): map<Price, seq<T>> {
    if |q| == 0 then m - {p} else m[p := q]
  }

  ghost predicate NoEmptyLevel<T>(m: map<Price, seq<T>>) {
    forall p :: p in m ==> m[p] != []
  }

  /** Every order of a level carries the level's price. */
  ghost predicate PricedLevels(m: map<Price, seq<Order>>) {
    forall p, i :: p in m && 0 <= i < |m[p]| ==> m[p][i].price == Some(p)
  }

  lemma {:induction false} FlattenMembers<T>(side: Side, m: map<Price, seq<T>>, x: T)
    ensures x in Flatten(side, m) <==> exists p :: p in m && x in m[p]
    decreases |m|
  {
    if m != map[] {
      var b := Best(side, m.Keys);
      FlattenMembers(side, m - {b}, x);
      if exists p :: p in m && x in m[p] {
        var p :| p in m && x in m[p];
        assert p != b ==> p in m - {b} && x in (m - {b})[p];
      }
      if x in Flatten(side, m - {b}) {
        var p :| p in m - {b} && x in (m - {b})[p];
        assert p in m && x in m[p];
      }
    }
  }

  lemma {:induction false} FlattenSorted(side: Side, m: map<Price, seq<Order>>)
    requires PricedLevels(m)
    ensures Sorted(side, Flatten(side, m))
    ensures forall i :: 0 <= i < |Flatten(side, m)| ==> Flatten(side, m)[i].PriceOrZero() in m
    decreases |m|
  {
    if m != map[] {
      var b := Best(side, m.Keys);
      FlattenSorted(side, m - {b});
      assert forall i :: 0 <= i < |m[b]| ==> m[b][i].PriceOrZero() == b;
      assert forall p :: p in m - {b} ==> Rank(side, b) <= Rank(side, p);
    }
  }

  // ---------- Resting at the back of a level ----------

  lemma {:induction false} RestBehind(side: Side, a: seq<Order>, b: seq<Order>, o: Order)
    requires forall i :: 0 <= i < |a| ==> RankOf(side, a[i]) <= RankOf(side, o)
    ensures Rest(side, a + b, o) == a + Rest(side, b, o)
  {
    if a == [] {
      assert a + b == b;
    } else {
      assert (a + b)[1..] == a[1..] + b;
      RestBehind(side, a[1..], b, o);
    }
  }

  lemma RestInFront(side: Side, s: seq<Order>, o: Order)
    requires forall i :: 0 <= i < |s| ==> RankOf(side, o) < RankOf(side, s[i])
    ensures Rest(side, s, o) == [o] + s
  {
  }

  lemma FlattenFrom<T>(side: Side, m: map<Price, seq<T>>, b: Price)
    requires IsBest(side, m.Keys, b)
    ensures m != map[] && Flatten(side, m) == m[b] + Flatten(side, m - {b})
  {
    assert b in m;
    var b' := Best(side, m.Keys);
    assert Rank(side, b) <= Rank(side, b') <= Rank(side, b);
  }

  lemma Associative<T>(a: seq<T>, b: seq<T>, c: seq<T>)
    ensures a + (b + c) == (a + b) + c
  {
  }

  /** Changing the best level changes the beginning of the flat list. */
  lemma FlattenSetBest<T>(side: Side, m: map<Price, seq<T>>, p: Price, q: seq<T>)
    requires IsBest(side, m.Keys, p)
    ensures Flatten(side, m[p := q]) == q + Flatten(side, m - {p})
  {
    assert m[p := q].Keys == m.Keys;
    assert m[p := q] - {p} == m - {p};
    FlattenFrom(side, m[p := q], p);
  }

  lemma PushFront(side: Side, m: map<Price, seq<Order>>, o: Order, p: Price)
    requires PricedLevels(m) && o.price == Some(p) && p !in m
    requires forall q :: q in m ==> Rank(side, p) < Rank(side, q)
    ensures Flatten(side, m[p := [o]]) == Rest(side, Flatten(side, m), o)
  {
    assert m[p := [o]] - {p} == m;
    FlattenFrom(side, m[p := [o]], p);
    FlattenSorted(side, m);
    RestInFront(side, Flatten(side, m), o);
  }

  lemma PushBest(side: Side, m: map<Price, seq<Order>>, o: Order, p: Price)
    requires PricedLevels(m) && o.price == Some(p) && IsBest(side, m.Keys, p)
    ensures Flatten(side, m[p := m[p] + [o]]) == Rest(side, Flatten(side, m), o)
  {
    BehindBest(side, m, o, p);
    FlattenFrom(side, m, p);
    hide Flatten, PricedLevels, IsBest, Rest;
    FlattenSetBest(side, m, p, m[p] + [o]);
    Associative(m[p], [o], Flatten(side, m - {p}));
  }

  /** Behind the best level, in front of all others. */
  lemma BehindBest(side: Side, m: map<Price, seq<Order>>, o: Order, p: Price)
    requires PricedLevels(m) && o.price == Some(p) && IsBest(side, m.Keys, p)
    ensures Rest(side, m[p] + Flatten(side, m - {p}), o) == m[p] + ([o] + Flatten(side, m - {p}))
  {
    hide Flatten, Rest;
    var tail := Flatten(side, m - {p});
    FlattenSorted(side, m - {p});
    RestBehind(side, m[p], tail, o);
    forall i | 0 <= i < |tail|
      ensures RankOf(side, o) < RankOf(side, tail[i])
    {
      assert tail[i].PriceOrZero() in m - {p};
    }
    RestInFront(side, tail, o);
  }

  /** Pushing below the best level leaves the best level in front. */
  lemma PushBelow(side: Side, m: map<Price, seq<Order>>, o: Order, p: Price, b: Price)
    requires PricedLevels(m) && o.price == Some(p)
    requires IsBest(side, m.Keys, b) && Rank(side, b) < Rank(side, p)
    requires Flatten(side, (m - {b})[p := Queue(m - {b}, p) + [o]]) == Rest(side, Flatten(side, m - {b}), o)
    ensures Flatten(side, m[p := Queue(m, p) + [o]]) == Rest(side, Flatten(side, m), o)
  {
    var m' := m[p := Queue(m, p) + [o]];
    var rest := m - {b};
    assert Queue(rest, p) == Queue(m, p);
    assert m' - {b} == rest[p := Queue(rest, p) + [o]];
    assert IsBest(side, m'.Keys, b);
    FlattenFrom(side, m, b);
    FlattenFrom(side, m', b);
    hide Flatten, Rest;
    RestBehind(side, m[b], Flatten(side, rest), o);
  }

  /** Pushing at the back of a level is resting behind every equal or better price. */
  lemma {:induction false} FlattenPush(side: Side, m: map<Price, seq<Order>>, o: Order, p: Price)
    requires PricedLevels(m) && o.price == Some(p)
    ensures Flatten(side, m[p := Queue(m, p) + [o]]) == Rest(side, Flatten(side, m), o)
    decreases |m|
  {
    hide Flatten, Rest, PricedLevels;
    if p !in m { assert Queue(m, p) + [o] == [o]; }
    if m == map[] {
      PushFront(side, m, o, p);
    } else {
      var b := Best(side, m.Keys);
      if Rank(side, p) < Rank(side, b) {
        PushFront(side, m, o, p);
      } else if p == b {
        PushBest(side, m, o, p);
      } else {
        PricedWithout(m, b);
        FlattenPush(side, m - {b}, o, p);
        PushBelow(side, m, o, p, b);
      }
    }
  }

  // ---------- The front of the best level ----------

  lemma FlattenFront<T>(side: Side, m: map<Price, seq<T>>)
    requires m != map[] && NoEmptyLevel(m)
    ensures Flatten(side, m) != []
    ensures Flatten(side, m)[0] == m[Best(side, m.Keys)][0]
  {
  }

  lemma FlattenSetFront<T>(side: Side, m: map<Price, seq<T>>, x: T)
    requires m != map[] && NoEmptyLevel(m)
    ensures var b := Best(side, m.Keys);
            Flatten(side, m[b := [x] + m[b][1..]]) == [x] + Flatten(side, m)[1..]
  {
    var b := Best(side, m.Keys);
    var m' := m[b := [x] + m[b][1..]];
    assert m'.Keys == m.Keys;
    assert m' - {b} == m - {b};
  }

  lemma FlattenPop<T>(side: Side, m: map<Price, seq<T>>)
    requires m != map[] && NoEmptyLevel(m)
    ensures var b := Best(side, m.Keys);
            Flatten(side, SetQueue(m, b, m[b][1..])) == Flatten(side, m)[1..]
  {
    var b := Best(side, m.Keys);
    var q := m[b][1..];
    FlattenFrom(side, m, b);
    hide Flatten;
    var tail := Flatten(side, m - {b});
    assert (m[b] + tail)[1..] == q + tail;
    if q == [] {
      assert q + tail == tail;
    } else {
      assert m[b := q] - {b} == m - {b};
      assert m[b := q].Keys == m.Keys;
      FlattenFrom(side, m[b := q], b);
    }
  }

  // ---------- Removing one element ----------

  function Drop<T(==)>(s: seq<T>, x: T): seq<T> {
    if s == [] then [] else if s[0] == x then Drop(s[1..], x) else [s[0]] + Drop(s[1..], x)
  }

  lemma {:induction false} DropConcat<T>(a: seq<T>, b: seq<T>, x: T)
    ensures Drop(a + b, x) == Drop(a, x) + Drop(b, x)
  {
    if a == [] {
      assert a + b == b;
    } else {
      assert (a + b)[1..] == a[1..] + b;
      DropConcat(a[1..], b, x);
    }
  }

  lemma {:induction false} DropMembers<T>(s: seq<T>, x: T)
    ensures forall y :: y in Drop(s, x) <==> y in s && y != x
    ensures NoDuplicates(s) ==> NoDuplicates(Drop(s, x))
    ensures x !in s ==> Drop(s, x) == s
  {
    if s != [] {
      DropMembers(s[1..], x);
      var d := Drop(s[1..], x);
      assert forall i :: 0 <= i < |d| ==> d[i] in d;
      assert NoDuplicates(s) ==> s[0] !in s[1..];
    }
  }

  lemma DropAtBest<T>(side: Side, m: map<Price, seq<T>>, p: Price, x: T)
    requires IsBest(side, m.Keys, p)
    requires forall q :: q in m && x in m[q] ==> q == p
    ensures Flatten(side, SetQueue(m, p, Drop(m[p], x))) == Drop(Flatten(side, m), x)
  {
    var tail := Flatten(side, m - {p});
    FlattenFrom(side, m, p);
    DropConcat(m[p], tail, x);
    FlattenMembers(side, m - {p}, x);
    DropMembers(tail, x);
    var q := Drop(m[p], x);
    if q == [] {
      assert q + tail == tail;
    } else {
      assert m[p := q].Keys == m.Keys;
      assert m[p := q] - {p} == m - {p};
      FlattenFrom(side, m[p := q], p);
    }
  }

  lemma {:induction false} FlattenDrop<T>(side: Side, m: map<Price, seq<T>>, p: Price, x: T)
    requires p in m
    requires forall q :: q in m && x in m[q] ==> q == p
    ensures Flatten(side, SetQueue(m, p, Drop(m[p], x))) == Drop(Flatten(side, m), x)
    decreases |m|
  {
    var b := Best(side, m.Keys);
    if p == b {
      DropAtBest(side, m, p, x);
    } else {
      var m' := SetQueue(m, p, Drop(m[p], x));
      var rest := m - {b};
      FlattenDrop(side, rest, p, x);
      assert m' - {b} == SetQueue(rest, p, Drop(rest[p], x));
      assert IsBest(side, m'.Keys, b);
      FlattenFrom(side, m', b);
      DropConcat(m[b], Flatten(side, rest), x);
      DropMembers(m[b], x);
    }
  }

  // ---------- A level is what the flat list holds at its price ----------

  function AtPrice(s: seq<Order>, p: Price): seq<Order> {
    if s == [] then []
    else (if s[0].price == Some(p) then [s[0]] else []) + AtPrice(s[1..], p)
  }

  lemma AtPriceStep(s: seq<Order>, p: Price)
    requires s != []
    ensures AtPrice(s, p) == (if s[0].price == Some(p) then [s[0]] else []) + AtPrice(s[1..], p)
  {
  }

  lemma {:induction false} AtPriceConcat(a: seq<Order>, b: seq<Order>, p: Price)
    ensures AtPrice(a + b, p) == AtPrice(a, p) + AtPrice(b, p)
  {
    if a == [] {
      assert a + b == b;
      AtPriceOfNothing(p);
    } else {
      hide AtPrice;
      assert (a + b)[1..] == a[1..] + b;
      AtPriceStep(a, p);
      AtPriceStep(a + b, p);
      AtPriceConcat(a[1..], b, p);
    }
  }

  lemma {:induction false} AtPriceUniform(s: seq<Order>, p: Price, q: Price)
    requires forall i :: 0 <= i < |s| ==> s[i].price == Some(q)
    ensures AtPrice(s, p) == if p == q then s else []
  {
    if s != [] {
      AtPriceUniform(s[1..], p, q);
    }
  }

  lemma PricedWithout(m: map<Price, seq<Order>>, b: Price)
    requires PricedLevels(m)
    ensures PricedLevels(m - {b})
    ensures b in m ==> forall i :: 0 <= i < |m[b]| ==> m[b][i].price == Some(b)
  {
  }

  lemma {:induction false} LevelOfFlatten(side: Side, m: map<Price, seq<Order>>, p: Price)
    requires PricedLevels(m)
    ensures AtPrice(Flatten(side, m), p) == Queue(m, p)
    decreases |m|
  {
    hide PricedLevels, AtPrice;
    if m == map[] {
      AtPriceOfNothing(p);
    } else {
      var b := Best(side, m.Keys);
      PricedWithout(m, b);
      AtPriceConcat(m[b], Flatten(side, m - {b}), p);
      AtPriceUniform(m[b], p, b);
      LevelOfFlatten(side, m - {b}, p);
    }
  }

  lemma AtPriceOfNothing(p: Price)
    ensures AtPrice([], p) == []
  {
  }

  lemma {:induction false} FlattenNoDuplicates<T>(side: Side, m: map<Price, seq<T>>)
    requires forall p :: p in m ==> NoDuplicates(m[p])
    requires forall p, q :: p in m && q in m && p != q ==> forall x :: x in m[p] ==> x !in m[q]
    ensures NoDuplicates(Flatten(side, m))
    decreases |m|
  {
    if m != map[] {
      var b := Best(side, m.Keys);
      FlattenNoDuplicates(side, m - {b});
      forall x | x in m[b]
        ensures x !in Flatten(side, m - {b})
      {
        FlattenMembers(side, m - {b}, x);
      }
      assert forall i :: 0 <= i < |m[b]| ==> m[b][i] in m[b];
    }
  }
}
