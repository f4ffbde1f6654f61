/** Whole runs of submissions and cancels from the empty engine: the book stays live and uncrossed,
    quantity is conserved, no order is overfilled, and time priority is never broken. */
module Runs {
  import opened Types
  import opened PriceTime
  import opened ProcessLaws

  datatype Event = Submit(order: Order) | CancelById(id: OrderId)

  ghost function Step(e: Engine, ev: Event): Engine {
    match ev
    case Submit(o) => Process(e, o).engine
    case CancelById(id) => Cancel(e, id).0
  }

  function Executed(e: Engine, ev: Event): seq<Fill> {
    if ev.Submit? then Process(e, ev.order).executed else []
  }

  ghost function Run(events: seq<Event>): Engine {
    if events == [] then NewEngine
    else Step(Run(events[..|events| - 1]), events[|events| - 1])
  }

  /** Every fill of the run, in order. */
  ghost function Trades(events: seq<Event>): seq<Fill> {
    if events == [] then []
    else
      var earlier := events[..|events| - 1];
      Trades(earlier) + Executed(Run(earlier), events[|events| - 1])
  }

  ghost predicate Submitted(events: seq<Event>, id: OrderId) {
    exists i :: 0 <= i < |events| && events[i].Submit? && events[i].order.id == id
  }

  /** What the callers guarantee: orders come in unfilled, each under an id of its own. */
  ghost predicate History(events: seq<Event>) {
    events == [] ||
    var earlier, last := events[..|events| - 1], events[|events| - 1];
    && History(earlier)
    && (last.Submit? ==> Incoming(last.order) && !Submitted(earlier, last.order.id))
  }

  // ---------- Cancelling ----------

  lemma {:induction false} WithoutMembers(s: seq<Order>, id: OrderId)
    ensures forall x :: x in Without(s, id) <==> x in s && x.id != id
  {
    if s != [] {
      WithoutMembers(s[1..], id);
    }
  }

  lemma {:induction false} WithoutSorted(side: Side, s: seq<Order>, id: OrderId)
    requires Sorted(side, s)
    ensures Sorted(side, Without(s, id))
  {
    if s != [] {
      WithoutSorted(side, s[1..], id);
      WithoutMembers(s[1..], id);
      var rest := Without(s[1..], id);
      forall i | 0 <= i < |rest|
        ensures RankOf(side, s[0]) <= RankOf(side, rest[i])
      {
        assert rest[i] in s[1..];
      }
    }
  }

  lemma {:induction false} WithoutDistinct(s: seq<Order>, id: OrderId)
    requires DistinctIds(s)
    ensures DistinctIds(Without(s, id))
  {
    if s != [] {
      WithoutDistinct(s[1..], id);
      WithoutMembers(s[1..], id);
      var rest := Without(s[1..], id);
      forall i | 0 <= i < |rest|
        ensures s[0].id != rest[i].id
      {
        assert rest[i] in s[1..];
      }
    }
  }

  /** What is left when an id is dropped is a subsequence. */
  lemma WithoutIsSubsequence(s: seq<Order>, id: OrderId)
    ensures forall i :: 0 <= i < |Without(s, id)| ==> Without(s, id)[i] in s && Without(s, id)[i].id != id
    ensures forall x :: x in s && x.id != id ==> x in Without(s, id)
    ensures forall side :: Sorted(side, s) ==> Sorted(side, Without(s, id))
    ensures DistinctIds(s) ==> DistinctIds(Without(s, id))
  {
    hide Without, Sorted, DistinctIds;
    WithoutMembers(s, id);
    forall side | Sorted(side, s) {
      WithoutSorted(side, s, id);
    }
    if DistinctIds(s) {
      WithoutDistinct(s, id);
    }
  }

  lemma CancelKeepsView(e: Engine, id: OrderId)
    requires LiveView(e.view)
    ensures var v := Cancel(e, id).0.view;
            && LiveView(v)
            && (Uncrossed(e.view) ==> Uncrossed(v))
            && (forall side: Side, x :: x in v.On(side) ==> x in e.view.On(side))
            && (Cancel(e, id).1 == Ok(CancelDone) ==> !v.Contains(id))
  {
    hide Without;
    WithoutIsSubsequence(e.view.bids, id);
    WithoutIsSubsequence(e.view.asks, id);
    var v := Cancel(e, id).0.view;
    forall side: Side, i | 0 <= i < |v.On(side)|
      ensures v.On(side)[i] in e.view.On(side)
    {
    }
    forall i, j | 0 <= i < |v.bids| && 0 <= j < |v.asks|
      ensures v.bids[i].id != v.asks[j].id
      ensures Uncrossed(e.view) ==> v.bids[i].PriceOrZero() < v.asks[j].PriceOrZero()
    {
      assert v.On(Bid)[i] in e.view.On(Bid) && v.On(Ask)[j] in e.view.On(Ask);
    }
  }

  // ---------- Live and uncrossed for ever ----------

  lemma SubmittedGrows(events: seq<Event>, id: OrderId)
    requires events != []
    ensures var earlier, last := events[..|events| - 1], events[|events| - 1];
            Submitted(events, id) <==> Submitted(earlier, id) || (last.Submit? && last.order.id == id)
  {
    var earlier, last := events[..|events| - 1], events[|events| - 1];
    assert events[|events| - 1] == last;
    if Submitted(earlier, id) {
      var i :| 0 <= i < |earlier| && earlier[i].Submit? && earlier[i].order.id == id;
      assert events[i] == earlier[i];
    }
    if Submitted(events, id) && !(last.Submit? && last.order.id == id) {
      var i :| 0 <= i < |events| && events[i].Submit? && events[i].order.id == id;
      assert earlier[i] == events[i];
    }
  }

  lemma EmptyViewIsLive()
    ensures LiveView(EmptyView) && Uncrossed(EmptyView)
    ensures forall id :: !EmptyView.Contains(id)
  {
  }

  /** Whatever is submitted and cancelled, the book is live, is not crossed, and holds only orders
      that were submitted. */
  lemma {:induction false} RunKeepsBook(events: seq<Event>)
    requires History(events)
    ensures LiveView(Run(events).view)
    ensures Uncrossed(Run(events).view)
    ensures forall id :: Run(events).view.Contains(id) ==> Submitted(events, id)
  {
    hide LiveView, Uncrossed, Process;
    EmptyViewIsLive();
    if events != [] {
      var earlier, last := events[..|events| - 1], events[|events| - 1];
      var e := Run(earlier);
      RunKeepsBook(earlier);
      forall id { SubmittedGrows(events, id); }
      match last {
        case Submit(o) =>
          ProcessKeepsLive(e, o);
          ProcessKeepsUncrossed(e, o);
        case CancelById(id) =>
          CancelKeepsView(e, id);
          forall x | Run(events).view.Contains(x)
            ensures e.view.Contains(x)
          {
            ContainsFromMembers(Run(events).view, e.view, x);
          }
      }
    }
  }

  lemma ContainsFromMembers(v: View, w: View, id: OrderId)
    requires forall side: Side, x :: x in v.On(side) ==> x in w.On(side)
    requires v.Contains(id)
    ensures w.Contains(id)
  {
    var side := if HasId(v.bids, id) then Bid else Ask;
    var i :| 0 <= i < |v.On(side)| && v.On(side)[i].id == id;
    var x := v.On(side)[i];
    assert x in w.On(side);
    var j :| 0 <= j < |w.On(side)| && w.On(side)[j] == x;
    assert HasId(w.On(side), id);
  }
}
