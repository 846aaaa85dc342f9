/** The order the loader gives the events it read from many files, in whatever order they arrived. */
module LoadOrder {
  import opened Core
  import opened Replay

  predicate Indexed(events: seq<LoadedEvent>, rank: seq<nat>) {
    forall k :: 0 <= k < |events| ==> events[k].symbolIdx < |rank|
  }

  predicate Ranked(rank: seq<nat>) {
    forall i, j :: 0 <= i < j < |rank| ==> rank[i] != rank[j]
  }

  /** The source position tells events apart. */
  predicate SourcesDiffer(events: seq<LoadedEvent>) {
    forall i, j :: 0 <= i < |events| && 0 <= j < |events| && events[i].src == events[j].src ==> events[i] == events[j]
  }

  function InsertByKey(events: seq<LoadedEvent>, e: LoadedEvent, rank: seq<nat>): (r: seq<LoadedEvent>)
    requires Indexed(events, rank) && e.symbolIdx < |rank|
    ensures Indexed(r, rank) && multiset(r) == multiset(events) + multiset{e}
  {
    if events == [] || KeyLe(e, events[0], rank) then [e] + events
    else
      assert events == [events[0]] + events[1..];
      [events[0]] + InsertByKey(events[1..], e, rank)
  }

  function SortByKey(events: seq<LoadedEvent>, rank: seq<nat>): (r: seq<LoadedEvent>)
    requires Indexed(events, rank)
    ensures Indexed(r, rank) && multiset(r) == multiset(events)
  {
    if events == [] then []
    else
      assert events == [events[0]] + events[1..];
      InsertByKey(SortByKey(events[1..], rank), events[0], rank)
  }

  predicate InKeyOrder(events: seq<LoadedEvent>, rank: seq<nat>)
    requires Indexed(events, rank)
  {
    forall i, j :: 0 <= i < j < |events| ==> KeyLe(events[i], events[j], rank)
  }

  lemma KeyTotal(e: LoadedEvent, f: LoadedEvent, g: LoadedEvent, rank: seq<nat>)
    requires e.symbolIdx < |rank| && f.symbolIdx < |rank| && g.symbolIdx < |rank|
    ensures KeyLe(e, f, rank) || KeyLe(f, e, rank)
    ensures KeyLe(e, f, rank) && KeyLe(f, g, rank) ==> KeyLe(e, g, rank)
  {
  }

  lemma OrderCons(e: LoadedEvent, events: seq<LoadedEvent>, rank: seq<nat>)
    requires e.symbolIdx < |rank| && Indexed(events, rank) && InKeyOrder(events, rank)
    requires forall f :: f in multiset(events) ==> f.symbolIdx < |rank| && KeyLe(e, f, rank)
    ensures InKeyOrder([e] + events, rank)
  {
    hide KeyLe;
    assert forall j :: 0 <= j < |events| ==> events[j] in multiset(events);
  }

  lemma OrderTail(events: seq<LoadedEvent>, rank: seq<nat>)
    requires Indexed(events, rank) && events != [] && InKeyOrder(events, rank)
    ensures Indexed(events[1..], rank) && InKeyOrder(events[1..], rank)
    ensures forall f :: f in multiset(events[1..]) ==> f.symbolIdx < |rank| && KeyLe(events[0], f, rank)
  {
    hide KeyLe;
    assert forall f :: f in multiset(events[1..]) ==> f in events[1..];
  }

  lemma {:induction false} InsertOrders(events: seq<LoadedEvent>, e: LoadedEvent, rank: seq<nat>)
    requires Indexed(events, rank) && e.symbolIdx < |rank| && InKeyOrder(events, rank)
    ensures InKeyOrder(InsertByKey(events, e, rank), rank)
  {
    hide KeyLe, InKeyOrder;
    if events == [] {
      OrderCons(e, events, rank);
    } else {
      OrderTail(events, rank);
      KeyTotal(e, events[0], e, rank);
      assert events == [events[0]] + events[1..];
      if KeyLe(e, events[0], rank) {
        forall f | f in multiset(events)
          ensures f.symbolIdx < |rank| && KeyLe(e, f, rank)
        {
          if f != events[0] {
            KeyTotal(e, events[0], f, rank);
          }
        }
        OrderCons(e, events, rank);
      } else {
        InsertOrders(events[1..], e, rank);
        OrderCons(events[0], InsertByKey(events[1..], e, rank), rank);
      }
    }
  }

  lemma {:induction false} SortOrders(events: seq<LoadedEvent>, rank: seq<nat>)
    requires Indexed(events, rank)
    ensures InKeyOrder(SortByKey(events, rank), rank)
  {
    if events != [] {
      hide KeyLe, InKeyOrder, InsertByKey;
      SortOrders(events[1..], rank);
      InsertOrders(SortByKey(events[1..], rank), events[0], rank);
    }
  }

  /** The loaded events are sorted by the replay's key. */
  lemma LoadSorts(events: seq<LoadedEvent>, rank: seq<nat>)
    requires Indexed(events, rank) && Ranked(rank)
    ensures Sorted(SortByKey(events, rank), rank) && multiset(SortByKey(events, rank)) == multiset(events)
  {
    hide KeyLe, SortByKey;
    SortOrders(events, rank);
  }

  /** Of two loaded events the first is no later; at one time, of a symbol ranked no lower; for one symbol at
      one time, no trade before a book row; and within one kind, not read before the other. */
  lemma LoadedInOrder(events: seq<LoadedEvent>, rank: seq<nat>, i: nat, j: nat)
    requires Indexed(events, rank) && Ranked(rank) && i < j < |events|
    ensures var loaded := SortByKey(events, rank);
            && |loaded| == |events|
            && var e, f := loaded[i], loaded[j];
               && e.symbolIdx < |rank| && f.symbolIdx < |rank|
               && e.tsNs <= f.tsNs
               && (e.tsNs == f.tsNs ==> rank[e.symbolIdx] <= rank[f.symbolIdx])
               && (e.tsNs == f.tsNs && e.symbolIdx == f.symbolIdx && e.payload.TradeRow? ==> f.payload.TradeRow?)
               && (e.tsNs == f.tsNs && e.symbolIdx == f.symbolIdx && e.payload.TradeRow? == f.payload.TradeRow?
                   ==> e.src <= f.src)
  {
    hide SortByKey;
    LoadSorts(events, rank);
    var loaded := SortByKey(events, rank);
    assert |multiset(loaded)| == |loaded| && |multiset(events)| == |events|;
    assert KeyLe(loaded[i], loaded[j], rank);
  }

  /** Two events with the same key are the same event. */
  lemma SameKey(e: LoadedEvent, f: LoadedEvent, rank: seq<nat>)
    requires Ranked(rank) && e.symbolIdx < |rank| && f.symbolIdx < |rank| && KeyLe(e, f, rank) && KeyLe(f, e, rank)
    ensures e.src == f.src && e.tsNs == f.tsNs && e.symbolIdx == f.symbolIdx
  {
  }

  /** Lists of the same events in key order start with the same event. */
  lemma SameHead(xs: seq<LoadedEvent>, ys: seq<LoadedEvent>, rank: seq<nat>)
    requires Indexed(xs, rank) && Indexed(ys, rank) && Ranked(rank) && SourcesDiffer(xs) && xs != [] && ys != []
    requires InKeyOrder(xs, rank) && InKeyOrder(ys, rank) && xs[0] in ys && ys[0] in xs
    ensures xs[0] == ys[0]
  {
    hide KeyLe;
    var i :| 0 <= i < |ys| && ys[i] == xs[0];
    var j :| 0 <= j < |xs| && xs[j] == ys[0];
    if i > 0 && j > 0 {
      SameKey(xs[0], ys[0], rank);
    }
  }

  lemma TailSourcesDiffer(xs: seq<LoadedEvent>)
    requires SourcesDiffer(xs) && xs != []
    ensures SourcesDiffer(xs[1..])
  {
  }

  lemma SameLength(xs: seq<LoadedEvent>, ys: seq<LoadedEvent>)
    requires multiset(xs) == multiset(ys)
    ensures |xs| == |ys| && forall e :: e in xs <==> e in ys
  {
    assert |xs| == |multiset(xs)| && |ys| == |multiset(ys)|;
    assert forall e :: e in xs <==> e in multiset(xs);
    assert forall e :: e in ys <==> e in multiset(ys);
  }

  /** The key is total: there is one sorted order of the same events. */
  lemma {:induction false} SortedUnique(xs: seq<LoadedEvent>, ys: seq<LoadedEvent>, rank: seq<nat>)
    requires Indexed(xs, rank) && Indexed(ys, rank) && Ranked(rank) && SourcesDiffer(xs)
    requires InKeyOrder(xs, rank) && InKeyOrder(ys, rank) && multiset(xs) == multiset(ys)
    ensures xs == ys
    decreases |xs|
  {
    hide KeyLe, InKeyOrder, SourcesDiffer, Ranked;
    SameLength(xs, ys);
    if xs != [] {
      SameHead(xs, ys, rank);
      OrderTail(xs, rank);
      OrderTail(ys, rank);
      TailMultiset(xs);
      TailMultiset(ys);
      TailSourcesDiffer(xs);
      SortedUnique(xs[1..], ys[1..], rank);
      assert xs == [xs[0]] + xs[1..] && ys == [ys[0]] + ys[1..];
    }
  }

  /** The replay does not depend on the order in which the files were read: the same events, read in any
      order, load to the same list, so every run over them is the same run. */
  lemma LoadOrderIrrelevant(xs: seq<LoadedEvent>, ys: seq<LoadedEvent>, rank: seq<nat>)
    requires Indexed(xs, rank) && Indexed(ys, rank) && Ranked(rank) && SourcesDiffer(xs) && multiset(xs) == multiset(ys)
    ensures SortByKey(xs, rank) == SortByKey(ys, rank)
  {
    hide KeyLe, InKeyOrder, SortByKey;
    SortOrders(xs, rank);
    SortOrders(ys, rank);
    var sorted := SortByKey(xs, rank);
    assert forall k :: 0 <= k < |sorted| ==> sorted[k] in multiset(sorted);
    assert forall e :: e in multiset(xs) ==> e in xs;
    SortedUnique(sorted, SortByKey(ys, rank), rank);
  }
}
