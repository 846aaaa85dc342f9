/** Reconciling the resting orders of one symbol with the venue's own list. */
module Reconciliation {
  import opened Core
  import opened Venue

  /** An order as the venue reports it. */
  datatype OpenOrder = OpenOrder(id: QuoteId, symbol: Symbol, side: Side, price: real, size: real)

  function OrderIds(orders: seq<OpenOrder>): set<QuoteId> {
    set i | 0 <= i < |orders| :: orders[i].id
  }

  predicate StaysIn(q: LiveQuote, symbol: Symbol, valid: set<QuoteId>) {
    q.symbol != symbol || q.id in valid
  }

  function Staying(symbol: Symbol, valid: set<QuoteId>): LiveQuote -> bool {
    (q: LiveQuote) => StaysIn(q, symbol, valid)
  }

  /** Drops the symbol's orders the venue does not know. */
  function Retained(live: seq<LiveQuote>, symbol: Symbol, valid: set<QuoteId>): seq<LiveQuote> {
    Filter(live, Staying(symbol, valid))
  }

  function RestingIds(live: seq<LiveQuote>, symbol: Symbol): set<QuoteId> {
    set i | 0 <= i < |live| && live[i].symbol == symbol :: live[i].id
  }

  predicate PlacesId(p: PendingOp, symbol: Symbol) {
    p.op.PlaceOp? && p.op.intent.symbol == symbol && p.op.overrideId.Some?
  }

  /** Ids of in-flight placements that already carry a venue id. */
  function InFlightIds(pending: seq<PendingOp>, symbol: Symbol): set<QuoteId> {
    set i | 0 <= i < |pending| && PlacesId(pending[i], symbol) :: pending[i].op.overrideId.value
  }

  /** The venue's queue position is not known, so an import starts at the front. */
  function Import(o: OpenOrder): LiveQuote {
    LiveQuote(o.id, o.symbol, o.side, o.price, o.size, 0.0, 0, 0)
  }

  function Imports(orders: seq<OpenOrder>, symbol: Symbol, known: set<QuoteId>): seq<LiveQuote> {
    if orders == [] then []
    else if orders[0].symbol != symbol || orders[0].id in known then Imports(orders[1..], symbol, known)
    else [Import(orders[0])] + Imports(orders[1..], symbol, known + {orders[0].id})
  }

  /** Ids the symbol knows once the ghosts are gone. */
  function Known(s: Sim, symbol: Symbol, orders: seq<OpenOrder>): set<QuoteId> {
    RestingIds(Retained(s.live, symbol, OrderIds(orders)), symbol) + InFlightIds(s.pending, symbol)
  }

  /** The state afterwards, how many ghosts were dropped, and how many missing orders were imported. */
  function Reconciled(s: Sim, symbol: Symbol, orders: seq<OpenOrder>): (Sim, nat, nat) {
    var kept := Retained(s.live, symbol, OrderIds(orders));
    var added := Imports(orders, symbol, Known(s, symbol, orders));
    (s.(live := kept + added), |s.live| - |kept|, |added|)
  }

  /** An import is one of the venue's orders of the symbol, and was not known. */
  lemma {:induction false} ImportComes(orders: seq<OpenOrder>, symbol: Symbol, known: set<QuoteId>, q: LiveQuote)
    returns (i: nat)
    requires q in Imports(orders, symbol, known)
    ensures i < |orders| && q == Import(orders[i]) && q.symbol == symbol && q.id !in known
  {
    if orders[0].symbol != symbol || orders[0].id in known {
      i := ImportComes(orders[1..], symbol, known, q);
      i := i + 1;
    } else if q == Import(orders[0]) {
      i := 0;
    } else {
      i := ImportComes(orders[1..], symbol, known + {orders[0].id}, q);
      i := i + 1;
    }
  }

  /** A listed order of the symbol that was not known has its id imported. */
  lemma {:induction false} ImportCovers(orders: seq<OpenOrder>, symbol: Symbol, known: set<QuoteId>, i: nat)
    returns (k: nat)
    requires i < |orders| && orders[i].symbol == symbol && orders[i].id !in known
    ensures k < |Imports(orders, symbol, known)| && Imports(orders, symbol, known)[k].id == orders[i].id
  {
    var head := orders[0];
    if head.symbol != symbol || head.id in known {
      k := ImportCovers(orders[1..], symbol, known, i - 1);
    } else if head.id == orders[i].id {
      k := 0;
    } else {
      k := ImportCovers(orders[1..], symbol, known + {head.id}, i - 1);
      k := k + 1;
    }
  }

  predicate UniqueIds(live: seq<LiveQuote>) {
    forall i, j :: 0 <= i < j < |live| ==> live[i].id != live[j].id
  }

  lemma UniqueCons(head: LiveQuote, tail: seq<LiveQuote>)
    requires UniqueIds(tail) && forall q :: q in tail ==> q.id != head.id
    ensures UniqueIds([head] + tail)
  {
    assert forall j :: 0 <= j < |tail| ==> tail[j] in tail;
  }

  lemma {:induction false} ImportsUnique(orders: seq<OpenOrder>, symbol: Symbol, known: set<QuoteId>)
    ensures UniqueIds(Imports(orders, symbol, known))
  {
    if orders != [] {
      hide UniqueIds;
      var head, tail := orders[0], orders[1..];
      if head.symbol != symbol || head.id in known {
        ImportsUnique(tail, symbol, known);
      } else {
        var rest := Imports(tail, symbol, known + {head.id});
        ImportsUnique(tail, symbol, known + {head.id});
        forall q | q in rest
          ensures q.id != head.id
        {
          var i := ImportComes(tail, symbol, known + {head.id}, q);
        }
        UniqueCons(Import(head), rest);
      }
    } else {
      assert UniqueIds([]);
    }
  }

  predicate Leaves(q: LiveQuote, symbol: Symbol, valid: set<QuoteId>) {
    q.symbol == symbol && q.id !in valid
  }

  function Leaving(symbol: Symbol, valid: set<QuoteId>): LiveQuote -> bool {
    (q: LiveQuote) => Leaves(q, symbol, valid)
  }

  /** The symbol's resting orders that the venue does not list. */
  function Ghosts(live: seq<LiveQuote>, symbol: Symbol, orders: seq<OpenOrder>): seq<LiveQuote> {
    Filter(live, Leaving(symbol, OrderIds(orders)))
  }

  lemma {:induction false} GhostsCounted(live: seq<LiveQuote>, symbol: Symbol, valid: set<QuoteId>)
    ensures |live| == |Retained(live, symbol, valid)| + |Filter(live, Leaving(symbol, valid))|
  {
    if live != [] {
      GhostsCounted(live[1..], symbol, valid);
    }
  }

  /** The ids listed for the symbol that are not known. */
  function MissingIds(orders: seq<OpenOrder>, symbol: Symbol, known: set<QuoteId>): set<QuoteId> {
    set i | 0 <= i < |orders| && orders[i].symbol == symbol && orders[i].id !in known :: orders[i].id
  }

  lemma {:induction false} ImportsCounted(orders: seq<OpenOrder>, symbol: Symbol, known: set<QuoteId>)
    ensures |Imports(orders, symbol, known)| == |MissingIds(orders, symbol, known)|
  {
    if orders != [] {
      var head, tail := orders[0], orders[1..];
      if head.symbol != symbol || head.id in known {
        ImportsCounted(tail, symbol, known);
        MissingTail(orders, symbol, known, known);
      } else {
        ImportsCounted(tail, symbol, known + {head.id});
        MissingTail(orders, symbol, known, known + {head.id});
      }
    }
  }

  /** Taking the head of the list away, and its id among the known if it was missing. */
  lemma MissingTail(orders: seq<OpenOrder>, symbol: Symbol, known: set<QuoteId>, known': set<QuoteId>)
    requires orders != []
    requires known' == if orders[0].symbol != symbol || orders[0].id in known then known else known + {orders[0].id}
    ensures var rest := MissingIds(orders[1..], symbol, known');
            && MissingIds(orders, symbol, known) == rest + (known' - known)
            && |MissingIds(orders, symbol, known)| == |rest| + if known' == known then 0 else 1
  {
    var all, rest := MissingIds(orders, symbol, known), MissingIds(orders[1..], symbol, known');
    var head := orders[0];
    forall id
      ensures id in all <==> id in rest || id in known' - known
    {
      MissingOne(orders, symbol, known, id);
      MissingOne(orders[1..], symbol, known', id);
    }
    hide MissingIds;
    assert all == rest + (known' - known);
    if known' != known {
      assert known' - known == {head.id} && head.id !in rest by {
        MissingOne(orders[1..], symbol, known', head.id);
      }
    }
  }

  /** An id is missing if the head or the tail lists it. */
  lemma MissingOne(orders: seq<OpenOrder>, symbol: Symbol, known: set<QuoteId>, id: QuoteId)
    ensures id in MissingIds(orders, symbol, known)
            <==> id !in known && exists i :: 0 <= i < |orders| && orders[i].symbol == symbol && orders[i].id == id
    ensures orders != [] ==>
              (id in MissingIds(orders, symbol, known)
               <==> || (orders[0].symbol == symbol && orders[0].id == id && id !in known)
                    || id in MissingIds(orders[1..], symbol, known))
  {
    if orders != [] {
      var tail := orders[1..];
      if id in MissingIds(orders, symbol, known) {
        var i :| 0 <= i < |orders| && orders[i].symbol == symbol && orders[i].id !in known && orders[i].id == id;
        assert i > 0 ==> tail[i - 1] == orders[i];
      }
      if id in MissingIds(tail, symbol, known) {
        var i :| 0 <= i < |tail| && tail[i].symbol == symbol && tail[i].id !in known && tail[i].id == id;
        assert orders[i + 1] == tail[i];
      }
    }
  }

  /** Afterwards the symbol's resting ids are all the venue's, and every order the venue lists for the
      symbol is resting or in flight.  The counts returned are how many resting orders the venue did not
      list, and how many listed ids were not known. */
  lemma ReconcileComplete(s: Sim, symbol: Symbol, orders: seq<OpenOrder>)
    ensures var (s', removed, added) := Reconciled(s, symbol, orders);
            && RestingIds(s'.live, symbol) <= OrderIds(orders)
            && (forall i :: 0 <= i < |orders| && orders[i].symbol == symbol ==>
                  orders[i].id in RestingIds(s'.live, symbol) + InFlightIds(s'.pending, symbol))
            && |s'.live| == |s.live| - removed + added
            && removed == |Ghosts(s.live, symbol, orders)|
            && added == |MissingIds(orders, symbol, Known(s, symbol, orders))|
            && s' == s.(live := s'.live)
  {
    hide Retained, Imports, Known, Leaving, MissingIds;
    GhostsCounted(s.live, symbol, OrderIds(orders));
    ImportsCounted(orders, symbol, Known(s, symbol, orders));
    var valid := OrderIds(orders);
    var kept, known := Retained(s.live, symbol, valid), Known(s, symbol, orders);
    var added := Imports(orders, symbol, known);
    var live' := kept + added;
    KeptAre(s, symbol, orders);
    forall i | 0 <= i < |live'| && live'[i].symbol == symbol
      ensures live'[i].id in valid
    {
      if i < |kept| {
        assert live'[i] in kept;
      } else {
        assert live'[i] in added;
        var k := ImportComes(orders, symbol, known, live'[i]);
        assert orders[k].id in valid;
      }
    }
    forall i | 0 <= i < |orders| && orders[i].symbol == symbol
      ensures orders[i].id in RestingIds(live', symbol) + InFlightIds(s.pending, symbol)
    {
      if orders[i].id in known {
        KnownRest(kept, added, s, symbol, orders, orders[i].id);
      } else {
        var k := ImportCovers(orders, symbol, known, i);
        assert added[k] in added;
        var j := ImportComes(orders, symbol, known, added[k]);
        assert live'[|kept| + k] == added[k];
      }
    }
  }

  lemma KnownRest(kept: seq<LiveQuote>, added: seq<LiveQuote>, s: Sim, symbol: Symbol, orders: seq<OpenOrder>,
                  id: QuoteId)
    requires kept == Retained(s.live, symbol, OrderIds(orders)) && id in Known(s, symbol, orders)
    ensures id in RestingIds(kept + added, symbol) + InFlightIds(s.pending, symbol)
  {
    hide Retained;
    if id in RestingIds(kept, symbol) {
      var k :| 0 <= k < |kept| && kept[k].symbol == symbol && kept[k].id == id;
      assert (kept + added)[k] == kept[k];
    }
  }

  predicate Elsewhere(q: LiveQuote, symbol: Symbol) {
    q.symbol != symbol
  }

  function OnOther(symbol: Symbol): LiveQuote -> bool {
    (q: LiveQuote) => Elsewhere(q, symbol)
  }

  /** The orders of other symbols, in order. */
  function Others(live: seq<LiveQuote>, symbol: Symbol): seq<LiveQuote> {
    Filter(live, OnOther(symbol))
  }

  lemma {:induction false} OthersKept(live: seq<LiveQuote>, symbol: Symbol, valid: set<QuoteId>)
    ensures Others(Retained(live, symbol, valid), symbol) == Others(live, symbol)
  {
    if live != [] {
      OthersKept(live[1..], symbol, valid);
      var rest := Retained(live[1..], symbol, valid);
      if StaysIn(live[0], symbol, valid) {
        assert ([live[0]] + rest)[1..] == rest;
      } else {
        assert [] + rest == rest;
        assert Others(live, symbol) == [] + Others(live[1..], symbol) == Others(live[1..], symbol);
      }
    }
  }

  lemma {:induction false} OthersAppend(live: seq<LiveQuote>, added: seq<LiveQuote>, symbol: Symbol)
    requires forall q :: q in added ==> q.symbol == symbol
    ensures Others(live + added, symbol) == Others(live, symbol)
  {
    if live == [] {
      assert live + added == added;
      NoOthers(added, symbol);
    } else {
      assert (live + added)[1..] == live[1..] + added;
      OthersAppend(live[1..], added, symbol);
    }
  }

  lemma {:induction false} NoOthers(added: seq<LiveQuote>, symbol: Symbol)
    requires forall q :: q in added ==> q.symbol == symbol
    ensures Others(added, symbol) == []
  {
    if added != [] {
      assert added[0] in added;
      NoOthers(added[1..], symbol);
    }
  }

  /** Orders of other symbols are untouched. */
  lemma ReconcileLocal(s: Sim, symbol: Symbol, orders: seq<OpenOrder>)
    ensures Others(Reconciled(s, symbol, orders).0.live, symbol) == Others(s.live, symbol)
  {
    hide Known, Imports;
    var kept, known := Retained(s.live, symbol, OrderIds(orders)), Known(s, symbol, orders);
    forall q | q in Imports(orders, symbol, known)
      ensures q.symbol == symbol
    {
      var i := ImportComes(orders, symbol, known, q);
    }
    OthersKept(s.live, symbol, OrderIds(orders));
    OthersAppend(kept, Imports(orders, symbol, known), symbol);
  }

  lemma {:induction false} KeepAll(live: seq<LiveQuote>, symbol: Symbol, valid: set<QuoteId>)
    requires RestingIds(live, symbol) <= valid
    ensures Retained(live, symbol, valid) == live
  {
    if live != [] {
      assert live[0].symbol == symbol ==> live[0].id in RestingIds(live, symbol);
      assert forall i :: 0 <= i < |live[1..]| ==> live[1..][i] == live[i + 1];
      KeepAll(live[1..], symbol, valid);
    }
  }

  lemma {:induction false} NoImports(orders: seq<OpenOrder>, symbol: Symbol, known: set<QuoteId>)
    requires forall i :: 0 <= i < |orders| && orders[i].symbol == symbol ==> orders[i].id in known
    ensures Imports(orders, symbol, known) == []
  {
    if orders != [] {
      assert forall i :: 0 <= i < |orders[1..]| ==> orders[1..][i] == orders[i + 1];
      NoImports(orders[1..], symbol, known);
    }
  }

  /** Reconciling again with the same list changes nothing and reports nothing. */
  lemma ReconcileIdempotent(s: Sim, symbol: Symbol, orders: seq<OpenOrder>)
    ensures var s' := Reconciled(s, symbol, orders).0;
            Reconciled(s', symbol, orders) == (s', 0, 0)
  {
    hide Imports, Retained, OrderIds, RestingIds, InFlightIds;
    var s' := Reconciled(s, symbol, orders).0;
    ReconcileComplete(s, symbol, orders);
    KeepAll(s'.live, symbol, OrderIds(orders));
    NoImports(orders, symbol, Known(s', symbol, orders));
    assert s'.live + [] == s'.live;
  }

  /** A listed order the symbol does not know has the id of an order resting on another symbol. */
  predicate Clashes(s: Sim, symbol: Symbol, orders: seq<OpenOrder>) {
    exists i, k :: 0 <= i < |orders| && 0 <= k < |s.live|
      && orders[i].symbol == symbol && orders[i].id !in Known(s, symbol, orders)
      && s.live[k].symbol != symbol && s.live[k].id == orders[i].id
  }

  lemma {:induction false} RetainedUnique(live: seq<LiveQuote>, symbol: Symbol, valid: set<QuoteId>)
    requires UniqueIds(live)
    ensures UniqueIds(Retained(live, symbol, valid))
  {
    if live != [] {
      RetainedUnique(live[1..], symbol, valid);
      var rest := Retained(live[1..], symbol, valid);
      assert forall j :: 0 <= j < |rest| ==> rest[j] in rest;
      assert forall q :: q in rest ==> q in live[1..];
    }
  }

  /** Resting ids stay unique exactly when no missing order shares its id with another symbol's resting
      order: ids are compared within the symbol only. */
  lemma ReconcileUnique(s: Sim, symbol: Symbol, orders: seq<OpenOrder>)
    requires UniqueIds(s.live)
    ensures UniqueIds(Reconciled(s, symbol, orders).0.live) <==> !Clashes(s, symbol, orders)
  {
    hide Retained, Imports, Known;
    var valid := OrderIds(orders);
    var kept, known := Retained(s.live, symbol, valid), Known(s, symbol, orders);
    var added := Imports(orders, symbol, known);
    var live' := kept + added;
    ImportsUnique(orders, symbol, known);
    RetainedUnique(s.live, symbol, valid);
    KeptAre(s, symbol, orders);
    if Clashes(s, symbol, orders) {
      hide UniqueIds;
      var i, k :| 0 <= i < |orders| && 0 <= k < |s.live| && orders[i].symbol == symbol && orders[i].id !in known
        && s.live[k].symbol != symbol && s.live[k].id == orders[i].id;
      assert s.live[k] in kept;
      var a :| 0 <= a < |kept| && kept[a] == s.live[k];
      var b := ImportCovers(orders, symbol, known, i);
      NotUnique(kept, added, a, b);
    } else {
      forall q, r | q in kept && r in added
        ensures q.id != r.id
      {
        var i := ImportComes(orders, symbol, known, r);
        var k :| 0 <= k < |s.live| && s.live[k] == q;
      }
      UniqueJoin(kept, added);
    }
  }

  lemma NotUnique(kept: seq<LiveQuote>, added: seq<LiveQuote>, a: nat, b: nat)
    requires a < |kept| && b < |added| && kept[a].id == added[b].id
    ensures !UniqueIds(kept + added)
  {
    assert (kept + added)[a].id == (kept + added)[|kept| + b].id;
  }

  lemma UniqueJoin(kept: seq<LiveQuote>, added: seq<LiveQuote>)
    requires UniqueIds(kept) && UniqueIds(added) && forall q, r :: q in kept && r in added ==> q.id != r.id
    ensures UniqueIds(kept + added)
  {
    var live := kept + added;
    forall i, j | 0 <= i < j < |live|
      ensures live[i].id != live[j].id
    {
      if i < |kept| <= j {
        assert kept[i] in kept && added[j - |kept|] in added;
      }
    }
  }

  /** What is kept: orders that were resting, all those of other symbols among them; the ids of those of
      this symbol are known. */
  lemma KeptAre(s: Sim, symbol: Symbol, orders: seq<OpenOrder>)
    ensures var kept := Retained(s.live, symbol, OrderIds(orders));
            && (forall q :: q in kept ==> q in s.live)
            && (forall q :: q in s.live && q.symbol != symbol ==> q in kept)
            && (forall q :: q in kept && q.symbol == symbol ==>
                  q.id in Known(s, symbol, orders) && q.id in OrderIds(orders))
  {
    var kept := Retained(s.live, symbol, OrderIds(orders));
    forall q | q in kept && q.symbol == symbol
      ensures q.id in Known(s, symbol, orders)
    {
      var k :| 0 <= k < |kept| && kept[k] == q;
      assert q.id in RestingIds(kept, symbol);
    }
  }

  /** The order the venue reports, as it is imported: everything reported, and nobody ahead of it. */
  predicate ImportedAs(o: OpenOrder, q: LiveQuote) {
    q.id == o.id && q.symbol == o.symbol && q.side == o.side && q.price == o.price && q.size == o.size
    && q.queueAhead == 0.0
  }

  /** The symbol's id is in flight as a placement that carries it. */
  predicate InFlight(s: Sim, symbol: Symbol, id: QuoteId) {
    exists i :: 0 <= i < |s.pending| && s.pending[i].op.PlaceOp?
                && s.pending[i].op.intent.symbol == symbol && s.pending[i].op.overrideId == Some(id)
  }

  /** Afterwards what rested and is of another symbol or listed still rests, untouched, and so does a listed
      order of the symbol, as reported, whose id neither rested there nor was in flight; and nothing else. */
  lemma ReconciledOrders(s: Sim, symbol: Symbol, orders: seq<OpenOrder>, q: LiveQuote)
    ensures q in s.live && (q.symbol != symbol || exists i :: 0 <= i < |orders| && orders[i].id == q.id)
            ==> q in Reconciled(s, symbol, orders).0.live
    ensures q in Reconciled(s, symbol, orders).0.live ==>
            || (q in s.live && (q.symbol != symbol || exists i :: 0 <= i < |orders| && orders[i].id == q.id))
            || exists i :: 0 <= i < |orders| && orders[i].symbol == symbol && ImportedAs(orders[i], q)
                 && !InFlight(s, symbol, q.id)
                 && forall r :: r in s.live && r.symbol == symbol ==> r.id != q.id
  {
    hide Imports, Known;
    var kept, known := Retained(s.live, symbol, OrderIds(orders)), Known(s, symbol, orders);
    if q in Imports(orders, symbol, known) && q !in kept {
      hide Retained, InFlight;
      var i := ImportComes(orders, symbol, known, q);
      assert ImportedAs(orders[i], q);
      if InFlight(s, symbol, q.id) {
        FlightIsKnown(s, symbol, orders, q.id);
      }
      forall r | r in s.live && r.symbol == symbol
        ensures r.id != q.id
      {
        if r.id == q.id {
          ListedStays(s, symbol, orders, r, i);
        }
      }
    }
  }

  lemma FlightIsKnown(s: Sim, symbol: Symbol, orders: seq<OpenOrder>, id: QuoteId)
    requires InFlight(s, symbol, id)
    ensures id in Known(s, symbol, orders)
  {
    hide Retained, RestingIds;
    var i :| 0 <= i < |s.pending| && s.pending[i].op.PlaceOp?
             && s.pending[i].op.intent.symbol == symbol && s.pending[i].op.overrideId == Some(id);
    assert PlacesId(s.pending[i], symbol);
  }

  lemma ListedStays(s: Sim, symbol: Symbol, orders: seq<OpenOrder>, r: LiveQuote, i: nat)
    requires r in s.live && r.symbol == symbol && i < |orders| && orders[i].id == r.id
    ensures r.id in Known(s, symbol, orders)
  {
    hide InFlightIds;
    var kept := Retained(s.live, symbol, OrderIds(orders));
    assert r in kept;
    var k :| 0 <= k < |kept| && kept[k] == r;
  }
}
