/** Dropping a symbol's orders when the venue has cancelled them all. */
module Dropping {
  import opened Core
  import opened Venue
  import opened OpenQuotes
  import opened Reconciliation

  function Dropped(s: Sim, symbol: Symbol): Sim {
    s.(live := Filter(s.live, Staying(symbol, s.managers)), pending := Filter(s.pending, Surviving(symbol, s.managers)))
  }

  /** After the drop the strategy sees no order of the symbol; every manager's order still rests; and the
      orders of other symbols are the same, in the same order. */
  lemma DropClearsView(s: Sim, symbol: Symbol)
    ensures var s' := Dropped(s, symbol);
            && View(s', symbol) == []
            && (forall q :: q in s.live && q.id in s.managers ==> q in s'.live)
            && Others(s'.live, symbol) == Others(s.live, symbol)
  {
    hide Filter;
    var s' := Dropped(s, symbol);
    NothingLive(s'.live, s.managers, symbol);
    NothingPending(s'.pending, s.managers, symbol);
    OthersKept(s.live, symbol, s.managers);
  }

  lemma {:induction false} NothingLive(live: seq<LiveQuote>, managers: set<QuoteId>, symbol: Symbol)
    requires forall q :: q in live ==> StaysIn(q, symbol, managers)
    ensures LiveView(live, managers, symbol) == []
    decreases |live|
  {
    if live != [] {
      assert live[|live| - 1] in live;
      NothingLive(live[..|live| - 1], managers, symbol);
    }
  }

  lemma {:induction false} NothingPending(pending: seq<PendingOp>, managers: set<QuoteId>, symbol: Symbol)
    requires forall p :: p in pending ==> SurvivesDrop(p, symbol, managers)
    ensures PendingView(pending, managers, symbol) == []
    decreases |pending|
  {
    if pending != [] {
      assert pending[|pending| - 1] in pending;
      NothingPending(pending[..|pending| - 1], managers, symbol);
    }
  }

  function Surviving(symbol: Symbol, managers: set<QuoteId>): PendingOp -> bool {
    (p: PendingOp) => SurvivesDrop(p, symbol, managers)
  }

  predicate SurvivesDrop(p: PendingOp, symbol: Symbol, managers: set<QuoteId>) {
    match p.op
    case PlaceOp(intent, o) => intent.symbol != symbol || (o.Some? && o.value in managers)
    case ReplaceOp(_, intent) => intent.symbol != symbol
    case _ => true
  }

  /** Exactly what the drop leaves: orders of other symbols and managers' orders; operations of other symbols,
      managers' placements, and all cancels.  Nothing else changes. */
  lemma DroppedExactly(s: Sim, symbol: Symbol, q: LiveQuote, p: PendingOp)
    ensures var s' := Dropped(s, symbol);
            && s' == s.(live := s'.live, pending := s'.pending)
            && (q in s'.live <==> q in s.live && (q.symbol != symbol || q.id in s.managers))
            && (p in s'.pending
                <==> && p in s.pending
                     && (p.op.PlaceOp? ==> || p.op.intent.symbol != symbol
                                           || (p.op.overrideId.Some? && p.op.overrideId.value in s.managers))
                     && (p.op.ReplaceOp? ==> p.op.newIntent.symbol != symbol))
  {
  }
}
