/** Immediate orders: what they take from the book, and when they leave it alone. */
module Takers {
  import opened Decimals
  import opened Core
  import opened Book
  import opened Venue
  import opened Lifecycle
  import opened Balances

  /** The size an immediate order could fill right now within its limit. */
  function Fillable(s: Sim, intent: QuoteIntent): real {
    DepthWithin(intent.side, SortedLevels(intent.side, BookOf(s.books, intent.symbol).Levels(intent.side.Opposite())),
                intent.price)
  }

  /** Same resting orders, position and balances, and the same depth at every level of every book. */
  ghost predicate Untouched(s: Sim, s': Sim) {
    && s'.live == s.live && s'.units == s.units && s'.cash == s.cash && s'.assets == s.assets
    && s'.pending == s.pending && s'.rejections == s.rejections
    && forall sym :: BookOf(s'.books, sym) == BookOf(s.books, sym)
  }

  lemma WalkSize(s: Sim, intent: QuoteIntent)
    requires GoodBooks(s.books) && intent.size > 0.0
    ensures var c := Consumed(BookOf(s.books, intent.symbol), intent.side, intent.size, intent.price);
            && Quantity(c) == Min(intent.size, Fillable(s, intent)) && Fillable(s, intent) >= 0.0
            && (c == [] <==> Quantity(c) == 0.0)
  {
    hide Walk;
    var book := BookOf(s.books, intent.symbol);
    var levels := SortedLevels(intent.side, book.Levels(intent.side.Opposite()));
    assert book.NonNegative();
    LevelsNonNegative(book, intent.side);
    LevelsSorted(intent.side, book.Levels(intent.side.Opposite()));
    DepthNonNegative(intent.side, levels, intent.price);
    WalkTakesMin(intent.side, levels, intent.size, intent.price);
    ConsumedPositive(book, intent.side, intent.size, intent.price);
  }

  /** An immediate order fills the smaller of its size and the depth within its limit -- a fill-or-kill
      order only if that is its whole size -- and each level of the side it hits drops by exactly what
      was taken there.  If it does not fill, nothing is touched. */
  lemma TakeOutcome(cfg: SimConfig, s: Sim, intent: QuoteIntent, ts: nat, submittedAt: nat, price: real)
    requires GoodBooks(s.books) && intent.size > 0.0 && intent.tif.Immediate()
    ensures var (s', fill) := Take(cfg, s, intent, ts, submittedAt);
            var book, book' := BookOf(s.books, intent.symbol), BookOf(s'.books, intent.symbol);
            var consumed := Consumed(book, intent.side, intent.size, intent.price);
            && (fill.Some? <==> if intent.tif.FOK? then Fillable(s, intent) >= intent.size
                else Fillable(s, intent) > 0.0)
            && (fill.None? ==> Untouched(s, s'))
            && (fill.Some? ==>
                  && fill.value.size == Min(intent.size, Fillable(s, intent))
                  && (intent.tif.FOK? ==> fill.value.size == intent.size && fill.value.isFull)
                  && book'.LevelSize(intent.side.Opposite(), price)
                     == book.LevelSize(intent.side.Opposite(), price) - TakenAt(consumed, price)
                  && book'.Levels(intent.side) == book.Levels(intent.side)
                  && s'.live == s.live)
  {
    hide Round, Consumed, Fillable, Quantity, RoundedCost, AveragePrice, Bps, DecrementAll;
    WalkSize(s, intent);
    var book := BookOf(s.books, intent.symbol);
    assert book.NonNegative();
    WalkLeaves(book, intent.side, intent.size, intent.price, price);
  }

  // ---------------------------------------------------------------------------------------------
  // In plain prices

  /** A buyer may take what is offered at its limit or below, a seller what is bid at its limit or above. */
  function Offered(side: Side, limit: real): Level -> real {
    (l: Level) => if (side == Bid && l.price <= limit) || (side == Ask && l.price >= limit) then l.size else 0.0
  }

  lemma {:induction false} DepthIsOffered(side: Side, levels: seq<Level>, limit: real)
    ensures DepthWithin(side, levels, limit) == Sum(levels, Offered(side, limit))
  {
    if levels != [] {
      DepthIsOffered(side, levels[1..], limit);
    }
  }

  /** The levels an order can take from: the asks for a buyer, the bids for a seller. */
  function OtherSide(s: Sim, intent: QuoteIntent): map<real, real> {
    if intent.symbol !in s.books then map[]
    else if intent.side == Bid then s.books[intent.symbol].asks else s.books[intent.symbol].bids
  }

  /** What an order could fill is what the other side offers within its limit, each level once; so an
      immediate-or-cancel order fills exactly if something is offered there. */
  lemma FillableIsOffered(cfg: SimConfig, s: Sim, intent: QuoteIntent, ts: nat, submittedAt: nat)
    requires GoodBooks(s.books) && intent.size > 0.0
    ensures var levels := SortedLevels(intent.side, OtherSide(s, intent));
            && Fillable(s, intent) == Sum(levels, Offered(intent.side, intent.price))
            && (forall l :: l in levels <==> l.price in OtherSide(s, intent) && OtherSide(s, intent)[l.price] == l.size)
    ensures intent.tif == IOC ==>
              (Take(cfg, s, intent, ts, submittedAt).1.Some?
               <==> exists p :: p in OtherSide(s, intent) && OtherSide(s, intent)[p] > 0.0
                      && ((intent.side == Bid && p <= intent.price) || (intent.side == Ask && p >= intent.price)))
  {
    hide Take, Fillable, SortedLevels, DepthWithin;
    var m := OtherSide(s, intent);
    var levels := SortedLevels(intent.side, m);
    FillableOn(s, intent);
    LevelsSorted(intent.side, m);
    DepthIsOffered(intent.side, levels, intent.price);
    assert BookOf(s.books, intent.symbol).NonNegative();
    OfferedSome(intent.side, levels, intent.price);
    if intent.tif == IOC {
      TakeOutcome(cfg, s, intent, ts, submittedAt, 0.0);
      if p :| p in m && m[p] > 0.0 && Offered(intent.side, intent.price)(Level(p, m[p])) > 0.0 {
        assert Level(p, m[p]) in levels;
      }
    }
  }

  lemma FillableOn(s: Sim, intent: QuoteIntent)
    ensures Fillable(s, intent)
            == DepthWithin(intent.side, SortedLevels(intent.side, OtherSide(s, intent)), intent.price)
  {
    hide DepthWithin, SortedLevels;
  }

  lemma {:induction false} OfferedSome(side: Side, levels: seq<Level>, limit: real)
    requires forall l :: l in levels ==> l.size >= 0.0
    ensures Sum(levels, Offered(side, limit)) >= 0.0
    ensures Sum(levels, Offered(side, limit)) > 0.0
            <==> exists l :: l in levels && Offered(side, limit)(l) > 0.0
  {
    if levels != [] {
      assert levels[0] in levels;
      OfferedSome(side, levels[1..], limit);
      assert forall l :: l in levels <==> l == levels[0] || l in levels[1..];
    }
  }

  /** What the fill says: a fresh id, the order's side and times, the quote asset, what the levels cost,
      rounded level by level, over the size as its price, the taker fee on that cost, and whether it is the
      whole order. */
  lemma TakerFillSays(cfg: SimConfig, s: Sim, intent: QuoteIntent, ts: nat, submittedAt: nat)
    requires Take(cfg, s, intent, ts, submittedAt).1.Some?
    ensures var (s', fill) := Take(cfg, s, intent, ts, submittedAt);
            var walk := Consumed(BookOf(s.books, intent.symbol), intent.side, intent.size, intent.price);
            var m, cost, qty := cfg.rounding, RoundedCost(cfg.rounding, walk), Quantity(walk);
            && qty > 0.0
            && fill.value == Fill(s.nextId, Round(m, cost / qty), qty, intent.symbol.quote,
                                  Round(m, Bps(cost, cfg.takerBps)), intent.side, ts, qty >= intent.size, submittedAt)
            && s'.nextId == s.nextId + 1
  {
    hide Consumed, RoundedCost, Bps, DecrementAll, Quantity;
    ConsumedPositive(BookOf(s.books, intent.symbol), intent.side, intent.size, intent.price);
  }
}
