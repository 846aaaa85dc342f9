/** Which resting orders a trade reaches and what it does to the first of them, in plain prices: a seller
    at a price takes every bid at or above it, a buyer every ask at or below it, best price first. */
module Reach {
  import opened Decimals
  import opened Core
  import opened Venue
  import opened Matching
  import opened QueuePosition

  /** The trade's price is no worse for the order than its own. */
  predicate Hit(q: LiveQuote, symbol: Symbol, tradePrice: real, taker: Side) {
    q.symbol == symbol
    && ((taker.Ask? && q.side.Bid? && q.price >= tradePrice) || (taker.Bid? && q.side.Ask? && q.price <= tradePrice))
  }

  /** Of two orders on the side hit, this price is better for the taker. */
  predicate BetterPrice(side: Side, p: real, r: real) {
    if side.Bid? then p > r else p < r
  }

  lemma HitIsEligible(q: LiveQuote, symbol: Symbol, tradePrice: real, taker: Side)
    ensures Hit(q, symbol, tradePrice, taker) <==> IsEligible(q, symbol, taker, tradePrice)
  {
  }

  lemma BetterIsBefore(live: seq<LiveQuote>, symbol: Symbol, tradePrice: real, taker: Side, i: nat, j: nat)
    requires i < |live| && Hit(live[i], symbol, tradePrice, taker)
    requires j < |live| && Hit(live[j], symbol, tradePrice, taker)
    ensures Before(live, taker, i, j)
            <==> || BetterPrice(live[i].side, live[i].price, live[j].price)
                 || (live[i].price == live[j].price && i < j)
  {
  }

  /** A trade changes only orders at its price or better on the side it hits; any of it left over means that
      every one of these is completely filled and gone; and an order is touched only if those with a better
      price, and the older ones at its own, are completely filled. */
  lemma TradeReaches(cfg: SimConfig, s: Sim, symbol: Symbol, price: real, size: real, taker: Side, ts: nat,
                     i: nat, j: nat)
    requires AllHealthy(s.live) && price > 0.0 && size > 0.0 && i < |s.live| && j < |s.live|
    ensures var bites := TradeBites(s, symbol, price, size, taker);
            var (s', fills) := MatchTrade(cfg, s, symbol, price, size, taker, ts);
            var live' := LiveAfter(s.live, bites);
            && s'.live == Without(live', Drained(bites))
            && (live'[i] != s.live[i] ==> Hit(s.live[i], symbol, price, taker))
            && (size > FillTotal(fills) + EatenTotal(bites) && Hit(s.live[i], symbol, price, taker)
                ==> live'[i].size == 0.0 && i in Drained(bites))
            && (live'[j] != s.live[j] && Hit(s.live[i], symbol, price, taker)
                && (|| BetterPrice(s.live[i].side, s.live[i].price, s.live[j].price)
                    || (s.live[i].price == s.live[j].price && i < j))
                ==> live'[i].size == 0.0 && i in Drained(bites))
  {
    hide TradeBites, LiveAfter, Drained, MakerFills, SettleBites, Without, Hit, IsEligible, Healthy, Later, Before,
      BetterPrice;
    HitIsEligible(s.live[i], symbol, price, taker);
    HitIsEligible(s.live[j], symbol, price, taker);
    TradeConserved(cfg, s, symbol, price, size, taker, ts);
    OrderAfterTrade(s, symbol, price, size, taker, i);
    OrderAfterTrade(s, symbol, price, size, taker, j);
    if Hit(s.live[i], symbol, price, taker) && Hit(s.live[j], symbol, price, taker) {
      PriceTimePriority(s, symbol, price, size, taker, i, j);
      BetterIsBefore(s.live, symbol, price, taker, i, j);
    }
  }

  /** A trade without price or size does nothing. */
  lemma EmptyTrade(cfg: SimConfig, s: Sim, symbol: Symbol, price: real, size: real, taker: Side, ts: nat)
    requires price <= 0.0 || size <= 0.0
    ensures MatchTrade(cfg, s, symbol, price, size, taker, ts) == (s, [])
  {
    NoneGone(s.live, 0);
  }

  lemma {:induction false} NoneGone<T>(xs: seq<T>, base: nat)
    ensures Without(xs, {}, base) == xs
  {
    if xs != [] {
      NoneGone(xs[1..], base + 1);
    }
  }

  // ---------------------------------------------------------------------------------------------
  // The first in line

  /** Hit, and no other order hit has a better price, or the same and rests before it. */
  predicate FirstInLine(live: seq<LiveQuote>, symbol: Symbol, price: real, taker: Side, i: nat) {
    && i < |live| && Hit(live[i], symbol, price, taker)
    && forall j :: 0 <= j < |live| && j != i && Hit(live[j], symbol, price, taker) ==>
         || BetterPrice(live[i].side, live[i].price, live[j].price)
         || (live[i].price == live[j].price && i < j)
  }

  /** What is left of the trade for the first in line: all of it if the trade went through its price, and
      what exceeds the queue if the trade was at its price. */
  function LeftFor(q: LiveQuote, price: real, size: real): real {
    if q.price != price then size else if size > q.queueAhead then size - q.queueAhead else 0.0
  }

  /** The fee on a fill: so many hundredths of a percent of rounded price times rounded size, rounded. */
  function FeeOn(m: Rounding, price: real, qty: real, bps: int): real {
    Round(m, Round(m, price) * Round(m, qty) * bps as real / 10000.0)
  }

  lemma FirstServed(live: seq<LiveQuote>, symbol: Symbol, price: real, taker: Side, i: nat)
    requires FirstInLine(live, symbol, price, taker, i)
    ensures var order := Priority(live, symbol, taker, price); order != [] && order[0] == i
  {
    hide Hit, IsEligible, Priority, BetterPrice;
    var order := Priority(live, symbol, taker, price);
    PriorityOrder(live, symbol, taker, price);
    HitIsEligible(live[i], symbol, price, taker);
    assert i in order;
    var a :| 0 <= a < |order| && order[a] == i;
    if a > 0 {
      var j := order[0];
      assert j in order && j != i;
      HitIsEligible(live[j], symbol, price, taker);
      assert Before(live, taker, order[0], order[a]);
      BetterIsBefore(live, symbol, price, taker, j, i);
      BetterIsBefore(live, symbol, price, taker, i, j);
      NotBoth(live, taker, j, i);
    }
  }

  lemma NotBoth(live: seq<LiveQuote>, taker: Side, i: nat, j: nat)
    requires i < |live| && j < |live| && Before(live, taker, i, j)
    ensures !Before(live, taker, j, i)
  {
  }

  /** The first in line is filled for the smaller of its size and what is left for it, at its own price, and
      the first fill says so; through its price its queue is swept away, at its price it is eaten. */
  lemma FirstInLineFills(cfg: SimConfig, s: Sim, symbol: Symbol, price: real, size: real, taker: Side, ts: nat, i: nat)
    requires AllHealthy(s.live) && price > 0.0 && size > 0.0 && FirstInLine(s.live, symbol, price, taker, i)
    ensures var q, q' := s.live[i], LiveAfter(s.live, TradeBites(s, symbol, price, size, taker))[i];
            var fills := MatchTrade(cfg, s, symbol, price, size, taker, ts).1;
            var left := LeftFor(q, price, size);
            var filled := if left < q.size then left else q.size;
            && q' == q.(size := q.size - filled,
                        queueAhead := if q.price != price || size > q.queueAhead then 0.0 else q.queueAhead - size)
            && (if left == 0.0 then fills == []
                else fills != [] && fills[0] == Fill(q.id, q.price, filled, symbol.quote,
                                                     FeeOn(cfg.rounding, q.price, filled, cfg.makerBps),
                                                     q.side, ts, left >= q.size, q.submittedAt))
  {
    hide FeeOn, TradeBites, LiveAfter, SettleBites, Drained, Without, FirstInLine, MakerFee, MakerFills, BiteOf;
    FirstIsHit(s.live, symbol, price, taker, i);
    var q, b := s.live[i], BiteOf(s.live[i], i, price, size);
    FirstBiteTaken(s, symbol, price, size, taker, i);
    FirstBite(q, i, price, size);
    FirstFill(cfg, TradeBites(s, symbol, price, size, taker), ts);
    MakerFeeIs(cfg, q.price, b.filled);
  }

  lemma MakerFeeIs(cfg: SimConfig, price: real, qty: real)
    ensures MakerFee(cfg, price, qty) == FeeOn(cfg.rounding, price, qty, cfg.makerBps)
  {
  }

  /** The first bite of a trade is of the first in line, and leaves it as it stands after the trade. */
  lemma FirstBiteTaken(s: Sim, symbol: Symbol, price: real, size: real, taker: Side, i: nat)
    requires AllHealthy(s.live) && price > 0.0 && size > 0.0 && FirstInLine(s.live, symbol, price, taker, i)
    ensures var bites, b := TradeBites(s, symbol, price, size, taker), BiteOf(s.live[i], i, price, size);
            && bites != [] && bites[0] == b && (!b.reached ==> bites == [b])
            && LiveAfter(s.live, bites)[i] == b.quote
  {
    hide Priority, LiveAfter, Hit, BetterPrice, FirstInLine, IsEligible, Exhausts, InOrder, Used, Healthy;
    hide BiteOf, BitesOf;
    var order := TradeOutcome(s, symbol, price, size, taker);
    FirstServed(s.live, symbol, price, taker, i);
    UnfoldBites(s.live, price, size, order);
    var bites := TradeBites(s, symbol, price, size, taker);
    BitesOfMeans(bites, s.live, order);
    LiveAfterAt(s.live, bites, order, i);
  }

  lemma FirstIsHit(live: seq<LiveQuote>, symbol: Symbol, price: real, taker: Side, i: nat)
    requires FirstInLine(live, symbol, price, taker, i)
    ensures i < |live| && live[i].symbol == symbol
  {
  }

  lemma FirstBite(q: LiveQuote, i: nat, price: real, size: real)
    requires Healthy(q) && size > 0.0
    ensures var b, left := BiteOf(q, i, price, size), LeftFor(q, price, size);
            var filled := if left < q.size then left else q.size;
            && b.filled == filled && (b.reached <==> left > 0.0) && left >= 0.0
            && b.quote == q.(size := q.size - filled,
                             queueAhead := if q.price != price || size > q.queueAhead then 0.0 else q.queueAhead - size)
  {
  }

  lemma FirstFill(cfg: SimConfig, bites: seq<Bite>, ts: nat)
    requires bites != []
    ensures var fills := MakerFills(cfg, bites, ts);
            && (bites[0].reached ==> fills != [] && fills[0] == MakerFill(cfg, bites[0], ts))
            && (!bites[0].reached && |bites| == 1 ==> fills == [])
  {
    hide MakerFill;
    if |bites| == 1 {
      assert bites[1..] == [];
    }
  }
}
