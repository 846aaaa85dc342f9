/** Matching a public trade against the resting orders: price-time priority, conservation of the
    traded volume, and what is left resting. */
module Matching {
  import opened Decimals
  import opened Core
  import opened Book
  import opened Venue

  /** A real resting order: positive price and size, a queue that is not negative. */
  predicate Healthy(q: LiveQuote) {
    q.price > 0.0 && q.size > 0.0 && q.queueAhead >= 0.0
  }

  predicate AllHealthy(live: seq<LiveQuote>) {
    forall i :: 0 <= i < |live| ==> Healthy(live[i])
  }

  /** `q'` is the same order later on: no larger, and no further back in the queue. */
  predicate Later(q: LiveQuote, q': LiveQuote) {
    && q' == q.(size := q'.size, queueAhead := q'.queueAhead)
    && 0.0 <= q'.size <= q.size
    && 0.0 <= q'.queueAhead <= q.queueAhead
  }

  /** The trade reaches order `i` before order `j`: better price, or same price and older. */
  predicate Before(live: seq<LiveQuote>, taker: Side, i: nat, j: nat)
    requires i < |live| && j < |live|
  {
    || Rank(taker, live[i].price) < Rank(taker, live[j].price)
    || (live[i].price == live[j].price && i < j)
  }

  predicate InOrder(live: seq<LiveQuote>, taker: Side, order: seq<nat>)
    requires Indices(order, |live|)
  {
    forall a, b :: 0 <= a < b < |order| ==> Before(live, taker, order[a], order[b])
  }

  lemma {:induction false} InsertKeepsOrder(live: seq<LiveQuote>, taker: Side, idx: seq<nat>, i: nat)
    requires Indices(idx, |live|) && i < |live| && InOrder(live, taker, idx)
    requires forall j :: j in idx ==> j < i
    ensures InOrder(live, taker, InsertByPrice(live, taker, idx, i))
    ensures forall j :: j in InsertByPrice(live, taker, idx, i) <==> j in idx || j == i
    decreases |idx|
  {
    if idx == [] || Rank(taker, live[idx[|idx| - 1]].price) <= Rank(taker, live[i].price) {
      forall a | 0 <= a < |idx|
        ensures Before(live, taker, idx[a], i)
      {
        assert idx[a] in idx;
        assert a < |idx| - 1 ==> Before(live, taker, idx[a], idx[|idx| - 1]);
      }
    } else {
      var init, last := idx[..|idx| - 1], idx[|idx| - 1];
      assert idx == init + [last];
      assert forall j :: j in init ==> j in idx;
      InsertKeepsOrder(live, taker, init, i);
      var r := InsertByPrice(live, taker, init, i);
      forall a | 0 <= a < |r|
        ensures Before(live, taker, r[a], last)
      {
        assert r[a] in r;
        if r[a] != i {
          var k :| 0 <= k < |init| && init[k] == r[a];
          assert Before(live, taker, idx[k], idx[|idx| - 1]);
        }
      }
    }
  }

  lemma {:induction false} SortKeepsOrder(live: seq<LiveQuote>, taker: Side, idx: seq<nat>)
    requires Indices(idx, |live|)
    requires forall a, b :: 0 <= a < b < |idx| ==> idx[a] < idx[b]
    ensures InOrder(live, taker, SortByPrice(live, taker, idx))
    ensures forall j :: j in SortByPrice(live, taker, idx) <==> j in idx
    decreases |idx|
  {
    if idx != [] {
      var init, last := idx[..|idx| - 1], idx[|idx| - 1];
      assert idx == init + [last];
      SortKeepsOrder(live, taker, init);
      InsertKeepsOrder(live, taker, SortByPrice(live, taker, init), last);
    }
  }

  lemma {:induction false} EligibleIndices(live: seq<LiveQuote>, n: nat, symbol: Symbol, taker: Side, tradePrice: real)
    requires n <= |live|
    ensures var idx := EligibleBelow(live, n, symbol, taker, tradePrice);
            && (forall i :: i in idx <==> 0 <= i < n && IsEligible(live[i], symbol, taker, tradePrice))
            && (forall a, b :: 0 <= a < b < |idx| ==> idx[a] < idx[b])
  {
    if n > 0 {
      EligibleIndices(live, n - 1, symbol, taker, tradePrice);
    }
  }

  /** The order of service holds exactly the eligible orders, best price first, oldest first. */
  lemma PriorityOrder(live: seq<LiveQuote>, symbol: Symbol, taker: Side, tradePrice: real)
    ensures var order := Priority(live, symbol, taker, tradePrice);
            && InOrder(live, taker, order)
            && NoRepeats(order)
            && forall i :: i in order <==> 0 <= i < |live| && IsEligible(live[i], symbol, taker, tradePrice)
  {
    EligibleIndices(live, |live|, symbol, taker, tradePrice);
    SortKeepsOrder(live, taker, EligibleBelow(live, |live|, symbol, taker, tradePrice));
    var order := Priority(live, symbol, taker, tradePrice);
    forall a, b | 0 <= a < b < |order|
      ensures order[a] != order[b]
    {
      assert Before(live, taker, order[a], order[b]);
    }
  }

  predicate NoRepeats(order: seq<nat>) {
    forall a, b :: 0 <= a < b < |order| ==> order[a] != order[b]
  }

  // ---------------------------------------------------------------------------------------------
  // One bite

  /** A bite is made of queue and fill, takes no more than is left, and leaves some trade for the next
      order only when this one is gone. */
  lemma BiteFacts(q: LiveQuote, index: nat, tradePrice: real, remaining: real)
    requires Healthy(q) && remaining > 0.0
    ensures var b := BiteOf(q, index, tradePrice, remaining);
            && b.index == index && Later(q, b.quote) && b.quote.size == q.size - b.filled
            && b.eaten >= 0.0 && b.filled >= 0.0 && b.eaten + b.filled <= remaining
            && (b.reached <==> b.filled > 0.0)
            && (!b.reached ==> b.eaten == remaining)
            && (b.eaten + b.filled < remaining ==> b.quote.size == 0.0)
            && (tradePrice != q.price ==> b.eaten == 0.0)
            && (tradePrice == q.price ==> b.quote.queueAhead == q.queueAhead - b.eaten)
            && (b.filled > 0.0 ==> b.quote.queueAhead == 0.0)
  {
  }

  predicate HealthyAt(live: seq<LiveQuote>, order: seq<nat>)
    requires Indices(order, |live|)
  {
    forall k :: 0 <= k < |order| ==> Healthy(live[order[k]])
  }

  /** What the bites use up of the trade. */
  function Used(bites: seq<Bite>): real {
    if bites == [] then 0.0 else bites[0].eaten + bites[0].filled + Used(bites[1..])
  }

  /** Bite `k` is of the `k`-th order served. */
  predicate BitesOf(bites: seq<Bite>, live: seq<LiveQuote>, order: seq<nat>)
    requires Indices(order, |live|)
  {
    && |bites| <= |order|
    && forall k :: 0 <= k < |bites| ==>
         && bites[k].index == order[k] && Later(live[order[k]], bites[k].quote)
         && bites[k].quote.size == live[order[k]].size - bites[k].filled
         && bites[k].eaten >= 0.0 && (bites[k].reached <==> bites[k].filled > 0.0) && bites[k].filled >= 0.0
         && (bites[k].filled > 0.0 ==> bites[k].quote.queueAhead == 0.0)
  }

  /** Every bite but the last takes the whole order, and so does the last if any trade is left; then
      every order has been served. */
  predicate Exhausts(bites: seq<Bite>, orders: nat, leftover: real) {
    && (forall k :: 0 <= k < |bites| - 1 ==> bites[k].quote.size == 0.0)
    && (leftover > 0.0 ==> |bites| == orders && forall k :: 0 <= k < |bites| ==> bites[k].quote.size == 0.0)
  }

  lemma UnfoldBites(live: seq<LiveQuote>, tradePrice: real, remaining: real, order: seq<nat>)
    requires Indices(order, |live|) && order != [] && remaining > 0.0
    ensures var b := BiteOf(live[order[0]], order[0], tradePrice, remaining);
            Bites(live, tradePrice, remaining, order)
            == if b.reached then [b] + Bites(live, tradePrice, remaining - b.eaten - b.filled, order[1..]) else [b]
  {
    hide BiteOf;
  }

  lemma {:induction false} BitesInOrder(live: seq<LiveQuote>, tradePrice: real, remaining: real, order: seq<nat>)
    requires Indices(order, |live|) && HealthyAt(live, order) && remaining >= 0.0
    ensures var bites := Bites(live, tradePrice, remaining, order);
            && BitesOf(bites, live, order)
            && Used(bites) <= remaining
            && Exhausts(bites, |order|, remaining - Used(bites))
    decreases |order|
  {
    if order != [] && remaining > 0.0 {
      hide BiteOf, Healthy, Later;
      var b := BiteOf(live[order[0]], order[0], tradePrice, remaining);
      BiteFacts(live[order[0]], order[0], tradePrice, remaining);
      UnfoldBites(live, tradePrice, remaining, order);
      if b.reached {
        hide BitesOf, Exhausts, Bites;
        var left := remaining - b.eaten - b.filled;
        BitesInOrder(live, tradePrice, left, order[1..]);
        BitesPrepend(b, Bites(live, tradePrice, left, order[1..]), live, order, left);
      }
    }
  }

  /** A bite that takes its whole order, unless nothing is left, in front of the bites that follow. */
  lemma BitesPrepend(b: Bite, rest: seq<Bite>, live: seq<LiveQuote>, order: seq<nat>, left: real)
    requires Indices(order, |live|) && order != [] && Used(rest) <= left
    requires b.index == order[0] && Later(live[order[0]], b.quote) && b.quote.size == live[order[0]].size - b.filled
    requires b.eaten >= 0.0 && b.filled > 0.0 && b.reached && b.quote.queueAhead == 0.0
    requires left > 0.0 ==> b.quote.size == 0.0
    requires left <= 0.0 ==> rest == []
    requires BitesOf(rest, live, order[1..]) && Exhausts(rest, |order| - 1, left - Used(rest))
    ensures BitesOf([b] + rest, live, order) && Exhausts([b] + rest, |order|, left - Used(rest))
  {
    hide Later;
    assert forall k :: 1 <= k < |rest| + 1 ==> ([b] + rest)[k] == rest[k - 1] && order[k] == order[1..][k - 1];
  }

  // ---------------------------------------------------------------------------------------------
  // The orders after the trade

  /** A bite replaces its own order and no other. */
  lemma {:induction false} LiveAfterAt(live: seq<LiveQuote>, bites: seq<Bite>, order: seq<nat>, j: nat)
    requires Indices(order, |live|) && NoRepeats(order) && |bites| <= |order| && j < |live|
    requires forall k :: 0 <= k < |bites| ==> bites[k].index == order[k]
    ensures (forall k :: 0 <= k < |bites| && order[k] == j ==> LiveAfter(live, bites)[j] == bites[k].quote)
    ensures (forall k :: 0 <= k < |bites| ==> order[k] != j) ==> LiveAfter(live, bites)[j] == live[j]
    decreases |bites|
  {
    if bites != [] {
      LiveAfterAt(live[order[0] := bites[0].quote], bites[1..], order[1..], j);
      assert forall k :: 1 <= k < |bites| ==>
          order[k] == order[1..][k - 1] && bites[k] == bites[1..][k - 1] && order[k] != order[0];
    }
  }

  lemma {:induction false} DrainedAre(bites: seq<Bite>, i: nat)
    ensures i in Drained(bites) <==>
            exists k :: 0 <= k < |bites| && bites[k].index == i && bites[k].reached && bites[k].quote.size == 0.0
  {
    if bites != [] {
      DrainedAre(bites[1..], i);
      assert forall k :: 1 <= k < |bites| ==> bites[k] == bites[1..][k - 1];
      if i in Drained(bites[1..]) {
        var k :| 0 <= k < |bites[1..]| && bites[1..][k].index == i && bites[1..][k].reached
          && bites[1..][k].quote.size == 0.0;
        assert bites[k + 1].index == i;
      }
    }
  }

  /** The order of service, the bites taken along it, and everything known about them. */
  lemma TradeOutcome(s: Sim, symbol: Symbol, tradePrice: real, tradeSize: real, taker: Side)
    returns (order: seq<nat>)
    requires AllHealthy(s.live) && tradePrice > 0.0 && tradeSize > 0.0
    ensures var bites := TradeBites(s, symbol, tradePrice, tradeSize, taker);
            && order == Priority(s.live, symbol, taker, tradePrice)
            && Indices(order, |s.live|) && InOrder(s.live, taker, order) && NoRepeats(order)
            && (forall i :: i in order <==> 0 <= i < |s.live| && IsEligible(s.live[i], symbol, taker, tradePrice))
            && BitesOf(bites, s.live, order)
            && Used(bites) <= tradeSize && Exhausts(bites, |order|, tradeSize - Used(bites))
  {
    hide Bites, InOrder, IsEligible, BitesOf, Exhausts, Healthy, NoRepeats;
    order := Priority(s.live, symbol, taker, tradePrice);
    PriorityOrder(s.live, symbol, taker, tradePrice);
    BitesInOrder(s.live, tradePrice, tradeSize, order);
  }

  /** After the trade, order `i` is where it was, later; untouched if not eligible; and among the
      drained exactly when nothing is left of it. */
  lemma OrderAfterTrade(s: Sim, symbol: Symbol, tradePrice: real, tradeSize: real, taker: Side, i: nat)
    requires AllHealthy(s.live) && i < |s.live|
    ensures var bites := TradeBites(s, symbol, tradePrice, tradeSize, taker);
            var q, q' := s.live[i], LiveAfter(s.live, bites)[i];
            && Later(q, q')
            && (i in Drained(bites) <==> q'.size == 0.0)
            && (!IsEligible(q, symbol, taker, tradePrice) ==> q' == q)
  {
    DrainedAre(TradeBites(s, symbol, tradePrice, tradeSize, taker), i);
    if tradePrice > 0.0 && tradeSize > 0.0 {
      hide BiteOf, Bites, TradeBites, LiveAfter, Drained, Priority, InOrder, Exhausts, IsEligible;
      var order := TradeOutcome(s, symbol, tradePrice, tradeSize, taker);
      LiveAfterAt(s.live, TradeBites(s, symbol, tradePrice, tradeSize, taker), order, i);
    }
  }

  /** A trade is matched in price-time order.  Of two eligible orders, the one served later is touched
      only if the earlier one is completely filled, and trade left over means that every eligible
      order is completely filled. */
  lemma PriceTimePriority(s: Sim, symbol: Symbol, tradePrice: real, tradeSize: real, taker: Side, i: nat, j: nat)
    requires AllHealthy(s.live) && tradePrice > 0.0 && tradeSize > 0.0
    requires i < |s.live| && IsEligible(s.live[i], symbol, taker, tradePrice)
    requires j < |s.live| && IsEligible(s.live[j], symbol, taker, tradePrice)
    ensures var bites := TradeBites(s, symbol, tradePrice, tradeSize, taker);
            var live' := LiveAfter(s.live, bites);
            && (Before(s.live, taker, i, j) && live'[j] != s.live[j] ==> live'[i].size == 0.0)
            && (Used(bites) < tradeSize ==> live'[i].size == 0.0)
  {
    hide BiteOf, Bites, TradeBites, LiveAfter, Priority, IsEligible, Healthy, Later, Used;
    var bites := TradeBites(s, symbol, tradePrice, tradeSize, taker);
    var order := TradeOutcome(s, symbol, tradePrice, tradeSize, taker);
    var a :| 0 <= a < |order| && order[a] == i;
    var b :| 0 <= b < |order| && order[b] == j;
    assert b < a ==> Before(s.live, taker, order[b], order[a]);
    LiveAfterAt(s.live, bites, order, i);
    LiveAfterAt(s.live, bites, order, j);
  }

  function FillTotal(fills: seq<Fill>): real {
    if fills == [] then 0.0 else fills[0].size + FillTotal(fills[1..])
  }

  function EatenTotal(bites: seq<Bite>): real {
    if bites == [] then 0.0 else bites[0].eaten + EatenTotal(bites[1..])
  }

  lemma {:induction false} UsedSplits(cfg: SimConfig, bites: seq<Bite>, ts: nat)
    requires forall b :: b in bites && !b.reached ==> b.filled == 0.0
    ensures Used(bites) == FillTotal(MakerFills(cfg, bites, ts)) + EatenTotal(bites)
  {
    if bites != [] {
      hide MakerFee;
      assert bites[0] in bites;
      UsedSplits(cfg, bites[1..], ts);
      var rest := MakerFills(cfg, bites[1..], ts);
      if bites[0].reached {
        assert ([MakerFill(cfg, bites[0], ts)] + rest)[1..] == rest;
      } else {
        assert [] + rest == rest;
      }
    }
  }

  lemma {:induction false} EatenOnlyAtPrice(live: seq<LiveQuote>, tradePrice: real, remaining: real, order: seq<nat>)
    requires Indices(order, |live|)
    ensures var bites := Bites(live, tradePrice, remaining, order);
            forall b :: b in bites ==>
              (b.eaten != 0.0 ==> b.quote.price == tradePrice) && (!b.reached ==> b.filled == 0.0)
    decreases |order|
  {
    if order != [] && remaining > 0.0 {
      var b := BiteOf(live[order[0]], order[0], tradePrice, remaining);
      EatenOnlyAtPrice(live, tradePrice, remaining - b.eaten - b.filled, order[1..]);
    }
  }

  /** The traded size is what the fills add up to, plus the queue eaten at orders resting exactly at
      the trade price, plus what is left over. */
  lemma TradeConserved(cfg: SimConfig, s: Sim, symbol: Symbol, tradePrice: real, tradeSize: real, taker: Side, ts: nat)
    requires AllHealthy(s.live) && tradePrice > 0.0 && tradeSize > 0.0
    ensures var bites := TradeBites(s, symbol, tradePrice, tradeSize, taker);
            var fills := MatchTrade(cfg, s, symbol, tradePrice, tradeSize, taker, ts).1;
            var leftover := tradeSize - FillTotal(fills) - EatenTotal(bites);
            && leftover >= 0.0
            && (forall b :: b in bites && b.eaten > 0.0 ==> b.quote.price == tradePrice)
            && (forall i :: 0 <= i < |s.live| && IsEligible(s.live[i], symbol, taker, tradePrice) && leftover > 0.0
                  ==> i in Drained(bites))
  {
    hide BiteOf, Bites, LiveAfter, Priority, SettleBites, MakerFills, Without;
    var bites := TradeBites(s, symbol, tradePrice, tradeSize, taker);
    var order := TradeOutcome(s, symbol, tradePrice, tradeSize, taker);
    EatenOnlyAtPrice(s.live, tradePrice, tradeSize, order);
    UsedSplits(cfg, bites, ts);
    forall i | 0 <= i < |s.live| && IsEligible(s.live[i], symbol, taker, tradePrice) && Used(bites) < tradeSize
      ensures i in Drained(bites)
    {
      PriceTimePriority(s, symbol, tradePrice, tradeSize, taker, i, i);
      OrderAfterTrade(s, symbol, tradePrice, tradeSize, taker, i);
    }
  }

  // ---------------------------------------------------------------------------------------------
  // Bites one at a time

  lemma SettleLive(cfg: SimConfig, s: Sim, live: seq<LiveQuote>, b: Bite)
    ensures SettleBite(cfg, s.(live := live), b) == SettleBite(cfg, s, b).(live := live)
    ensures SettleBite(cfg, s, b).live == s.live
  {
    hide Round, MakerFee, Notional, BookAfter;
  }

  lemma {:induction false} SettleAllLive(cfg: SimConfig, s: Sim, live: seq<LiveQuote>, bites: seq<Bite>)
    ensures SettleBites(cfg, s.(live := live), bites) == SettleBites(cfg, s, bites).(live := live)
    decreases |bites|
  {
    if bites != [] {
      hide SettleBite;
      SettleLive(cfg, s, live, bites[0]);
      SettleAllLive(cfg, SettleBite(cfg, s, bites[0]), live, bites[1..]);
    }
  }

  lemma {:induction false} SettleSnoc(cfg: SimConfig, s: Sim, bites: seq<Bite>, b: Bite)
    ensures SettleBites(cfg, s, bites + [b]) == SettleBite(cfg, SettleBites(cfg, s, bites), b)
    decreases |bites|
  {
    hide SettleBite;
    if bites == [] {
      assert ([] + [b])[1..] == [];
    } else {
      assert (bites + [b])[1..] == bites[1..] + [b];
      SettleSnoc(cfg, SettleBite(cfg, s, bites[0]), bites[1..], b);
    }
  }

  lemma {:induction false} LiveSnoc(live: seq<LiveQuote>, bites: seq<Bite>, b: Bite)
    requires b.index < |live|
    ensures LiveAfter(live, bites + [b]) == LiveAfter(live, bites)[b.index := b.quote]
    decreases |bites|
  {
    if bites == [] {
      assert ([] + [b])[1..] == [];
    } else {
      assert (bites + [b])[1..] == bites[1..] + [b];
      LiveSnoc(if bites[0].index < |live| then live[bites[0].index := bites[0].quote] else live, bites[1..], b);
    }
  }

  lemma {:induction false} FillsSnoc(cfg: SimConfig, bites: seq<Bite>, b: Bite, ts: nat)
    ensures MakerFills(cfg, bites + [b], ts)
            == MakerFills(cfg, bites, ts) + if b.reached then [MakerFill(cfg, b, ts)] else []
  {
    hide MakerFee;
    if bites == [] {
      assert ([] + [b])[1..] == [];
    } else {
      assert (bites + [b])[1..] == bites[1..] + [b];
      FillsSnoc(cfg, bites[1..], b, ts);
    }
  }

  lemma {:induction false} DrainedSnoc(bites: seq<Bite>, b: Bite)
    ensures Drained(bites + [b]) == Drained(bites) + if b.reached && b.quote.size == 0.0 then {b.index} else {}
  {
    if bites == [] {
      assert ([] + [b])[1..] == [];
    } else {
      assert (bites + [b])[1..] == bites[1..] + [b];
      DrainedSnoc(bites[1..], b);
    }
  }
}
