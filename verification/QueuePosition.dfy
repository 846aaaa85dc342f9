/** Queue position across a trade and the snapshot after it: trade volume is not counted again as
    cancellations. */
module QueuePosition {
  import opened Decimals
  import opened Core
  import opened Book
  import opened Venue
  import opened Matching
  import opened Lifecycle

  /** Bites on one side of one symbol, eating queue only at one price. */
  predicate BitesAt(bites: seq<Bite>, symbol: Symbol, side: Side, price: real) {
    forall b :: b in bites ==>
      b.quote.symbol == symbol && b.quote.side == side && b.eaten >= 0.0 && (b.eaten > 0.0 ==> b.quote.price == price)
  }

  lemma {:induction false} EatenNonNegative(bites: seq<Bite>, symbol: Symbol, side: Side, price: real)
    requires BitesAt(bites, symbol, side, price)
    ensures EatenTotal(bites) >= 0.0
  {
    if bites != [] {
      assert bites[0] in bites;
      EatenNonNegative(bites[1..], symbol, side, price);
    }
  }

  lemma SettleBooks(cfg: SimConfig, s: Sim, b: Bite)
    ensures SettleBite(cfg, s, b).books == BookAfter(s.books, b)
  {
    hide Round, MakerFee;
  }

  lemma BookAfterOne(books: map<Symbol, BookState>, b: Bite, symbol: Symbol, side: Side, price: real)
    requires GoodBooks(books) && b.eaten >= 0.0
    ensures GoodBooks(BookAfter(books, b))
    ensures BookOf(BookAfter(books, b), symbol).LevelSize(side, price)
            == var level := BookOf(books, symbol).LevelSize(side, price);
               if b.quote.symbol == symbol && b.quote.side == side && b.quote.price == price
               then Max(0.0, level - b.eaten) else level
  {
    if b.quote.symbol in books {
      DecrementNonNegative(books[b.quote.symbol], b.quote.side, b.quote.price, b.eaten);
    }
  }

  /** What the queue eaten by a trade leaves of one level of the book. */
  function Adjusted(bites: seq<Bite>, level: real, here: bool): real {
    if here then Max(0.0, level - EatenTotal(bites)) else level
  }

  lemma LevelNonNegative(books: map<Symbol, BookState>, symbol: Symbol, side: Side, price: real)
    requires GoodBooks(books)
    ensures BookOf(books, symbol).LevelSize(side, price) >= 0.0
  {
    assert BookOf(books, symbol).NonNegative();
  }

  lemma {:induction false} BooksAfterBites(cfg: SimConfig, s: Sim, bites: seq<Bite>, symbol: Symbol, side: Side,
                                           tradePrice: real, at: Symbol, atSide: Side, price: real)
    requires GoodBooks(s.books) && BitesAt(bites, symbol, side, tradePrice)
    ensures BookOf(SettleBites(cfg, s, bites).books, at).LevelSize(atSide, price)
            == Adjusted(bites, BookOf(s.books, at).LevelSize(atSide, price),
                        at == symbol && atSide == side && price == tradePrice)
    decreases |bites|
  {
    hide SettleBite, BookOf, BookState.LevelSize, GoodBooks;
    LevelNonNegative(s.books, at, atSide, price);
    if bites != [] {
      var b := bites[0];
      assert b in bites;
      SettleBooks(cfg, s, b);
      BookAfterOne(s.books, b, at, atSide, price);
      EatenNonNegative(bites[1..], symbol, side, tradePrice);
      BooksAfterBites(cfg, SettleBite(cfg, s, b), bites[1..], symbol, side, tradePrice, at, atSide, price);
    }
  }

  /** A trade bites only orders of its symbol, on the side it hits, and eats queue only at its price. */
  lemma TradeBitesAt(s: Sim, symbol: Symbol, tradePrice: real, tradeSize: real, taker: Side)
    requires AllHealthy(s.live)
    ensures BitesAt(TradeBites(s, symbol, tradePrice, tradeSize, taker), symbol, taker.Opposite(), tradePrice)
  {
    hide Bites, Priority;
    var bites := TradeBites(s, symbol, tradePrice, tradeSize, taker);
    if tradePrice > 0.0 && tradeSize > 0.0 {
      var order := TradeOutcome(s, symbol, tradePrice, tradeSize, taker);
      EatenOnlyAtPrice(s.live, tradePrice, tradeSize, order);
      forall b | b in bites
        ensures b.quote.symbol == symbol && b.quote.side == taker.Opposite() && b.eaten >= 0.0
      {
        var k :| 0 <= k < |bites| && bites[k] == b;
        assert order[k] in order && IsEligible(s.live[order[k]], symbol, taker, tradePrice);
      }
    }
  }

  /** After a trade, a snapshot showing at least the trade-adjusted aggregate at an order's level
      leaves its queue position exactly as the trade left it. */
  lemma TradeNotDoubleCounted(cfg: SimConfig, s: Sim, symbol: Symbol, tradePrice: real, tradeSize: real, taker: Side,
                              ts: nat, snap: Snapshot, q: LiveQuote)
    requires Sound(s) && q in MatchTrade(cfg, s, symbol, tradePrice, tradeSize, taker, ts).0.live
    requires var eaten := EatenTotal(TradeBites(s, symbol, tradePrice, tradeSize, taker));
             var here := q.symbol == symbol && q.side == taker.Opposite() && q.price == tradePrice;
             BookFrom(snap).LevelSize(q.side, q.price)
             >= BookOf(s.books, q.symbol).LevelSize(q.side, q.price) - if here then eaten else 0.0
    ensures var s' := MatchTrade(cfg, s, symbol, tradePrice, tradeSize, taker, ts).0;
            q in UpdateBook(s', snap).live && Reattributed(BookOf(s'.books, snap.symbol), snap, q) == q
  {
    hide Bites, SettleBites, LiveAfter, Drained, TradeBites, InWindow, BookFrom;
    var s' := MatchTrade(cfg, s, symbol, tradePrice, tradeSize, taker, ts).0;
    TradeBitesAt(s, symbol, tradePrice, tradeSize, taker);
    BooksAfterBites(cfg, s, TradeBites(s, symbol, tradePrice, tradeSize, taker), symbol, taker.Opposite(), tradePrice,
                    q.symbol, q.side, q.price);
    var i :| 0 <= i < |s'.live| && s'.live[i] == q;
    assert UpdateBook(s', snap).live[i] == Reattributed(BookOf(s'.books, snap.symbol), snap, q);
  }

  // ---------------------------------------------------------------------------------------------
  // Waiting one's turn

  /** Every bite is of the trade that was left when its order's turn came. */
  lemma {:induction false} BiteOfSome(live: seq<LiveQuote>, tradePrice: real, remaining: real, order: seq<nat>, k: nat)
    returns (left: real)
    requires Indices(order, |live|) && HealthyAt(live, order) && k < |Bites(live, tradePrice, remaining, order)|
             && k < |order|
    ensures 0.0 < left <= remaining
    ensures Bites(live, tradePrice, remaining, order)[k] == BiteOf(live[order[k]], order[k], tradePrice, left)
    decreases |order|
  {
    hide BiteOf, Healthy;
    UnfoldBites(live, tradePrice, remaining, order);
    if k == 0 {
      left := remaining;
    } else {
      hide Bites;
      var b := BiteOf(live[order[0]], order[0], tradePrice, remaining);
      BiteFacts(live[order[0]], order[0], tradePrice, remaining);
      left := BiteOfSome(live, tradePrice, remaining - b.eaten - b.filled, order[1..], k - 1);
    }
  }

  /** A trade at an order's price fills it with no more than what exceeds the queue ahead of it. */
  lemma QueueComesFirst(s: Sim, i: nat, symbol: Symbol, tradeSize: real, taker: Side)
    requires AllHealthy(s.live) && i < |s.live| && tradeSize > 0.0
    ensures var q := s.live[i];
            var q' := LiveAfter(s.live, TradeBites(s, symbol, q.price, tradeSize, taker))[i];
            q.size - q'.size <= Max(0.0, tradeSize - q.queueAhead)
  {
    hide BiteOf, Bites, LiveAfter, Priority, Drained, IsEligible, InOrder, Exhausts, BitesOf, Used;
    var q := s.live[i];
    var bites := TradeBites(s, symbol, q.price, tradeSize, taker);
    OrderAfterTrade(s, symbol, q.price, tradeSize, taker, i);
    if IsEligible(q, symbol, taker, q.price) {
      var order := TradeOutcome(s, symbol, q.price, tradeSize, taker);
      BitesOfMeans(bites, s.live, order);
      LiveAfterAt(s.live, bites, order, i);
      var k :| 0 <= k < |order| && order[k] == i;
      if k < |bites| {
        var left := BiteOfSome(s.live, q.price, tradeSize, order, k);
        BiteWaits(q, i, left);
      } else {
        assert forall j :: 0 <= j < |bites| ==> order[j] != i;
      }
    }
  }

  lemma BitesOfMeans(bites: seq<Bite>, live: seq<LiveQuote>, order: seq<nat>)
    requires Indices(order, |live|) && BitesOf(bites, live, order)
    ensures |bites| <= |order| && forall k :: 0 <= k < |bites| ==> bites[k].index == order[k]
  {
    hide Later;
  }

  lemma BiteWaits(q: LiveQuote, index: nat, left: real)
    requires Healthy(q) && left > 0.0
    ensures q.size - BiteOf(q, index, q.price, left).quote.size <= Max(0.0, left - q.queueAhead)
  {
  }

  /** An order joins at the back: a trade at its price no larger than what the book showed there when it
      was placed leaves it whole and resting. */
  lemma NewOrderWaits(cfg: SimConfig, s: Sim, intent: QuoteIntent, ts: nat, overrideId: Option<QuoteId>,
                      submittedAt: nat, tradeSize: real, taker: Side, tradeTs: nat)
    requires Sound(s) && GoodIntent(intent) && !intent.tif.Immediate() && Verdict(cfg, s, intent) == None
    requires 0.0 < tradeSize <= BookOf(s.books, intent.symbol).LevelSize(intent.side, intent.price)
    ensures var s1 := Place(cfg, s, intent, ts, overrideId, submittedAt).0;
            var bites := TradeBites(s1, intent.symbol, intent.price, tradeSize, taker);
            && |s1.live| == |s.live| + 1 && s1.live[..|s.live|] == s.live
            && LiveAfter(s1.live, bites)[|s.live|].size == intent.size
            && |s.live| !in Drained(bites)
  {
    hide Verdict, LiveAfter, Drained, TradeBites, Later, IsEligible;
    var s1 := Place(cfg, s, intent, ts, overrideId, submittedAt).0;
    QueueComesFirst(s1, |s.live|, intent.symbol, tradeSize, taker);
    OrderAfterTrade(s1, intent.symbol, intent.price, tradeSize, taker, |s.live|);
    var live' := LiveAfter(s1.live, TradeBites(s1, intent.symbol, intent.price, tradeSize, taker));
    LaterSmaller(s1.live[|s.live|], live'[|s.live|]);
  }

  lemma LaterSmaller(q: LiveQuote, q': LiveQuote)
    requires Later(q, q')
    ensures q'.size <= q.size
  {
  }

  // ---------------------------------------------------------------------------------------------
  // How much queue one trade can eat

  /** The queue ahead of an order, if it rests at this level. */
  function QueueAt(symbol: Symbol, side: Side, price: real): LiveQuote -> real {
    (q: LiveQuote) => if q.symbol == symbol && q.side == side && q.price == price then q.queueAhead else 0.0
  }

  /** That queue and the order's own size. */
  function TakeableAt(symbol: Symbol, side: Side, price: real): LiveQuote -> real {
    (q: LiveQuote) => QueueAt(symbol, side, price)(q) + q.size
  }

  /** The queues ahead of all own orders at one level, each counted in full. */
  function QueuesAt(live: seq<LiveQuote>, symbol: Symbol, side: Side, price: real): real {
    Sum(live, QueueAt(symbol, side, price))
  }

  function Takeable(live: seq<LiveQuote>, symbol: Symbol, side: Side, price: real): real {
    Sum(live, TakeableAt(symbol, side, price))
  }

  /** A bite moves its own order by what it eats and fills. */
  predicate BiteMoves(live: seq<LiveQuote>, b: Bite, symbol: Symbol, side: Side, price: real) {
    && b.index < |live|
    && QueueAt(symbol, side, price)(b.quote) == QueueAt(symbol, side, price)(live[b.index]) - b.eaten
    && b.quote.size == live[b.index].size - b.filled
  }

  lemma {:induction false} QueuesFall(live: seq<LiveQuote>, bites: seq<Bite>, order: seq<nat>, symbol: Symbol,
                                      side: Side, price: real)
    requires Indices(order, |live|) && NoRepeats(order) && |bites| <= |order|
    requires forall k :: 0 <= k < |bites| ==>
               bites[k].index == order[k] && BiteMoves(live, bites[k], symbol, side, price)
    ensures QueuesAt(LiveAfter(live, bites), symbol, side, price)
            == QueuesAt(live, symbol, side, price) - EatenTotal(bites)
    ensures Takeable(LiveAfter(live, bites), symbol, side, price) == Takeable(live, symbol, side, price) - Used(bites)
    decreases |bites|
  {
    if bites != [] {
      var b := bites[0];
      var live' := live[order[0] := b.quote];
      SumUpdate(live, order[0], b.quote, QueueAt(symbol, side, price));
      SumUpdate(live, order[0], b.quote, TakeableAt(symbol, side, price));
      forall k | 0 <= k < |bites[1..]|
        ensures bites[1..][k].index == order[1..][k] && BiteMoves(live', bites[1..][k], symbol, side, price)
      {
        assert bites[k + 1].index == order[k + 1] && order[k + 1] != order[0];
        assert BiteMoves(live, bites[k + 1], symbol, side, price);
      }
      QueuesFall(live', bites[1..], order[1..], symbol, side, price);
    }
  }

  lemma TakeableNonNegative(live: seq<LiveQuote>, symbol: Symbol, side: Side, price: real)
    requires forall q :: q in live ==> q.size >= 0.0 && q.queueAhead >= 0.0
    ensures QueuesAt(live, symbol, side, price) >= 0.0 && Takeable(live, symbol, side, price) >= 0.0
  {
    SumNonNegative(live, QueueAt(symbol, side, price));
    SumNonNegative(live, TakeableAt(symbol, side, price));
  }

  /** What a trade eats of the queue is what the queues of the orders at its level fall by. */
  lemma QueueEaten(s: Sim, symbol: Symbol, price: real, size: real, taker: Side)
    requires AllHealthy(s.live) && price > 0.0 && size > 0.0
    ensures var bites, side := TradeBites(s, symbol, price, size, taker), taker.Opposite();
            && QueuesAt(LiveAfter(s.live, bites), symbol, side, price)
              == QueuesAt(s.live, symbol, side, price) - EatenTotal(bites)
            && EatenTotal(bites) <= QueuesAt(s.live, symbol, side, price)
            && (size > Takeable(s.live, symbol, side, price)
                ==> EatenTotal(bites) == QueuesAt(s.live, symbol, side, price))
  {
    hide BiteOf, Bites, LiveAfter, Priority, Drained, InOrder, Exhausts, BitesOf, Used, QueuesAt, Takeable, Healthy,
      Later;
    var bites, side := TradeBites(s, symbol, price, size, taker), taker.Opposite();
    var live' := LiveAfter(s.live, bites);
    var order := TradeOutcome(s, symbol, price, size, taker);
    BitesOfMeans(bites, s.live, order);
    forall k | 0 <= k < |bites|
      ensures bites[k].index == order[k] && BiteMoves(s.live, bites[k], symbol, side, price)
    {
      var left := BiteOfSome(s.live, price, size, order, k);
      assert order[k] in order;
      BiteMovesIts(s.live, order[k], symbol, price, left, taker);
    }
    QueuesFall(s.live, bites, order, symbol, side, price);
    forall q | q in live'
      ensures q.size >= 0.0 && q.queueAhead >= 0.0
    {
      var i :| 0 <= i < |live'| && live'[i] == q;
      OrderAfterTrade(s, symbol, price, size, taker, i);
      LaterNonNegative(s.live[i], q);
    }
    TakeableNonNegative(live', symbol, side, price);
    if size > Takeable(s.live, symbol, side, price) {
      forall i | 0 <= i < |live'|
        ensures QueueAt(symbol, side, price)(live'[i]) == 0.0
      {
        OrderAfterTrade(s, symbol, price, size, taker, i);
        if IsEligible(s.live[i], symbol, taker, price) {
          var k :| 0 <= k < |order| && order[k] == i;
          ServedInFull(s.live, bites, order, k, size);
          LiveAfterAt(s.live, bites, order, i);
        } else {
          NotAtLevel(s.live[i], symbol, taker, price);
        }
      }
      ZeroQueues(live', symbol, side, price);
    }
  }

  lemma BiteMovesIts(live: seq<LiveQuote>, i: nat, symbol: Symbol, price: real, left: real, taker: Side)
    requires i < |live| && Healthy(live[i]) && IsEligible(live[i], symbol, taker, price) && left > 0.0
    ensures BiteMoves(live, BiteOf(live[i], i, price, left), symbol, taker.Opposite(), price)
  {
    BiteFacts(live[i], i, price, left);
  }

  lemma LaterNonNegative(q: LiveQuote, q': LiveQuote)
    requires Later(q, q')
    ensures q'.size >= 0.0 && q'.queueAhead >= 0.0
  {
  }

  lemma ServedInFull(live: seq<LiveQuote>, bites: seq<Bite>, order: seq<nat>, k: nat, size: real)
    requires Indices(order, |live|) && BitesOf(bites, live, order) && k < |order|
    requires Exhausts(bites, |order|, size - Used(bites)) && size > Used(bites) && AllHealthy(live)
    ensures k < |bites| && bites[k].quote.queueAhead == 0.0
  {
    hide Later, Used;
  }

  lemma NotAtLevel(q: LiveQuote, symbol: Symbol, taker: Side, price: real)
    requires !IsEligible(q, symbol, taker, price)
    ensures QueueAt(symbol, taker.Opposite(), price)(q) == 0.0
  {
  }

  lemma {:induction false} ZeroQueues(live: seq<LiveQuote>, symbol: Symbol, side: Side, price: real)
    requires forall i :: 0 <= i < |live| ==> QueueAt(symbol, side, price)(live[i]) == 0.0
    ensures QueuesAt(live, symbol, side, price) == 0.0
  {
    if live != [] {
      ZeroQueues(live[1..], symbol, side, price);
    }
  }

  /** No trade at a price eats more queue than the level holds if and only if the queues ahead of all own
      orders there add up to no more than it holds.  Two orders behind the same resting size each count
      it, and a trade then eats it twice. */
  lemma EatenWithinLevelIff(s: Sim, symbol: Symbol, price: real, taker: Side, level: real)
    requires AllHealthy(s.live) && price > 0.0
    ensures (forall size :: size > 0.0 ==> EatenTotal(TradeBites(s, symbol, price, size, taker)) <= level)
            <==> QueuesAt(s.live, symbol, taker.Opposite(), price) <= level
  {
    hide TradeBites, QueuesAt, Takeable, LiveAfter, EatenTotal;
    var side := taker.Opposite();
    forall size | size > 0.0
      ensures EatenTotal(TradeBites(s, symbol, price, size, taker)) <= QueuesAt(s.live, symbol, side, price)
    {
      QueueEaten(s, symbol, price, size, taker);
    }
    var all := Max(0.0, Takeable(s.live, symbol, side, price)) + 1.0;
    QueueEaten(s, symbol, price, all, taker);
    assert EatenTotal(TradeBites(s, symbol, price, all, taker)) == QueuesAt(s.live, symbol, side, price);
  }

  /** Then the level falls by exactly what the trade eats, and nothing is cut off at zero. */
  lemma LevelFallsByEaten(cfg: SimConfig, s: Sim, symbol: Symbol, price: real, size: real, taker: Side)
    requires Sound(s) && price > 0.0 && size > 0.0
    requires QueuesAt(s.live, symbol, taker.Opposite(), price)
             <= BookOf(s.books, symbol).LevelSize(taker.Opposite(), price)
    ensures var bites := TradeBites(s, symbol, price, size, taker);
            BookOf(SettleBites(cfg, s, bites).books, symbol).LevelSize(taker.Opposite(), price)
            == BookOf(s.books, symbol).LevelSize(taker.Opposite(), price) - EatenTotal(bites)
  {
    hide TradeBites, QueuesAt, LiveAfter, EatenTotal, SettleBites, BookOf;
    QueueEaten(s, symbol, price, size, taker);
    TradeBitesAt(s, symbol, price, size, taker);
    BooksAfterBites(cfg, s, TradeBites(s, symbol, price, size, taker), symbol, taker.Opposite(), price,
                    symbol, taker.Opposite(), price);
  }
}
