/** The simulator's per-symbol book aggregates, and the walk a taker order makes through them. */
module Book {
  import opened Decimals
  import opened Core

  /** Aggregate size per price on each side, and the touch cached at the last snapshot. */
  datatype BookState = BookState(
    bids: map<real, real>, asks: map<real, real>, bestBid: Option<real>, bestAsk: Option<real>)
  {
    function Levels(side: Side): map<real, real> {
      if side.Bid? then bids else asks
    }

    function WithLevels(side: Side, levels: map<real, real>): BookState {
      if side.Bid? then this.(bids := levels) else this.(asks := levels)
    }

    function LevelSize(side: Side, price: real): real {
      if price in Levels(side) then Levels(side)[price] else 0.0
    }

    /** Takes `amount` off a level, dropping the level once nothing is left. */
    function DecrementLevel(side: Side, price: real, amount: real): BookState {
      var m := Levels(side);
      if price !in m then this
      else WithLevels(side, if m[price] - amount <= 0.0 then m - {price} else m[price := m[price] - amount])
    }

    predicate NonNegative() {
      (forall p :: p in bids ==> bids[p] >= 0.0) && (forall p :: p in asks ==> asks[p] >= 0.0)
    }
  }

  const EMPTY_BOOK := BookState(map[], map[], None, None)

  /** A price as the taker ranks it: a buyer wants low prices, a seller high ones. */
  function Rank(taker: Side, price: real): real {
    if taker.Bid? then price else -price
  }

  predicate Breaches(taker: Side, price: real, limit: real) {
    Rank(taker, price) > Rank(taker, limit)
  }

  predicate IsBest(taker: Side, prices: set<real>, p: real) {
    p in prices && forall q :: q in prices ==> Rank(taker, p) <= Rank(taker, q)
  }

  lemma BestExists(taker: Side, prices: set<real>)
    requires prices != {}
    ensures exists p :: IsBest(taker, prices, p)
    decreases prices
  {
    var p := SomeElement(prices);
    if prices != {p} {
      var rest := prices - {p};
      BestExists(taker, rest);
      var q :| IsBest(taker, rest, q);
      assert IsBest(taker, prices, if Rank(taker, p) <= Rank(taker, q) then p else q);
    } else {
      assert IsBest(taker, prices, p);
    }
  }

  /** The levels of one side in the order a taker meets them: the sorted copy of the level map. */
  function SortedLevels(taker: Side, m: map<real, real>): seq<Level>
    decreases |m|
  {
    if m == map[] then []
    else
      BestExists(taker, m.Keys);
      var p :| IsBest(taker, m.Keys, p);
      [Level(p, m[p])] + SortedLevels(taker, m - {p})
  }

  lemma SortedStep(taker: Side, m: map<real, real>) returns (p: real)
    requires m != map[]
    ensures IsBest(taker, m.Keys, p) && SortedLevels(taker, m) == [Level(p, m[p])] + SortedLevels(taker, m - {p})
  {
    hide Rank;
    BestExists(taker, m.Keys);
    p :| IsBest(taker, m.Keys, p) && SortedLevels(taker, m) == [Level(p, m[p])] + SortedLevels(taker, m - {p});
  }

  lemma {:induction false} LevelsAre(taker: Side, m: map<real, real>)
    ensures forall l :: l in SortedLevels(taker, m) <==> l.price in m && m[l.price] == l.size
    decreases |m|
  {
    if m != map[] {
      hide SortedLevels, IsBest;
      var p := SortedStep(taker, m);
      LevelsAre(taker, m - {p});
      assert p in m by { KeyOfBest(taker, m.Keys, p); }
      forall l
        ensures l in SortedLevels(taker, m) <==> l.price in m && m[l.price] == l.size
      {
        assert l in SortedLevels(taker, m) <==> l == Level(p, m[p]) || l in SortedLevels(taker, m - {p});
      }
    }
  }

  /** Each level of the map once, in strictly worsening order. */
  lemma {:induction false} LevelsSorted(taker: Side, m: map<real, real>)
    ensures var levels := SortedLevels(taker, m);
            && (forall l :: l in levels <==> l.price in m && m[l.price] == l.size)
            && Ordered(taker, levels)
    decreases |m|
  {
    LevelsAre(taker, m);
    if m != map[] {
      hide SortedLevels, Rank, IsBest, Ordered;
      var p := SortedStep(taker, m);
      LevelsSorted(taker, m - {p});
      RanksDiffer(taker, m.Keys, p);
      OrderedCons(taker, Level(p, m[p]), SortedLevels(taker, m - {p}));
    }
  }

  lemma OrderedCons(taker: Side, l: Level, levels: seq<Level>)
    requires Ordered(taker, levels) && forall r :: r in levels ==> Rank(taker, l.price) < Rank(taker, r.price)
    ensures Ordered(taker, [l] + levels)
  {
    hide Rank;
    assert forall j :: 0 <= j < |levels| ==> levels[j] in levels;
  }

  lemma KeyOfBest(taker: Side, prices: set<real>, p: real)
    requires IsBest(taker, prices, p)
    ensures p in prices
  {
  }

  lemma RanksDiffer(taker: Side, prices: set<real>, p: real)
    requires IsBest(taker, prices, p)
    ensures forall q :: q in prices && q != p ==> Rank(taker, p) < Rank(taker, q)
  {
  }

  predicate Ordered(taker: Side, levels: seq<Level>) {
    forall i, j :: 0 <= i < j < |levels| ==> Rank(taker, levels[i].price) < Rank(taker, levels[j].price)
  }

  predicate AllNonNegative(levels: seq<Level>) {
    forall l :: l in levels ==> l.size >= 0.0
  }

  /** What an immediate order consumes, level by level, from levels already in walking order. */
  function Walk(taker: Side, levels: seq<Level>, remaining: real, limit: real): seq<Level> {
    if levels == [] || remaining <= 0.0 || Breaches(taker, levels[0].price, limit) then []
    else
      var take := Min(remaining, levels[0].size);
      if take > 0.0 then [Level(levels[0].price, take)] + Walk(taker, levels[1..], remaining - take, limit)
      else Walk(taker, levels[1..], remaining, limit)
  }

  function Consumed(book: BookState, taker: Side, size: real, limit: real): seq<Level> {
    Walk(taker, SortedLevels(taker, book.Levels(taker.Opposite())), size, limit)
  }

  lemma NoLevels(taker: Side)
    ensures SortedLevels(taker, map[]) == []
  {
  }

  /** `walk_book_ioc`: the loop over the sorted levels. */
  method WalkBookIoc(book: BookState, taker: Side, size: real, limit: real) returns (consumed: seq<Level>)
    ensures consumed == Consumed(book, taker, size, limit)
  {
    hide Rank, Breaches, SortedLevels;
    NoLevels(taker);
    var side := book.Levels(taker.Opposite());
    consumed := [];
    if side == map[] || size <= 0.0 {
      return;
    }
    var levels := SortedLevels(taker, side);
    var remaining := size;
    var i := 0;
    while i < |levels|
      invariant 0 <= i <= |levels|
      invariant consumed + Walk(taker, levels[i..], remaining, limit) == Walk(taker, levels, size, limit)
    {
      assert levels[i..][0] == levels[i] && levels[i..][1..] == levels[i + 1..];
      if remaining <= 0.0 {
        break;
      }
      if Breaches(taker, levels[i].price, limit) {
        break;
      }
      var take := Min(remaining, levels[i].size);
      if take > 0.0 {
        WalkMoves(consumed, Level(levels[i].price, take), Walk(taker, levels[i + 1..], remaining - take, limit));
        consumed := consumed + [Level(levels[i].price, take)];
        remaining := remaining - take;
      }
      i := i + 1;
    }
  }

  lemma WalkMoves(done: seq<Level>, l: Level, rest: seq<Level>)
    ensures done + ([l] + rest) == (done + [l]) + rest
  {
  }

  // ---------------------------------------------------------------------------------------------
  // The walk is optimal

  function Quantity(levels: seq<Level>): real {
    if levels == [] then 0.0 else levels[0].size + Quantity(levels[1..])
  }

  /** Price-weighted quantity, in the taker's ranking: cost for a buyer, minus proceeds for a seller. */
  function RankedCost(taker: Side, levels: seq<Level>): real {
    if levels == [] then 0.0
    else Times(Rank(taker, levels[0].price), levels[0].size) + RankedCost(taker, levels[1..])
  }

  function Cost(levels: seq<Level>): real {
    if levels == [] then 0.0 else levels[0].price * levels[0].size + Cost(levels[1..])
  }

  lemma {:induction false} RankedCostIsCost(taker: Side, levels: seq<Level>)
    ensures RankedCost(taker, levels) == if taker.Bid? then Cost(levels) else -Cost(levels)
  {
    if levels != [] {
      RankedCostIsCost(taker, levels[1..]);
    }
  }

  function DepthWithin(taker: Side, levels: seq<Level>, limit: real): real {
    if levels == [] then 0.0
    else (if Breaches(taker, levels[0].price, limit) then 0.0 else levels[0].size)
         + DepthWithin(taker, levels[1..], limit)
  }

  /** A way of taking quantity from the levels: at each level, something between nothing and all. */
  predicate TakesFrom(taken: seq<Level>, levels: seq<Level>) {
    && |taken| == |levels|
    && forall i :: 0 <= i < |levels| ==>
         taken[i].price == levels[i].price && 0.0 <= taken[i].size <= levels[i].size
  }

  lemma {:induction false} DepthNonNegative(taker: Side, levels: seq<Level>, limit: real)
    requires AllNonNegative(levels)
    ensures DepthWithin(taker, levels, limit) >= 0.0
    ensures Ordered(taker, levels) && levels != [] && Breaches(taker, levels[0].price, limit)
            ==> DepthWithin(taker, levels, limit) == 0.0
  {
    if levels != [] {
      DepthNonNegative(taker, levels[1..], limit);
    }
  }

  /** The walk takes the smaller of what is wanted and what lies within the limit. */
  lemma {:induction false} WalkTakesMin(taker: Side, levels: seq<Level>, size: real, limit: real)
    requires Ordered(taker, levels) && AllNonNegative(levels) && size >= 0.0
    ensures Quantity(Walk(taker, levels, size, limit)) == Min(size, DepthWithin(taker, levels, limit))
  {
    DepthNonNegative(taker, levels, limit);
    if levels == [] || size == 0.0 || Breaches(taker, levels[0].price, limit) {
    } else {
      var take := Min(size, levels[0].size);
      DepthNonNegative(taker, levels[1..], limit);
      WalkTakesMin(taker, levels[1..], size - take, limit);
    }
  }

  lemma {:induction false} WalkWithinLimit(taker: Side, levels: seq<Level>, size: real, limit: real)
    ensures forall l :: l in Walk(taker, levels, size, limit) ==> l.size > 0.0 && !Breaches(taker, l.price, limit)
  {
    if levels != [] {
      var take := Min(size, levels[0].size);
      WalkWithinLimit(taker, levels[1..], if take > 0.0 then size - take else size, limit);
    }
  }

  lemma {:induction false} TakingCosts(taker: Side, taken: seq<Level>, low: real)
    requires AllNonNegative(taken)
    requires forall l :: l in taken ==> low <= Rank(taker, l.price)
    ensures Quantity(taken) >= 0.0 && RankedCost(taker, taken) >= Times(low, Quantity(taken))
  {
    hide Times, Rank;
    if taken != [] {
      assert taken[0] in taken;
      TakingCosts(taker, taken[1..], low);
      TimesMonotone(low, Rank(taker, taken[0].price), taken[0].size);
      TimesDistribute(low, taken[0].size, Quantity(taken[1..]));
    } else {
      ZeroProduct(low);
    }
  }

  lemma TimesMonotone(x: real, y: real, k: real)
    requires x <= y && k >= 0.0
    ensures Times(x, k) <= Times(y, k)
  {
    MulMonotone(x, y, k);
  }

  lemma TimesDistribute(k: real, x: real, y: real)
    ensures Times(k, x + y) == Times(k, x) + Times(k, y)
  {
    Distribute(k, x, y);
  }

  /** Any other way of taking what the walk takes plus `extra` costs at least the walk's cost plus
      `extra` at the lowest price there is. */
  lemma {:induction false} WalkBeats(taker: Side, levels: seq<Level>, size: real, limit: real,
                                     taken: seq<Level>, extra: real, low: real)
    requires Ordered(taker, levels) && AllNonNegative(levels) && TakesFrom(taken, levels)
    requires Quantity(taken) == Quantity(Walk(taker, levels, size, limit)) + extra && extra >= 0.0
    requires forall l :: l in levels ==> low <= Rank(taker, l.price)
    ensures RankedCost(taker, taken) >= RankedCost(taker, Walk(taker, levels, size, limit)) + Times(low, extra)
  {
    hide Walk, Rank, Breaches, Times, Ordered, AllNonNegative, TakesFrom;
    TakenRanks(taker, taken, levels, low);
    if levels == [] || size <= 0.0 || Breaches(taker, levels[0].price, limit) {
      WalkStops(taker, levels, size, limit);
      TakingCosts(taker, taken, low);
    } else {
      var take := Min(size, levels[0].size);
      var size', price := size - take, Rank(taker, levels[0].price);
      var extra' := extra + take - taken[0].size;
      TakesTail(taken, levels);
      WalkHead(taker, levels, size, limit);
      OrderedTail(taker, levels);
      TakenRanks(taker, taken[1..], levels[1..], price);
      TakingCosts(taker, taken[1..], price);
      WalkBeats(taker, levels[1..], size', limit, taken[1..], extra', price);
      HeadSwap(price, taken[0].size, take, extra, low);
    }
  }

  lemma TakenRanks(taker: Side, taken: seq<Level>, levels: seq<Level>, low: real)
    requires TakesFrom(taken, levels) && forall l :: l in levels ==> low <= Rank(taker, l.price)
    ensures |taken| == |levels| && AllNonNegative(taken) && forall l :: l in taken ==> low <= Rank(taker, l.price)
  {
    hide Rank;
    assert forall i :: 0 <= i < |levels| ==> levels[i] in levels;
  }

  lemma TakesTail(taken: seq<Level>, levels: seq<Level>)
    requires TakesFrom(taken, levels) && AllNonNegative(levels) && levels != []
    ensures |taken| == |levels| && TakesFrom(taken[1..], levels[1..]) && AllNonNegative(levels[1..])
    ensures taken[0].price == levels[0].price && 0.0 <= taken[0].size <= levels[0].size
  {
  }

  lemma ZeroProduct(x: real)
    ensures Times(x, 0.0) == 0.0
  {
  }

  lemma WalkStops(taker: Side, levels: seq<Level>, size: real, limit: real)
    requires levels == [] || size <= 0.0 || Breaches(taker, levels[0].price, limit)
    ensures Walk(taker, levels, size, limit) == []
  {
  }

  lemma OrderedTail(taker: Side, levels: seq<Level>)
    requires levels != [] && Ordered(taker, levels)
    ensures Ordered(taker, levels[1..])
    ensures forall l :: l in levels[1..] ==> Rank(taker, levels[0].price) <= Rank(taker, l.price)
  {
  }

  /** The first step of a walk, with a level of size zero read as a take of nothing. */
  lemma WalkHead(taker: Side, levels: seq<Level>, size: real, limit: real)
    requires levels != [] && size > 0.0 && !Breaches(taker, levels[0].price, limit) && levels[0].size >= 0.0
    ensures var take := Min(size, levels[0].size);
            var walk, rest := Walk(taker, levels, size, limit), Walk(taker, levels[1..], size - take, limit);
            && Quantity(walk) == take + Quantity(rest)
            && RankedCost(taker, walk) == Times(Rank(taker, levels[0].price), take) + RankedCost(taker, rest)
            && (take < levels[0].size ==> rest == [])
  {
    hide Rank, Breaches, Times;
    ZeroProduct(Rank(taker, levels[0].price));
    var take := Min(size, levels[0].size);
    var rest := Walk(taker, levels[1..], size - take, limit);
    if take > 0.0 {
      assert ([Level(levels[0].price, take)] + rest)[1..] == rest;
    }
  }

  lemma HeadSwap(price: real, mine: real, take: real, extra: real, low: real)
    requires low <= price && extra >= 0.0
    ensures Times(price, mine) + Times(price, extra + take - mine) >= Times(price, take) + Times(low, extra)
  {
    MulMonotone(low, price, extra);
    assert price * (extra + take - mine) == price * extra + price * take - price * mine;
  }

  lemma LevelsNonNegative(book: BookState, taker: Side)
    requires book.NonNegative()
    ensures AllNonNegative(SortedLevels(taker, book.Levels(taker.Opposite())))
  {
    LevelsSorted(taker, book.Levels(taker.Opposite()));
  }

  /** An immediate order takes `min(size, depth within the limit)`, never beyond the limit, and at
      the least cost (for a seller: the greatest proceeds) of any way of taking that quantity from
      the book's levels, whatever order the level map is kept in. */
  lemma WalkOptimal(book: BookState, taker: Side, size: real, limit: real, taken: seq<Level>)
    requires book.NonNegative() && size >= 0.0
    requires TakesFrom(taken, SortedLevels(taker, book.Levels(taker.Opposite())))
    requires Quantity(taken) == Quantity(Consumed(book, taker, size, limit))
    ensures var walk, levels := Consumed(book, taker, size, limit), SortedLevels(taker, book.Levels(taker.Opposite()));
            && Quantity(walk) == Min(size, DepthWithin(taker, levels, limit))
            && (forall l :: l in walk ==> !Breaches(taker, l.price, limit))
            && (if taker.Bid? then Cost(walk) <= Cost(taken) else Cost(walk) >= Cost(taken))
  {
    hide Rank, Breaches, Times, Walk, Cost, RankedCost;
    var levels := SortedLevels(taker, book.Levels(taker.Opposite()));
    LevelsNonNegative(book, taker);
    LevelsSorted(taker, book.Levels(taker.Opposite()));
    WalkTakesMin(taker, levels, size, limit);
    WalkWithinLimit(taker, levels, size, limit);
    if levels != [] {
      OrderedTail(taker, levels);
      WalkBeats(taker, levels, size, limit, taken, 0.0, Rank(taker, levels[0].price));
      ZeroProduct(Rank(taker, levels[0].price));
    } else {
      WalkStops(taker, levels, size, limit);
      assert taken == [];
    }
    RankedCostIsCost(taker, taken);
    RankedCostIsCost(taker, Consumed(book, taker, size, limit));
  }

  // ---------------------------------------------------------------------------------------------
  // What the walk leaves in the book

  function DecrementAll(book: BookState, side: Side, consumed: seq<Level>): BookState
    decreases |consumed|
  {
    if consumed == [] then book
    else DecrementAll(book.DecrementLevel(side, consumed[0].price, consumed[0].size), side, consumed[1..])
  }

  /** The touch is the one of the last snapshot, whatever is taken from the levels. */
  lemma {:induction false} TouchStays(book: BookState, side: Side, consumed: seq<Level>)
    ensures DecrementAll(book, side, consumed).bestBid == book.bestBid
    ensures DecrementAll(book, side, consumed).bestAsk == book.bestAsk
    decreases |consumed|
  {
    if consumed != [] {
      TouchStays(book.DecrementLevel(side, consumed[0].price, consumed[0].size), side, consumed[1..]);
    }
  }

  /** How much `consumed` takes at one price. */
  function TakenAt(consumed: seq<Level>, price: real): real {
    if consumed == [] then 0.0
    else (if consumed[0].price == price then consumed[0].size else 0.0) + TakenAt(consumed[1..], price)
  }

  lemma {:induction false} TakenNonNegative(consumed: seq<Level>, price: real)
    requires AllNonNegative(consumed)
    ensures TakenAt(consumed, price) >= 0.0
  {
    if consumed != [] {
      TakenNonNegative(consumed[1..], price);
    }
  }

  lemma {:induction false} DecrementedLevels(book: BookState, side: Side, consumed: seq<Level>, price: real)
    requires book.NonNegative() && AllNonNegative(consumed)
    ensures var book' := DecrementAll(book, side, consumed);
            && book'.NonNegative()
            && book'.LevelSize(side, price) == Max(0.0, book.LevelSize(side, price) - TakenAt(consumed, price))
            && book'.Levels(side.Opposite()) == book.Levels(side.Opposite())
    decreases |consumed|
  {
    if consumed != [] {
      var next := book.DecrementLevel(side, consumed[0].price, consumed[0].size);
      assert next.NonNegative();
      TakenNonNegative(consumed[1..], price);
      DecrementedLevels(next, side, consumed[1..], price);
    }
  }

  lemma {:induction false} WalkWithinLevels(taker: Side, levels: seq<Level>, size: real, limit: real, price: real)
    requires Ordered(taker, levels) && AllNonNegative(levels)
    ensures TakenAt(Walk(taker, levels, size, limit), price) <= TakenAt(levels, price)
    ensures (forall l :: l in levels ==> l.price != price) ==> TakenAt(levels, price) == 0.0
    ensures forall l :: l in levels && l.price == price ==> TakenAt(levels, price) == l.size
  {
    if levels != [] {
      TakenNonNegative(levels, price);
      var take := Min(size, levels[0].size);
      WalkWithinLevels(taker, levels[1..], if take > 0.0 then size - take else size, limit, price);
    }
  }

  /** Every level drops by exactly what the walk took from it; the other side is untouched. */
  lemma WalkLeaves(book: BookState, taker: Side, size: real, limit: real, price: real)
    requires book.NonNegative()
    ensures var side, walk := taker.Opposite(), Consumed(book, taker, size, limit);
            var book' := DecrementAll(book, side, walk);
            && book'.NonNegative()
            && book'.LevelSize(side, price) == book.LevelSize(side, price) - TakenAt(walk, price)
            && book'.Levels(taker) == book.Levels(taker)
  {
    hide Breaches, Rank, Ordered, Walk, DecrementAll, TakenAt, SortedLevels;
    var side := taker.Opposite();
    var levels := SortedLevels(taker, book.Levels(side));
    LevelsSorted(taker, book.Levels(side));
    WalkWithinLimit(taker, levels, size, limit);
    DecrementedLevels(book, side, Consumed(book, taker, size, limit), price);
    WalkWithinLevels(taker, levels, size, limit, price);
    if price in book.Levels(side) {
      assert Level(price, book.Levels(side)[price]) in levels;
    }
  }
}
