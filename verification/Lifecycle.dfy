/** What happens to a resting order between the event that submits it and the event that fills it:
    where every resting order and every fill comes from, how its queue position moves, and that no
    event can fill an order it caused. */
module Lifecycle {
  import opened Decimals
  import opened Core
  import opened Book
  import opened Venue
  import opened Matching

  // ---------------------------------------------------------------------------------------------
  // Sound states

  predicate GoodIntent(intent: QuoteIntent) {
    intent.price > 0.0 && intent.size > 0.0
  }

  predicate GoodAction(a: Action) {
    match a
    case Quote(intent) => GoodIntent(intent)
    case Requote(_, intent) => GoodIntent(intent)
    case _ => true
  }

  predicate GoodOp(p: PendingOp) {
    match p.op
    case PlaceOp(intent, _) => GoodIntent(intent)
    case ReplaceOp(_, intent) => GoodIntent(intent)
    case _ => true
  }

  predicate GoodEvent(ev: MarketEvent) {
    ev.BookUpdate? ==> AllNonNegative(ev.snapshot.bids) && AllNonNegative(ev.snapshot.asks)
  }

  predicate GoodNoise(noise: Noise) {
    noise.decay >= 0.0
  }

  predicate GoodBooks(books: map<Symbol, BookState>) {
    forall sym :: sym in books ==> books[sym].NonNegative()
  }

  predicate GoodPending(pending: seq<PendingOp>) {
    forall i :: 0 <= i < |pending| ==> GoodOp(pending[i])
  }

  /** Positive orders, queues and levels that are not negative. */
  predicate Sound(s: Sim) {
    AllHealthy(s.live) && GoodPending(s.pending) && GoodBooks(s.books)
  }

  // ---------------------------------------------------------------------------------------------
  // Provenance

  /** `q` is a later state of one of these resting orders. */
  predicate Descends(q: LiveQuote, live: seq<LiveQuote>) {
    exists i :: 0 <= i < |live| && Later(live[i], q)
  }

  /** The order an operation places, if it places one. */
  predicate PlacedBy(p: PendingOp, q: LiveQuote) {
    && q.ts == p.scheduledTs && q.submittedAt == p.submittedAt
    && match p.op
       case PlaceOp(intent, _) => q.symbol == intent.symbol && q.side == intent.side && q.price == intent.price
       case ReplaceOp(id, intent) => q.id == id && q.symbol == intent.symbol && q.side == intent.side
         && q.price == intent.price
       case _ => false
  }

  predicate PlacedByOne(ops: seq<PendingOp>, q: LiveQuote) {
    exists i :: 0 <= i < |ops| && PlacedBy(ops[i], q)
  }

  /** Every order in `live'` was there before, or was placed by one of `ops`. */
  predicate Accounted(live: seq<LiveQuote>, ops: seq<PendingOp>, live': seq<LiveQuote>) {
    forall k :: 0 <= k < |live'| ==> Descends(live'[k], live) || PlacedByOne(ops, live'[k])
  }

  lemma LaterTrans(q: LiveQuote, q1: LiveQuote, q2: LiveQuote)
    requires Later(q, q1) && Later(q1, q2)
    ensures Later(q, q2)
  {
  }

  lemma LaterRefl(q: LiveQuote)
    requires Healthy(q)
    ensures Later(q, q)
  {
  }

  /** Provenance composes: what descends from accounted orders is accounted for. */
  lemma AccountedTrans(live: seq<LiveQuote>, ops1: seq<PendingOp>, live1: seq<LiveQuote>, ops2: seq<PendingOp>,
                       live2: seq<LiveQuote>)
    requires Accounted(live, ops1, live1) && Accounted(live1, ops2, live2)
    ensures Accounted(live, ops1 + ops2, live2)
  {
    hide Later, PlacedBy;
    forall k | 0 <= k < |live2|
      ensures Descends(live2[k], live) || PlacedByOne(ops1 + ops2, live2[k])
    {
      var q := live2[k];
      if Descends(q, live1) {
        var i :| 0 <= i < |live1| && Later(live1[i], q);
        if Descends(live1[i], live) {
          var j :| 0 <= j < |live| && Later(live[j], live1[i]);
          LaterTrans(live[j], live1[i], q);
        } else {
          var j :| 0 <= j < |ops1| && PlacedBy(ops1[j], live1[i]);
          LaterPlaced(ops1[j], live1[i], q);
          assert (ops1 + ops2)[j] == ops1[j];
        }
      } else {
        var j :| 0 <= j < |ops2| && PlacedBy(ops2[j], q);
        assert (ops1 + ops2)[|ops1| + j] == ops2[j];
      }
    }
  }

  lemma LaterPlaced(p: PendingOp, q: LiveQuote, q': LiveQuote)
    requires PlacedBy(p, q) && Later(q, q')
    ensures PlacedBy(p, q')
  {
  }

  /** Orders that are still exactly what they were. */
  lemma SubsetAccounted(live: seq<LiveQuote>, ops: seq<PendingOp>, live': seq<LiveQuote>)
    requires AllHealthy(live) && forall q :: q in live' ==> q in live
    ensures Accounted(live, ops, live') && AllHealthy(live')
  {
    forall k | 0 <= k < |live'|
      ensures Descends(live'[k], live) && Healthy(live'[k])
    {
      assert live'[k] in live';
      var i :| 0 <= i < |live| && live[i] == live'[k];
      LaterRefl(live[i]);
    }
  }

  lemma PointwiseAccounted(live: seq<LiveQuote>, live': seq<LiveQuote>)
    requires |live'| == |live| && forall i :: 0 <= i < |live| ==> Later(live[i], live'[i])
    ensures Accounted(live, [], live')
  {
    hide Later;
  }

  // ---------------------------------------------------------------------------------------------
  // Decay, silent cancels, snapshots

  lemma DecayImproves(q: LiveQuote, factor: real)
    requires Healthy(q) && 0.0 <= factor <= 1.0
    ensures Later(q, Decayed(q, factor)) && Healthy(Decayed(q, factor))
  {
    MulMonotone(0.0, factor, q.queueAhead);
    MulMonotone(factor, 1.0, q.queueAhead);
  }

  lemma AttributionImproves(q: LiveQuote, before: real, after: real)
    requires Healthy(q)
    ensures Later(q, Attributed(q, before, after)) && Healthy(Attributed(q, before, after))
  {
    if before > 0.0 && after < before && after > 0.0 {
      ShrinkQuotient(q.queueAhead, after, before);
    }
  }

  lemma ShrinkQuotient(x: real, num: real, den: real)
    requires x >= 0.0 && 0.0 < num < den
    ensures 0.0 <= x * num / den <= x
  {
    MulMonotone(num, den, x);
    DivBound(x * num, den, x);
  }

  lemma DivBound(n: real, den: real, x: real)
    requires den > 0.0 && 0.0 <= n <= x * den
    ensures 0.0 <= n / den <= x
  {
  }

  lemma DecayLive(cfg: SimConfig, s: Sim, now: nat, noise: Noise)
    ensures SameButQueues(s.live, DecayQueues(cfg, s, now, noise).live)
  {
  }

  lemma SnapshotLive(s: Sim, snap: Snapshot)
    ensures SameButQueues(s.live, UpdateBook(s, snap).live)
  {
    hide LevelMap, InWindow;
  }

  lemma DecayStep(cfg: SimConfig, s: Sim, now: nat, noise: Noise)
    requires Sound(s) && GoodNoise(noise)
    ensures var s' := DecayQueues(cfg, s, now, noise);
            Accounted(s.live, [], s'.live) && Sound(s') && s' == s.(live := s'.live)
  {
    hide Healthy, Later, Decayed;
    var s' := DecayQueues(cfg, s, now, noise);
    forall i | 0 <= i < |s.live|
      ensures Later(s.live[i], s'.live[i]) && Healthy(s'.live[i])
    {
      LaterRefl(s.live[i]);
      if noise.decay < 1.0 {
        DecayImproves(s.live[i], noise.decay);
      }
    }
    PointwiseAccounted(s.live, s'.live);
  }

  lemma {:induction false} WithoutIndex<T>(xs: seq<T>, gone: set<nat>, base: nat, y: T) returns (i: nat)
    requires y in Without(xs, gone, base)
    ensures i < |xs| && xs[i] == y && base + i !in gone
  {
    if base !in gone && xs[0] == y {
      i := 0;
    } else {
      i := WithoutIndex(xs[1..], gone, base + 1, y);
      i := i + 1;
    }
  }

  lemma SilentStep(cfg: SimConfig, s: Sim, now: nat, noise: Noise)
    requires Sound(s)
    ensures var s' := SilentCancels(cfg, s, now, noise);
            Accounted(s.live, [], s'.live) && Sound(s') && s' == s.(live := s'.live, lastTs := Some(now))
  {
    var s' := SilentCancels(cfg, s, now, noise);
    forall q | q in s'.live
      ensures q in s.live
    {
      if cfg.silentCancels && Elapsed(s, now) != 0 {
        var i := WithoutIndex(s.live, noise.dropped, 0, q);
      }
    }
    SubsetAccounted(s.live, [], s'.live);
  }

  lemma {:induction false} LevelMapNonNegative(levels: seq<Level>)
    requires AllNonNegative(levels)
    ensures forall p :: p in LevelMap(levels) ==> LevelMap(levels)[p] >= 0.0
    decreases |levels|
  {
    if levels != [] {
      LevelMapNonNegative(levels[..|levels| - 1]);
    }
  }

  lemma SnapshotStep(s: Sim, snap: Snapshot)
    requires Sound(s) && AllNonNegative(snap.bids) && AllNonNegative(snap.asks)
    ensures Accounted(s.live, [], UpdateBook(s, snap).live) && Sound(UpdateBook(s, snap))
  {
    hide Healthy, Later, Attributed, InWindow, LevelMap;
    var s' := UpdateBook(s, snap);
    LevelMapNonNegative(snap.bids);
    LevelMapNonNegative(snap.asks);
    forall i | 0 <= i < |s.live|
      ensures Later(s.live[i], s'.live[i]) && Healthy(s'.live[i])
    {
      var q := s.live[i];
      LaterRefl(q);
      AttributionImproves(q, BookOf(s.books, snap.symbol).LevelSize(q.side, q.price),
                          BookFrom(snap).LevelSize(q.side, q.price));
    }
    PointwiseAccounted(s.live, s'.live);
  }

  // ---------------------------------------------------------------------------------------------
  // Trades

  lemma TradeLive(cfg: SimConfig, s: Sim, symbol: Symbol, price: real, size: real, taker: Side, ts: nat, q: LiveQuote)
    requires AllHealthy(s.live) && q in MatchTrade(cfg, s, symbol, price, size, taker, ts).0.live
    ensures Descends(q, s.live) && Healthy(q)
  {
    hide Bites, SettleBites, LiveAfter, Drained;
    var bites := TradeBites(s, symbol, price, size, taker);
    var live' := LiveAfter(s.live, bites);
    var i := WithoutIndex(live', Drained(bites), 0, q);
    OrderAfterTrade(s, symbol, price, size, taker, i);
  }

  lemma DecrementNonNegative(book: BookState, side: Side, price: real, amount: real)
    requires book.NonNegative()
    ensures book.DecrementLevel(side, price, amount).NonNegative()
  {
  }

  /** Bites change books and balances only; levels stay non-negative. */
  lemma {:induction false} SettleFrame(cfg: SimConfig, s: Sim, bites: seq<Bite>)
    requires GoodBooks(s.books)
    ensures var s' := SettleBites(cfg, s, bites);
            && GoodBooks(s'.books)
            && s' == s.(books := s'.books, units := s'.units, cash := s'.cash, assets := s'.assets)
    decreases |bites|
  {
    if bites != [] {
      hide Round, MakerFee;
      var b := bites[0];
      if b.quote.symbol in s.books {
        DecrementNonNegative(s.books[b.quote.symbol], b.quote.side, b.quote.price, b.eaten);
      }
      SettleFrame(cfg, SettleBite(cfg, s, b), bites[1..]);
    }
  }

  lemma TradeStep(cfg: SimConfig, s: Sim, symbol: Symbol, price: real, size: real, taker: Side, ts: nat)
    requires Sound(s)
    ensures var s' := MatchTrade(cfg, s, symbol, price, size, taker, ts).0;
            && Accounted(s.live, [], s'.live) && Sound(s')
            && s' == s.(live := s'.live, books := s'.books, units := s'.units, cash := s'.cash, assets := s'.assets)
  {
    hide Healthy, Later, SettleBites, TradeBites, LiveAfter;
    var s' := MatchTrade(cfg, s, symbol, price, size, taker, ts).0;
    SettleFrame(cfg, s, TradeBites(s, symbol, price, size, taker));
    forall k | 0 <= k < |s'.live|
      ensures Descends(s'.live[k], s.live) && Healthy(s'.live[k])
    {
      TradeLive(cfg, s, symbol, price, size, taker, ts, s'.live[k]);
    }
  }

  lemma ReactStep(cfg: SimConfig, s: Sim, ev: MarketEvent)
    requires Sound(s) && GoodEvent(ev)
    ensures var s' := React(cfg, s, ev).0;
            && Accounted(s.live, [], s'.live) && Sound(s') && s'.pending == s.pending && s'.lastTs == s.lastTs
            && s'.managers == s.managers
  {
    hide Healthy, Later, MatchTrade, UpdateBook;
    match ev
    case BookUpdate(snap) =>
      SnapshotStep(s, snap);
      UpdateFrame(s, snap);
    case Trade(symbol, price, size, side, ts) => TradeStep(cfg, s, symbol, price, size, side, ts);
    case _ => SubsetAccounted(s.live, [], s.live);
  }

  lemma UpdateFrame(s: Sim, snap: Snapshot)
    ensures var s' := UpdateBook(s, snap); s' == s.(live := s'.live, books := s'.books)
  {
  }

  // ---------------------------------------------------------------------------------------------
  // Due operations

  lemma RestStep(s: Sim, p: PendingOp, intent: QuoteIntent, overrideId: Option<QuoteId>)
    requires Sound(s) && GoodIntent(intent)
    requires p.op == PlaceOp(intent, overrideId) || (overrideId.Some? && p.op == ReplaceOp(overrideId.value, intent))
    ensures var s' := Rest(s, intent, p.scheduledTs, overrideId, p.submittedAt);
            Accounted(s.live, [p], s'.live) && Sound(s') && s'.pending == s.pending
  {
    var s' := Rest(s, intent, p.scheduledTs, overrideId, p.submittedAt);
    var q := s'.live[|s.live|];
    SubsetAccounted(s.live, [p], s.live);
    assert PlacedBy([p][0], q);
    assert PlacedByOne([p], q);
    assert BookOf(s.books, intent.symbol).NonNegative();
  }

  lemma TakeFrame(cfg: SimConfig, s: Sim, intent: QuoteIntent, ts: nat, submittedAt: nat)
    requires GoodBooks(s.books)
    ensures var (s', fill) := Take(cfg, s, intent, ts, submittedAt);
            && GoodBooks(s'.books)
            && s' == s.(books := s'.books, units := s'.units, cash := s'.cash, assets := s'.assets, nextId := s'.nextId)
            && (fill.Some? ==> fill.value.ts == ts && fill.value.submittedAt == submittedAt)
  {
    hide Round, Consumed, Quantity, RoundedCost, AveragePrice, Bps, DecrementAll;
    var book := BookOf(s.books, intent.symbol);
    var consumed := Consumed(book, intent.side, intent.size, intent.price);
    assert book.NonNegative();
    ConsumedNonNegative(book, intent.side, intent.size, intent.price);
    DecrementedLevels(book, intent.side.Opposite(), consumed, 0.0);
  }

  lemma ConsumedNonNegative(book: BookState, taker: Side, size: real, limit: real)
    ensures AllNonNegative(Consumed(book, taker, size, limit))
  {
    WalkWithinLimit(taker, SortedLevels(taker, book.Levels(taker.Opposite())), size, limit);
  }

  /** Placing: the resting orders gain at most the one placed; a fill carries the operation's times. */
  lemma PlaceStep(cfg: SimConfig, s: Sim, p: PendingOp, intent: QuoteIntent, overrideId: Option<QuoteId>)
    requires Sound(s) && GoodIntent(intent)
    requires p.op == PlaceOp(intent, overrideId) || (overrideId.Some? && p.op == ReplaceOp(overrideId.value, intent))
    ensures var (s', fill) := Place(cfg, s, intent, p.scheduledTs, overrideId, p.submittedAt);
            && Accounted(s.live, [p], s'.live) && Sound(s')
            && s'.pending == s.pending && s'.managers == s.managers && s'.lastTs == s.lastTs
            && (fill.Some? ==> fill.value.ts == p.scheduledTs && fill.value.submittedAt == p.submittedAt)
  {
    hide Verdict, Take, Healthy, Later;
    if Verdict(cfg, s, intent).Some? {
      SubsetAccounted(s.live, [p], s.live);
    } else if intent.tif.Immediate() {
      TakeFrame(cfg, s, intent, p.scheduledTs, p.submittedAt);
      SubsetAccounted(s.live, [p], s.live);
    } else {
      RestStep(s, p, intent, overrideId);
    }
  }

  lemma AccountedWider(live: seq<LiveQuote>, wider: seq<LiveQuote>, ops: seq<PendingOp>, live': seq<LiveQuote>)
    requires Accounted(live, ops, live') && forall q :: q in live ==> q in wider
    ensures Accounted(wider, ops, live')
  {
    hide Later, PlacedBy;
    forall k | 0 <= k < |live'|
      ensures Descends(live'[k], wider) || PlacedByOne(ops, live'[k])
    {
      if Descends(live'[k], live) {
        var i :| 0 <= i < |live| && Later(live[i], live'[k]);
        assert live[i] in wider;
        var j :| 0 <= j < |wider| && wider[j] == live[i];
      }
    }
  }

  lemma PurgeKeepsGood(pending: seq<PendingOp>, id: QuoteId)
    requires GoodPending(pending)
    ensures GoodPending(PurgePending(pending, id))
    ensures forall p :: p in PurgePending(pending, id) ==> p in pending
  {
    var kept := PurgePending(pending, id);
    forall i | 0 <= i < |kept|
      ensures GoodOp(kept[i])
    {
      assert kept[i] in kept;
    }
  }

  lemma ReplaceStep(cfg: SimConfig, s: Sim, p: PendingOp, id: QuoteId, intent: QuoteIntent)
    requires Sound(s) && GoodIntent(intent) && p.op == ReplaceOp(id, intent)
    ensures var (s', fill) := Replace(cfg, s, id, intent, p.scheduledTs, p.submittedAt);
            && Accounted(s.live, [p], s'.live) && Sound(s')
            && s'.pending == PurgePending(s.pending, id) && s'.managers == s.managers && s'.lastTs == s.lastTs
            && (fill.Some? ==> fill.value.ts == p.scheduledTs && fill.value.submittedAt == p.submittedAt)
  {
    hide Place, Healthy, Later, PurgePending, PlacedBy, GoodOp;
    var i := IndexOf(s.live, id);
    var evicted := s.(live := if i < |s.live| then RemoveAt(s.live, i) else s.live,
                      pending := PurgePending(s.pending, id));
    PurgeKeepsGood(s.pending, id);
    assert forall q :: q in evicted.live ==> q in s.live;
    SubsetAccounted(s.live, [], evicted.live);
    PlaceStep(cfg, evicted, p, intent, Some(id));
    var (s1, fill) := Place(cfg, evicted, intent, p.scheduledTs, Some(id), p.submittedAt);
    AccountedWider(evicted.live, s.live, [p], s1.live);
    if i < |s.live| {
      LaterRefl(s.live[i]);
      AccountedAppend(s.live, [p], s1.live, s.live[i]);
    }
  }

  lemma AccountedAppend(live: seq<LiveQuote>, ops: seq<PendingOp>, live': seq<LiveQuote>, q: LiveQuote)
    requires Accounted(live, ops, live') && Descends(q, live)
    ensures Accounted(live, ops, live' + [q])
  {
    hide Later, PlacedBy;
  }

  /** Every operation: the orders left are old ones or the one it placed, and a fill carries its times. */
  lemma ApplyStep(cfg: SimConfig, s: Sim, p: PendingOp)
    requires Sound(s) && GoodOp(p)
    ensures var (s', fills) := Apply(cfg, s, p);
            && Accounted(s.live, [p], s'.live) && Sound(s')
            && (forall o :: o in s'.pending ==> o in s.pending) && s'.managers == s.managers && s'.lastTs == s.lastTs
            && (forall f :: f in fills ==> f.ts == p.scheduledTs && f.submittedAt == p.submittedAt)
            && (fills != [] ==> p.op.PlaceOp? || p.op.ReplaceOp?)
  {
    hide Place, Replace, Healthy, Later, PurgePending, PlacedBy;
    match p.op
    case PlaceOp(intent, overrideId) => PlaceStep(cfg, s, p, intent, overrideId);
    case ReplaceOp(id, intent) =>
      ReplaceStep(cfg, s, p, id, intent);
      PurgeKeepsGood(s.pending, id);
    case CancelOp(id) =>
      PurgeKeepsGood(s.pending, id);
      SubsetAccounted(s.live, [p], CancelId(s, id).live);
    case CancelAllOp => SubsetAccounted(s.live, [p], Apply(cfg, s, p).0.live);
  }

  /** A fill that carries the times of one of these operations. */
  predicate TimedByOne(ops: seq<PendingOp>, f: Fill) {
    exists i :: 0 <= i < |ops| && (ops[i].op.PlaceOp? || ops[i].op.ReplaceOp?)
                && f.ts == ops[i].scheduledTs && f.submittedAt == ops[i].submittedAt
  }

  lemma {:induction false} ApplyAllStep(cfg: SimConfig, s: Sim, ready: seq<PendingOp>)
    requires Sound(s) && GoodPending(ready)
    ensures var (s', fills) := ApplyAll(cfg, s, ready);
            && Accounted(s.live, ready, s'.live) && Sound(s')
            && (forall o :: o in s'.pending ==> o in s.pending) && s'.managers == s.managers && s'.lastTs == s.lastTs
            && (forall f :: f in fills ==> TimedByOne(ready, f))
    decreases |ready|
  {
    hide Apply, Healthy, Later, PlacedBy, GoodOp, GoodBooks;
    if ready == [] {
      SubsetAccounted(s.live, [], s.live);
    } else {
      var (s1, f1) := Apply(cfg, s, ready[0]);
      ApplyStep(cfg, s, ready[0]);
      ApplyAllStep(cfg, s1, ready[1..]);
      var (s2, f2) := ApplyAll(cfg, s1, ready[1..]);
      AccountedTrans(s.live, [ready[0]], s1.live, ready[1..], s2.live);
      assert [ready[0]] + ready[1..] == ready;
      forall f | f in f1 + f2
        ensures TimedByOne(ready, f)
      {
        if f in f2 {
          var i :| 0 <= i < |ready[1..]| && (ready[1..][i].op.PlaceOp? || ready[1..][i].op.ReplaceOp?)
                   && f.ts == ready[1..][i].scheduledTs && f.submittedAt == ready[1..][i].submittedAt;
          assert ready[i + 1] == ready[1..][i];
        }
      }
    }
  }

  /** The operations due by `now`. */
  function Due(s: Sim, now: nat): seq<PendingOp> {
    s.pending[..DueCount(s.pending, now)]
  }

  lemma ApplyPendingStep(cfg: SimConfig, s: Sim, now: nat)
    requires Sound(s)
    ensures var (s', fills) := ApplyPending(cfg, s, now);
            && Accounted(s.live, Due(s, now), s'.live) && Sound(s')
            && (forall o :: o in s'.pending ==> o in s.pending) && s'.managers == s.managers && s'.lastTs == s.lastTs
            && (forall f :: f in fills ==> TimedByOne(Due(s, now), f))
  {
    hide ApplyAll, Healthy, Later, PlacedBy, GoodOp, GoodBooks, TimedByOne;
    var k := DueCount(s.pending, now);
    ApplyAllStep(cfg, s.(pending := s.pending[k..]), s.pending[..k]);
  }

  lemma {:induction false} MakerTimes(cfg: SimConfig, bites: seq<Bite>, ts: nat, f: Fill)
    requires f in MakerFills(cfg, bites, ts)
    ensures f.ts == ts && exists k :: 0 <= k < |bites| && bites[k].quote.submittedAt == f.submittedAt
  {
    hide MakerFee;
    if bites[0].reached && f == MakerFill(cfg, bites[0], ts) {
    } else {
      MakerTimes(cfg, bites[1..], ts, f);
      var k :| 0 <= k < |bites[1..]| && bites[1..][k].quote.submittedAt == f.submittedAt;
      assert bites[k + 1].quote.submittedAt == f.submittedAt;
    }
  }

  /** A maker fill comes from a resting order and carries the time of the trade. */
  lemma TradeTimes(cfg: SimConfig, s: Sim, symbol: Symbol, price: real, size: real, taker: Side, ts: nat, f: Fill)
    requires AllHealthy(s.live) && f in MatchTrade(cfg, s, symbol, price, size, taker, ts).1
    ensures f.ts == ts && exists i :: 0 <= i < |s.live| && s.live[i].submittedAt == f.submittedAt
  {
    hide Bites, SettleBites, LiveAfter, Drained, Priority, MakerFills;
    var bites := TradeBites(s, symbol, price, size, taker);
    MakerTimes(cfg, bites, ts, f);
    var k :| 0 <= k < |bites| && bites[k].quote.submittedAt == f.submittedAt;
    var order := TradeOutcome(s, symbol, price, size, taker);
    assert Later(s.live[order[k]], bites[k].quote);
  }

  // ---------------------------------------------------------------------------------------------
  // One market event

  /** The orders resting after an event descend from orders resting before it -- never larger, never
      further back in the queue -- or were placed by an operation due at the event. */
  lemma EventStep(cfg: SimConfig, s: Sim, ev: MarketEvent, now: nat, noise: Noise)
    requires Sound(s) && GoodEvent(ev) && GoodNoise(noise)
    ensures var (s', fills) := OnMarketEvent(cfg, s, ev, now, noise);
            && Accounted(s.live, Due(s, now), s'.live) && Sound(s')
            && (forall o :: o in s'.pending ==> o in s.pending) && s'.lastTs == Some(now)
  {
    hide DecayQueues, SilentCancels, ApplyPending, React, Accounted, Sound, DueCount;
    var s0 := DecayQueues(cfg, s, now, noise);
    DecayStep(cfg, s, now, noise);
    var s1 := SilentCancels(cfg, s0, now, noise);
    SilentStep(cfg, s0, now, noise);
    ApplyPendingStep(cfg, s1, now);
    var s2 := ApplyPending(cfg, s1, now).0;
    ReactStep(cfg, s2, ev);
    var s3 := React(cfg, s2, ev).0;
    assert Due(s1, now) == Due(s, now);
    AccountedTrans(s.live, [], s0.live, [], s1.live);
    AccountedTrans(s.live, [] + [], s1.live, Due(s, now), s2.live);
    AccountedTrans(s.live, ([] + []) + Due(s, now), s2.live, [], s3.live);
    assert (([] + []) + Due(s, now)) + [] == Due(s, now);
  }

  // ---------------------------------------------------------------------------------------------
  // No look-ahead

  predicate TimelyOp(p: PendingOp) {
    p.op.PlaceOp? || p.op.ReplaceOp? ==> p.submittedAt < p.scheduledTs
  }

  predicate TimelyOps(pending: seq<PendingOp>) {
    forall i :: 0 <= i < |pending| ==> TimelyOp(pending[i])
  }

  /** Every order became live strictly after the event that submitted it, and no later than `now`. */
  predicate TimelyLive(live: seq<LiveQuote>, now: nat) {
    forall i :: 0 <= i < |live| ==> live[i].submittedAt < live[i].ts <= now
  }

  lemma DueTimely(s: Sim, now: nat)
    requires TimelyOps(s.pending)
    ensures TimelyOps(Due(s, now)) && forall i :: 0 <= i < |Due(s, now)| ==> Due(s, now)[i].scheduledTs <= now
  {
  }

  lemma AccountedTimely(live: seq<LiveQuote>, ops: seq<PendingOp>, live': seq<LiveQuote>, last: nat, now: nat)
    requires Accounted(live, ops, live') && TimelyLive(live, last) && TimelyOps(ops) && last <= now
    requires forall i :: 0 <= i < |ops| ==> ops[i].scheduledTs <= now
    ensures TimelyLive(live', now)
  {
    forall k | 0 <= k < |live'|
      ensures live'[k].submittedAt < live'[k].ts <= now
    {
      if Descends(live'[k], live) {
        var i :| 0 <= i < |live| && Later(live[i], live'[k]);
      } else {
        var i :| 0 <= i < |ops| && PlacedBy(ops[i], live'[k]);
      }
    }
  }

  lemma SubsetTimely(pending: seq<PendingOp>, pending': seq<PendingOp>)
    requires TimelyOps(pending) && forall o :: o in pending' ==> o in pending
    ensures TimelyOps(pending')
  {
    forall i | 0 <= i < |pending'|
      ensures TimelyOp(pending'[i])
    {
      assert pending'[i] in pending;
    }
  }

  /** Every fill of an event carries a time after the event on which its order was submitted, for any
      latency, jitter and noise, as long as events do not go back in time. */
  lemma FillsAreLater(cfg: SimConfig, s: Sim, ev: MarketEvent, noise: Noise, last: nat)
    requires Sound(s) && GoodEvent(ev) && GoodNoise(noise)
    requires TimelyOps(s.pending) && TimelyLive(s.live, last) && last <= EventTs(ev)
    ensures var (s', fills) := OnMarketEvent(cfg, s, ev, EventTs(ev), noise);
            && TimelyOps(s'.pending) && TimelyLive(s'.live, EventTs(ev))
            && forall f :: f in fills ==> f.submittedAt < f.ts <= EventTs(ev)
  {
    hide DecayQueues, SilentCancels, ApplyPending, MatchTrade, UpdateBook, Accounted, Sound, DueCount, TimelyLive,
      TimelyOps;
    var now := EventTs(ev);
    var s0 := DecayQueues(cfg, s, now, noise);
    DecayStep(cfg, s, now, noise);
    AccountedTimely(s.live, [], s0.live, last, now) by { NoOpsTimely(); }
    var s1 := SilentCancels(cfg, s0, now, noise);
    SilentStep(cfg, s0, now, noise);
    AccountedTimely(s0.live, [], s1.live, now, now) by { NoOpsTimely(); }
    ApplyPendingStep(cfg, s1, now);
    DueTimely(s1, now);
    var (s2, f2) := ApplyPending(cfg, s1, now);
    AccountedTimely(s1.live, Due(s1, now), s2.live, now, now);
    ReactStep(cfg, s2, ev);
    var (s3, f3) := React(cfg, s2, ev);
    AccountedTimely(s2.live, [], s3.live, now, now) by { NoOpsTimely(); }
    SubsetTimely(s.pending, s3.pending);
    forall f | f in f2 + f3
      ensures f.submittedAt < f.ts <= now
    {
      if f in f2 {
        DueFillTimely(Due(s1, now), now, f);
      } else {
        SoundHealthy(s2);
        TradeTimes(cfg, s2, ev.symbol, ev.price, ev.size, ev.side, ev.ts, f);
        RestingFillTimely(s2.live, now, f);
      }
    }
  }

  lemma NoOpsTimely()
    ensures TimelyOps([])
  {
  }

  lemma SoundHealthy(s: Sim)
    requires Sound(s)
    ensures AllHealthy(s.live)
  {
  }

  lemma DueFillTimely(ops: seq<PendingOp>, now: nat, f: Fill)
    requires TimelyOps(ops) && TimedByOne(ops, f) && forall i :: 0 <= i < |ops| ==> ops[i].scheduledTs <= now
    ensures f.submittedAt < f.ts <= now
  {
  }

  lemma RestingFillTimely(live: seq<LiveQuote>, now: nat, f: Fill)
    requires TimelyLive(live, now) && f.ts == now
    requires exists i :: 0 <= i < |live| && live[i].submittedAt == f.submittedAt
    ensures f.submittedAt < f.ts <= now
  {
  }

  /** A quote or requote is scheduled strictly after the event that submits it, for any latency
      configuration including zero, unless the clock is at the end of its range. */
  lemma SubmitIsLater(cfg: SimConfig, a: Action, now: nat, jitterMs: nat)
    requires now <= U64_MAX && (a.Quote? || a.Requote?)
    ensures var p := ScheduledOp(cfg, a, now, jitterMs);
            p.Some? && p.value.submittedAt == now && (p.value.scheduledTs > now <==> now < U64_MAX)
  {
  }

  // ---------------------------------------------------------------------------------------------
  // The pending queue

  /** The queued operations scheduled for time `t`, in queue order. */
  function AtTime(pending: seq<PendingOp>, t: nat): seq<PendingOp> {
    if pending == [] then []
    else AtTime(pending[..|pending| - 1], t)
         + if pending[|pending| - 1].scheduledTs == t then [pending[|pending| - 1]] else []
  }

  lemma AtTimeAppend(pending: seq<PendingOp>, p: PendingOp, t: nat)
    ensures AtTime(pending + [p], t) == AtTime(pending, t) + if p.scheduledTs == t then [p] else []
  {
    assert (pending + [p])[..|pending|] == pending;
  }

  lemma {:induction false} InsertMembers(pending: seq<PendingOp>, p: PendingOp)
    ensures forall o :: o in InsertBySchedule(pending, p) <==> o in pending || o == p
    decreases |pending|
  {
    if pending != [] && pending[|pending| - 1].scheduledTs > p.scheduledTs {
      var init := pending[..|pending| - 1];
      assert pending == init + [pending[|pending| - 1]];
      InsertMembers(init, p);
    }
  }

  lemma AppendSorted(pending: seq<PendingOp>, p: PendingOp)
    requires Scheduled(pending) && forall o :: o in pending ==> o.scheduledTs <= p.scheduledTs
    ensures Scheduled(pending + [p])
  {
  }

  lemma InitSorted(pending: seq<PendingOp>)
    requires Scheduled(pending) && pending != []
    ensures Scheduled(pending[..|pending| - 1])
    ensures forall o :: o in pending ==> o.scheduledTs <= pending[|pending| - 1].scheduledTs
    ensures pending == pending[..|pending| - 1] + [pending[|pending| - 1]]
  {
  }

  lemma {:induction false} InsertSorted(pending: seq<PendingOp>, p: PendingOp)
    requires Scheduled(pending)
    ensures Scheduled(InsertBySchedule(pending, p))
    decreases |pending|
  {
    if pending == [] {
      AppendSorted(pending, p);
    } else {
      hide Scheduled;
      var init, last := pending[..|pending| - 1], pending[|pending| - 1];
      InitSorted(pending);
      if last.scheduledTs <= p.scheduledTs {
        AppendSorted(pending, p);
      } else {
        InsertSorted(init, p);
        InsertMembers(init, p);
        assert forall o :: o in init ==> o in pending;
        AppendSorted(InsertBySchedule(init, p), last);
      }
    }
  }

  lemma {:induction false} InsertFifo(pending: seq<PendingOp>, p: PendingOp, t: nat)
    ensures AtTime(InsertBySchedule(pending, p), t) == AtTime(pending, t) + if p.scheduledTs == t then [p] else []
    decreases |pending|
  {
    hide AtTime;
    if pending == [] || pending[|pending| - 1].scheduledTs <= p.scheduledTs {
      AtTimeAppend(pending, p, t);
    } else {
      var init, last := pending[..|pending| - 1], pending[|pending| - 1];
      assert pending == init + [last];
      InsertFifo(init, p, t);
      AtTimeAppend(init, last, t);
      AtTimeAppend(InsertBySchedule(init, p), last, t);
    }
  }

  lemma {:induction false} SortedFixed(pending: seq<PendingOp>)
    requires Scheduled(pending)
    ensures SortBySchedule(pending) == pending
    decreases |pending|
  {
    if pending != [] {
      hide Scheduled;
      var init, last := pending[..|pending| - 1], pending[|pending| - 1];
      InitSorted(pending);
      SortedFixed(init);
      assert init != [] ==> init[|init| - 1] in pending;
    }
  }

  /** Submitting keeps the queue sorted by schedule and, within each scheduled time, in submission
      order: the new operation goes to the back of its own time and nothing else moves. */
  lemma SubmitIsFifo(cfg: SimConfig, s: Sim, a: Action, now: nat, jitterMs: nat, t: nat)
    requires Scheduled(s.pending)
    ensures var s', p := Submit(cfg, s, a, now, jitterMs), ScheduledOp(cfg, a, now, jitterMs);
            && Scheduled(s'.pending)
            && (forall o :: o in s'.pending <==> o in s.pending || p == Some(o))
            && AtTime(s'.pending, t)
               == AtTime(s.pending, t) + (if p.Some? && p.value.scheduledTs == t then [p.value] else [])
  {
    hide ScheduledOp, AtTime, Scheduled;
    var p := ScheduledOp(cfg, a, now, jitterMs);
    if p.Some? {
      SortedFixed(s.pending);
      assert (s.pending + [p.value])[..|s.pending|] == s.pending;
      InsertFifo(s.pending, p.value, t);
      InsertSorted(s.pending, p.value);
      InsertMembers(s.pending, p.value);
    }
  }

  /** A placement that carries the venue's id queues like any other: behind everything of its own time,
      and strictly later than now unless the clock is at the end of its range. */
  lemma EnqueueIsFifo(cfg: SimConfig, s: Sim, intent: QuoteIntent, now: nat, venueId: QuoteId, jitterMs: nat, t: nat)
    requires Scheduled(s.pending) && now <= U64_MAX
    ensures var s' := Enqueue(cfg, s, intent, now, venueId, jitterMs);
            var p := EnqueuedOp(cfg, intent, now, venueId, jitterMs);
            && p.op == PlaceOp(intent, Some(venueId)) && (p.scheduledTs > now <==> now < U64_MAX)
            && Scheduled(s'.pending)
            && (forall o :: o in s'.pending <==> o in s.pending || o == p)
            && AtTime(s'.pending, t) == AtTime(s.pending, t) + (if p.scheduledTs == t then [p] else [])
  {
    hide AtTime, Scheduled, LatencyNs;
    var p := EnqueuedOp(cfg, intent, now, venueId, jitterMs);
    SortedFixed(s.pending);
    assert (s.pending + [p])[..|s.pending|] == s.pending;
    InsertFifo(s.pending, p, t);
    InsertSorted(s.pending, p);
    InsertMembers(s.pending, p);
  }

  /** On a sorted queue the operations applied are exactly those due. */
  lemma DueExactly(s: Sim, now: nat, i: nat)
    requires Scheduled(s.pending) && i < |s.pending|
    ensures i < |Due(s, now)| <==> s.pending[i].scheduledTs <= now
  {
  }
}
