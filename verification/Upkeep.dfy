/** What scheduling, time and snapshots do, exactly: when an action takes effect, how a queue decays, which
    orders are silently cancelled, and what a snapshot makes of the book and of the queues. */
module Upkeep {
  import opened Core
  import opened Book
  import opened Venue

  // ---------------------------------------------------------------------------------------------
  // Scheduling

  /** A 64-bit time, held at the last one. */
  function Held(t: nat): nat {
    if t < U64_MAX then t else U64_MAX
  }

  /** Base latency and jitter, in nanoseconds without limit. */
  function Delay(cfg: SimConfig, baseMs: nat, jitterMs: nat): nat {
    (baseMs + if cfg.jitters then jitterMs else 0) * 1000000
  }

  /** The limits inside the latency arithmetic come to one at the end: a quote or requote takes effect after
      the submit latency and at least a nanosecond, a cancel of one or of all after the cancel latency, each
      as what it asks for, and anything else not at all. */
  lemma ScheduledExactly(cfg: SimConfig, a: Action, now: nat, jitterMs: nat)
    ensures var submit, cancel := Delay(cfg, cfg.submitLatencyMs, jitterMs), Delay(cfg, cfg.cancelLatencyMs, jitterMs);
            var at, cancelAt := Held(now + if submit == 0 then 1 else submit), Held(now + cancel);
            && (a.Quote? ==> ScheduledOp(cfg, a, now, jitterMs) == Some(PendingOp(at, PlaceOp(a.intent, None), now)))
            && (a.Requote? ==>
                  ScheduledOp(cfg, a, now, jitterMs) == Some(PendingOp(at, ReplaceOp(a.id, a.newIntent), now)))
            && (a.Cancel? ==>
                  ScheduledOp(cfg, a, now, jitterMs) == Some(PendingOp(cancelAt, CancelOp(a.cancelId), now)))
            && (a.CancelAll? ==> ScheduledOp(cfg, a, now, jitterMs) == Some(PendingOp(cancelAt, CancelAllOp, now)))
            && (a.NoOp? ==> ScheduledOp(cfg, a, now, jitterMs) == None)
  {
    LatencyHeld(cfg, cfg.submitLatencyMs, jitterMs);
    LatencyHeld(cfg, cfg.cancelLatencyMs, jitterMs);
  }

  lemma LatencyHeld(cfg: SimConfig, baseMs: nat, jitterMs: nat)
    ensures LatencyNs(cfg, baseMs, jitterMs) == Held(Delay(cfg, baseMs, jitterMs))
  {
  }

  /** A placement that carries the venue's id is scheduled like a quote. */
  lemma EnqueuedExactly(cfg: SimConfig, intent: QuoteIntent, now: nat, venueId: QuoteId, jitterMs: nat)
    ensures var submit := Delay(cfg, cfg.submitLatencyMs, jitterMs);
            EnqueuedOp(cfg, intent, now, venueId, jitterMs)
            == PendingOp(Held(now + if submit == 0 then 1 else submit), PlaceOp(intent, Some(venueId)), now)
  {
    LatencyHeld(cfg, cfg.submitLatencyMs, jitterMs);
  }

  // ---------------------------------------------------------------------------------------------
  // Time

  /** Time has passed since an earlier event. */
  predicate TimePassed(s: Sim, now: nat) {
    s.lastTs.Some? && s.lastTs.value < now
  }

  /** Every queue shrinks by the factor exactly if decay is on, time has passed since the last event and the
      factor is below one; nothing else changes. */
  lemma DecayExactly(cfg: SimConfig, s: Sim, now: nat, noise: Noise)
    ensures var s' := DecayQueues(cfg, s, now, noise);
            var decays := cfg.queueDecays && TimePassed(s, now) && noise.decay < 1.0;
            && s' == s.(live := s'.live) && |s'.live| == |s.live|
            && forall i :: 0 <= i < |s.live| ==>
                 s'.live[i] == if decays && s.live[i].queueAhead > 0.0
                               then s.live[i].(queueAhead := s.live[i].queueAhead * noise.decay) else s.live[i]
  {
  }

  /** The orders below index `n` whose indices are not dropped, in order. */
  function KeptOrders(live: seq<LiveQuote>, n: nat, gone: set<nat>): seq<LiveQuote>
    requires n <= |live|
  {
    if n == 0 then [] else KeptOrders(live, n - 1, gone) + if n - 1 in gone then [] else [live[n - 1]]
  }

  lemma {:induction false} WithoutSnoc(xs: seq<LiveQuote>, x: LiveQuote, gone: set<nat>, base: nat)
    ensures Without(xs + [x], gone, base) == Without(xs, gone, base) + if base + |xs| in gone then [] else [x]
  {
    if xs == [] {
      assert (xs + [x])[1..] == [];
    } else {
      assert (xs + [x])[1..] == xs[1..] + [x];
      WithoutSnoc(xs[1..], x, gone, base + 1);
      var head := if base in gone then [] else [xs[0]];
      var last := if base + |xs| in gone then [] else [x];
      assert head + (Without(xs[1..], gone, base + 1) + last) == (head + Without(xs[1..], gone, base + 1)) + last;
    }
  }

  lemma {:induction false} WithoutIsKept(live: seq<LiveQuote>, n: nat, gone: set<nat>)
    requires n <= |live|
    ensures Without(live[..n], gone) == KeptOrders(live, n, gone)
  {
    if n > 0 {
      WithoutIsKept(live, n - 1, gone);
      assert live[..n] == live[..n - 1] + [live[n - 1]];
      WithoutSnoc(live[..n - 1], live[n - 1], gone, 0);
    }
  }

  /** If silent cancels are on and time has passed since the last event, exactly the orders at the indices
      chance picked are gone, and the others keep their order; in any case the event's time is recorded. */
  lemma SilentExactly(cfg: SimConfig, s: Sim, now: nat, noise: Noise)
    ensures SilentCancels(cfg, s, now, noise)
            == s.(lastTs := Some(now),
                  live := if cfg.silentCancels && TimePassed(s, now) then KeptOrders(s.live, |s.live|, noise.dropped)
                          else s.live)
  {
    WithoutIsKept(s.live, |s.live|, noise.dropped);
    assert s.live[..|s.live|] == s.live;
  }

  /** An event without price, on an empty queue: the queues decay for the time since the last event, chance
      takes its orders, and that time is recorded. */
  lemma QuietEvent(cfg: SimConfig, s: Sim, ev: MarketEvent, now: nat, noise: Noise)
    requires s.pending == [] && (ev.Heartbeat? || ev.FillEvent?)
    ensures var decayed := DecayQueues(cfg, s, now, noise).live;
            OnMarketEvent(cfg, s, ev, now, noise)
            == (s.(lastTs := Some(now),
                   live := if cfg.silentCancels && TimePassed(s, now) then KeptOrders(decayed, |decayed|, noise.dropped)
                           else decayed), [])
  {
    hide DecayQueues, SilentCancels, KeptOrders;
    var s0 := DecayQueues(cfg, s, now, noise);
    DecayExactly(cfg, s, now, noise);
    SilentExactly(cfg, s0, now, noise);
    var s1 := SilentCancels(cfg, s0, now, noise);
    assert s1.pending[..0] == [] && s1.pending[0..] == [];
    var none: seq<Fill> := [];
    assert ApplyPending(cfg, s1, now) == (s1, none) && none + none == none;
  }

  // ---------------------------------------------------------------------------------------------
  // Snapshots

  predicate PricesDiffer(levels: seq<Level>) {
    forall i, j :: 0 <= i < j < |levels| ==> levels[i].price != levels[j].price
  }

  lemma {:induction false} LevelMapIs(levels: seq<Level>)
    requires PricesDiffer(levels)
    ensures var m := LevelMap(levels);
            && (forall i :: 0 <= i < |levels| ==> levels[i].price in m && m[levels[i].price] == levels[i].size)
            && forall p :: p in m ==> exists i :: 0 <= i < |levels| && levels[i].price == p
    decreases |levels|
  {
    if levels != [] {
      LevelMapIs(levels[..|levels| - 1]);
    }
  }

  /** After a snapshot that lists each price once, the book of its symbol shows just the levels listed, each
      on its side at its size, and as touch the first of each side; other symbols' books are the same. */
  lemma BookShowsSnapshot(s: Sim, snap: Snapshot)
    requires PricesDiffer(snap.bids) && PricesDiffer(snap.asks)
    ensures var s' := UpdateBook(s, snap);
            && s' == s.(live := s'.live, books := s'.books) && snap.symbol in s'.books
            && s'.books == s.books[snap.symbol := s'.books[snap.symbol]]
            && (var book := s'.books[snap.symbol];
                && (forall i :: 0 <= i < |snap.bids| ==>
                      snap.bids[i].price in book.bids && book.bids[snap.bids[i].price] == snap.bids[i].size)
                && (forall i :: 0 <= i < |snap.asks| ==>
                      snap.asks[i].price in book.asks && book.asks[snap.asks[i].price] == snap.asks[i].size)
                && (forall p :: p in book.bids ==> exists i :: 0 <= i < |snap.bids| && snap.bids[i].price == p)
                && (forall p :: p in book.asks ==> exists i :: 0 <= i < |snap.asks| && snap.asks[i].price == p)
                && (snap.bids == [] ==> book.bestBid == None)
                && (snap.bids != [] ==> book.bestBid == Some(snap.bids[0].price))
                && (snap.asks == [] ==> book.bestAsk == None)
                && (snap.asks != [] ==> book.bestAsk == Some(snap.asks[0].price)))
  {
    hide ReattributeAll, LevelMap;
    LevelMapIs(snap.bids);
    LevelMapIs(snap.asks);
  }

  /** The size a book shows at a price. */
  function SizeAt(books: map<Symbol, BookState>, symbol: Symbol, side: Side, price: real): real {
    if symbol !in books then 0.0
    else if side == Bid then (if price in books[symbol].bids then books[symbol].bids[price] else 0.0)
    else (if price in books[symbol].asks then books[symbol].asks[price] else 0.0)
  }

  /** At or better than the last level the snapshot lists on the order's side. */
  predicate WithinDepth(snap: Snapshot, q: LiveQuote) {
    || (q.side == Bid && snap.bids != [] && q.price >= snap.bids[|snap.bids| - 1].price)
    || (q.side == Ask && snap.asks != [] && q.price <= snap.asks[|snap.asks| - 1].price)
  }

  /** A snapshot moves an order up exactly if it is of the order's symbol, reaches the order's price, and
      shows a level there that shrank without vanishing: the queue shrinks in the same proportion.  All else
      about the order, and every other order, is the same. */
  lemma SnapshotMovesUp(s: Sim, snap: Snapshot, i: nat)
    requires i < |s.live|
    ensures var q, s' := s.live[i], UpdateBook(s, snap);
            var before := SizeAt(s.books, q.symbol, q.side, q.price);
            var after := SizeAt(s'.books, q.symbol, q.side, q.price);
            && |s'.live| == |s.live|
            && s'.live[i] == if q.symbol == snap.symbol && WithinDepth(snap, q) && 0.0 < after < before
                             then q.(queueAhead := q.queueAhead * after / before) else q
  {
    hide LevelMap;
  }
}
