/** Runs on which a promise of the engine fails, each from an empty venue or one seeded with cash. */
module Counterexamples {
  import opened Decimals
  import opened Core
  import opened Book
  import opened Venue
  import opened Matching
  import opened Lifecycle
  import opened Balances
  import opened Solvency
  import opened Runs
  import opened Cover
  import opened Cancels
  import opened Fees
  import opened QueuePosition
  import opened OpenQuotes
  import opened Reconciliation

  const CALM := Noise(1.0, {})

  /** An exact spot venue with these fees in basis points and these latencies in milliseconds. */
  function Spot(makerBps: int, takerBps: nat, submitMs: nat, cancelMs: nat): SimConfig {
    SimConfig(Exact, submitMs, cancelMs, false, makerBps, takerBps, None, 0.0, 0.0, false, None, false, true)
  }

  /** Buy 1 at 100. */
  function Buy(symbol: Symbol, tif: TimeInForce): QuoteIntent {
    QuoteIntent(symbol, Bid, 100.0, 1.0, tif, Point)
  }

  function Bought(symbol: Symbol, tif: TimeInForce): Order {
    Order(Quote(Buy(symbol, tif)), 0)
  }

  /** A resting bid of 1 at 100. */
  function RestingBuy(symbol: Symbol, id: QuoteId, ahead: real, ts: nat, submittedAt: nat): LiveQuote {
    LiveQuote(id, symbol, Bid, 100.0, 1.0, ahead, ts, submittedAt)
  }

  // ---------------------------------------------------------------------------------------------
  // Running a few turns

  lemma RunSnoc(cfg: SimConfig, s: Sim, turns: seq<Turn>, t: Turn)
    ensures RunSim(cfg, s, turns + [t])
            == var (s1, f1) := RunSim(cfg, s, turns); var (s2, f2) := Step(cfg, s1, t); (s2, f1 + f2)
  {
    hide Step;
    assert (turns + [t])[..|turns|] == turns;
  }

  lemma RunNone(cfg: SimConfig, s: Sim)
    ensures RunSim(cfg, s, []) == (s, [])
  {
  }

  /** On a calm venue an event applies what is due and reacts. */
  lemma CalmTurn(cfg: SimConfig, s: Sim, t: Turn)
    requires !cfg.silentCancels && !cfg.queueDecays
    ensures var now := EventTs(t.event);
            var (s2, f2) := ApplyPending(cfg, SubmitAll(cfg, s, t.orders, now).(lastTs := Some(now)), now);
            var (s3, f3) := React(cfg, s2, t.event);
            Step(cfg, s, t) == (s3, f2 + f3)
  {
    hide ApplyPending, React, SubmitAll;
  }

  lemma NoneDue(cfg: SimConfig, s: Sim, now: nat)
    requires s.pending != [] ==> s.pending[0].scheduledTs > now
    ensures ApplyPending(cfg, s, now) == (s, [])
  {
    assert s.pending[0..] == s.pending && s.pending[..0] == [];
  }

  lemma OneDue(cfg: SimConfig, s: Sim, p: PendingOp, rest: seq<PendingOp>, now: nat)
    requires s.pending == [p] + rest && p.scheduledTs <= now && (rest != [] ==> rest[0].scheduledTs > now)
    ensures ApplyPending(cfg, s, now) == Apply(cfg, s.(pending := rest), p)
  {
    hide Apply;
    assert s.pending[1..] == rest && s.pending[..1] == [p];
    assert DueCount(s.pending, now) == 1;
    var (s1, f1) := Apply(cfg, s.(pending := rest), p);
    assert [p][1..] == [] && f1 + [] == f1;
    assert ApplyAll(cfg, s1, []) == (s1, []);
  }

  lemma BothDue(cfg: SimConfig, s: Sim, p: PendingOp, q: PendingOp, now: nat)
    requires s.pending == [p, q] && p.scheduledTs <= now && q.scheduledTs <= now
    ensures var (s1, f1) := Apply(cfg, s.(pending := []), p);
            var (s2, f2) := Apply(cfg, s1, q);
            ApplyPending(cfg, s, now) == (s2, f1 + f2)
  {
    hide Apply;
    assert s.pending[2..] == [] && s.pending[..2] == [p, q] && s.pending[1..] == [q] && [q][1..] == [];
    assert DueCount([q], now) == 1 && DueCount(s.pending, now) == 2;
    var (s1, f1) := Apply(cfg, s.(pending := []), p);
    var (s2, f2) := Apply(cfg, s1, q);
    assert ApplyAll(cfg, s2, []) == (s2, []) && f2 + [] == f2;
    assert ApplyAll(cfg, s1, [q]) == (s2, f2);
  }

  lemma SubmitNone(cfg: SimConfig, s: Sim, now: nat)
    ensures SubmitAll(cfg, s, [], now) == s
  {
  }

  lemma SubmitMore(cfg: SimConfig, s: Sim, orders: seq<Order>, o: Order, now: nat, p: PendingOp)
    requires ScheduledOp(cfg, o.action, now, o.jitterMs) == Some(p)
    requires Scheduled(SubmitAll(cfg, s, orders, now).pending + [p])
    ensures var s1 := SubmitAll(cfg, s, orders, now);
            SubmitAll(cfg, s, orders + [o], now) == s1.(pending := s1.pending + [p])
  {
    hide ScheduledOp, Scheduled, SortBySchedule;
    assert (orders + [o])[..|orders|] == orders;
    SortedFixed(SubmitAll(cfg, s, orders, now).pending + [p]);
  }

  lemma SubmitOne(cfg: SimConfig, s: Sim, o: Order, now: nat, p: PendingOp)
    requires Scheduled(s.pending + [p]) && ScheduledOp(cfg, o.action, now, o.jitterMs) == Some(p)
    ensures SubmitAll(cfg, s, [o], now) == s.(pending := s.pending + [p])
  {
    hide ScheduledOp, Scheduled, SubmitAll;
    SubmitNone(cfg, s, now);
    assert [] + [o] == [o];
    SubmitMore(cfg, s, [], o, now, p);
  }

  lemma SubmitTwo(cfg: SimConfig, s: Sim, o: Order, o': Order, now: nat, p: PendingOp, q: PendingOp)
    requires s.pending == [] && p.scheduledTs <= q.scheduledTs
    requires ScheduledOp(cfg, o.action, now, o.jitterMs) == Some(p)
             && ScheduledOp(cfg, o'.action, now, o'.jitterMs) == Some(q)
    ensures SubmitAll(cfg, s, [o, o'], now) == s.(pending := [p, q])
  {
    hide ScheduledOp, SubmitAll;
    assert [] + [p] == [p] && [p] + [q] == [p, q] && [o] + [o'] == [o, o'];
    SubmitOne(cfg, s, o, now, p);
    SubmitMore(cfg, s, [o], o', now, q);
  }

  /** Every resting order is a bid of 1 at 100. */
  predicate AllBuys(live: seq<LiveQuote>, symbol: Symbol) {
    forall i :: 0 <= i < |live| ==>
      live[i] == RestingBuy(symbol, live[i].id, live[i].queueAhead, live[i].ts, live[i].submittedAt)
  }

  /** Resting bids of one symbol commit their notional. */
  lemma {:induction false} CommitmentOfBuys(live: seq<LiveQuote>, symbol: Symbol)
    requires AllBuys(live, symbol)
    ensures Commitment(Exact, live, symbol) == Committed(100.0 * |live| as real, 0.0, 0.0)
    ensures BidsResting(Exact, live) == 100.0 * |live| as real && AsksResting(live) == 0.0
    decreases |live|
  {
    if live != [] {
      var init, q := live[..|live| - 1], live[|live| - 1];
      assert live == init + [q];
      CommitmentOfBuys(init, symbol);
      RestingSnoc(Exact, init, q);
      assert q.price * q.size == 100.0;
    } else {
      SumEmpty(Exact);
    }
  }

  predicate IsSpot(cfg: SimConfig) {
    cfg == Spot(cfg.makerBps, cfg.takerBps, cfg.submitLatencyMs, cfg.cancelLatencyMs) && cfg.makerBps >= 0
  }

  /** The cash gate counts the notional of what rests, and the new order with its maker fee. */
  lemma BuyAdmitted(cfg: SimConfig, s: Sim, symbol: Symbol, tif: TimeInForce)
    requires IsSpot(cfg) && AllBuys(s.live, symbol) && !tif.PostOnly?
    requires (if tif.Immediate() then 0.0 else 100.0 * |s.live| as real) + 100.0 + cfg.makerBps as real / 100.0
             <= s.cash
    ensures Verdict(cfg, s, Buy(symbol, tif)) == None
  {
    hide Commitment;
    CommitmentOfBuys(s.live, symbol);
    assert 100.0 * (1.0 + cfg.makerBps as real / 10000.0) == 100.0 + cfg.makerBps as real / 100.0;
  }

  /** An admitted buy comes to rest behind what the book shows. */
  lemma BuyRests(cfg: SimConfig, s: Sim, p: PendingOp, symbol: Symbol)
    requires IsSpot(cfg) && AllBuys(s.live, symbol) && p.op == PlaceOp(Buy(symbol, GTC), None)
    requires 100.0 * |s.live| as real + 100.0 + cfg.makerBps as real / 100.0 <= s.cash
    ensures var ahead := BookOf(s.books, symbol).LevelSize(Bid, 100.0);
            var q := RestingBuy(symbol, s.nextId, ahead, p.scheduledTs, p.submittedAt);
            Apply(cfg, s, p) == (s.(live := s.live + [q], nextId := s.nextId + 1), [])
  {
    hide Verdict, BookState.LevelSize, BookOf;
    BuyAdmitted(cfg, s, symbol, GTC);
  }

  /** Resting bids at one price are served in the order they rest. */
  lemma OneInLine(q: LiveQuote)
    requires q.side.Bid?
    ensures Priority([q], q.symbol, Ask, q.price) == [0]
  {
    assert EligibleBelow([q], 0, q.symbol, Ask, q.price) == [];
    assert EligibleBelow([q], 1, q.symbol, Ask, q.price) == [] + [0] == [0];
    assert [0][..0] == [] && [] + [0] == [0];
    assert SortByPrice([q], Ask, []) == [];
  }

  lemma TwoInLine(q: LiveQuote, q': LiveQuote)
    requires q.side.Bid? && q'.side.Bid? && q'.price == q.price && q'.symbol == q.symbol
    ensures Priority([q, q'], q.symbol, Ask, q.price) == [0, 1]
  {
    var live := [q, q'];
    BothEligible(live, q.symbol, q.price);
    assert SortByPrice(live, Ask, [0, 1]) == [0, 1] by {
      hide IsEligible, EligibleBelow;
      assert [0, 1][..1] == [0] && [0][..0] == [] && [] + [0] == [0] && [0] + [1] == [0, 1];
      assert SortByPrice(live, Ask, []) == [];
      assert InsertByPrice(live, Ask, [], 0) == [0];
      assert SortByPrice(live, Ask, [0]) == [0];
      assert InsertByPrice(live, Ask, [0], 1) == [0, 1];
    }
  }

  lemma BothEligible(live: seq<LiveQuote>, symbol: Symbol, price: real)
    requires |live| == 2 && IsEligible(live[0], symbol, Ask, price) && IsEligible(live[1], symbol, Ask, price)
    ensures EligibleBelow(live, 2, symbol, Ask, price) == [0, 1]
  {
    hide IsEligible;
    assert EligibleBelow(live, 0, symbol, Ask, price) == [];
    assert EligibleBelow(live, 1, symbol, Ask, price) == [] + [0] == [0];
    assert EligibleBelow(live, 2, symbol, Ask, price) == [0] + [1] == [0, 1];
  }

  lemma BiteWhole(q: LiveQuote, index: nat, remaining: real)
    requires q.queueAhead == 0.0 && 0.0 < q.size <= remaining
    ensures BiteOf(q, index, q.price, remaining) == Bite(index, 0.0, true, q.size, q.(size := 0.0))
  {
  }

  // ---------------------------------------------------------------------------------------------
  // Look-ahead at the end of the clock

  /** At the last 64-bit time an order decided on a trade rests in time to be filled by that trade. */
  lemma LastInstantLooksAhead(symbol: Symbol)
    ensures var t := Turn(Trade(symbol, 100.0, 1.0, Ask, U64_MAX), [Bought(symbol, GTC)], CALM);
            var fills := Step(Spot(0, 0, 0, 0), Seeded(100.0, 0.0), t).1;
            |fills| == 1 && fills[0].submittedAt == fills[0].ts == U64_MAX
  {
    hide ApplyPending, Apply, SubmitAll, MatchTrade;
    var cfg, s := Spot(0, 0, 0, 0), Seeded(100.0, 0.0);
    var t := Turn(Trade(symbol, 100.0, 1.0, Ask, U64_MAX), [Bought(symbol, GTC)], CALM);
    var p := PendingOp(U64_MAX, PlaceOp(Buy(symbol, GTC), None), U64_MAX);
    CalmTurn(cfg, s, t);
    assert s.pending + [p] == [p];
    SubmitOne(cfg, s, t.orders[0], U64_MAX, p);
    var s1 := s.(pending := [p], lastTs := Some(U64_MAX));
    assert [p] + [] == [p];
    OneDue(cfg, s1, p, [], U64_MAX);
    BuyRests(cfg, s1.(pending := []), p, symbol);
    var q := RestingBuy(symbol, 1, 0.0, U64_MAX, U64_MAX);
    var s2 := s1.(pending := [], live := [q], nextId := 2);
    assert ApplyPending(cfg, s1, U64_MAX) == (s2, []) by {
      assert [] + [q] == [q];
      assert EMPTY_BOOK.LevelSize(Bid, 100.0) == 0.0;
    }
    OneFilled(cfg, s2, q, U64_MAX);
  }

  /** A sale of the size of the only resting bid fills it. */
  lemma OneFilled(cfg: SimConfig, s: Sim, q: LiveQuote, ts: nat)
    requires s.live == [q] && q.side.Bid? && q.queueAhead == 0.0 && q.size > 0.0 && q.price > 0.0
    ensures var (s', fills) := MatchTrade(cfg, s, q.symbol, q.price, q.size, Ask, ts);
            fills == [Fill(q.id, q.price, q.size, q.symbol.quote, MakerFee(cfg, q.price, q.size), Bid, ts, true,
                           q.submittedAt)]
  {
    hide MakerFee, SettleBites, LiveAfter, BiteOf, Priority;
    OneInLine(q);
    BiteWhole(q, 0, q.size);
    var b := BiteOf(q, 0, q.price, q.size);
    assert Bites(s.live, q.price, q.size, [0]) == [b] by {
      UnfoldBites(s.live, q.price, q.size, [0]);
      assert [b] + [] == [b];
    }
    assert [b][1..] == [];
    assert MakerFills(cfg, [b], ts) == [MakerFill(cfg, b, ts)] + [];
  }

  // ---------------------------------------------------------------------------------------------
  // Turns that do one thing

  /** Orders are sent and none is due yet. */
  lemma Waits(cfg: SimConfig, s: Sim, orders: seq<Order>, now: nat, pending: seq<PendingOp>)
    requires IsSpot(cfg) && SubmitAll(cfg, s, orders, now) == s.(pending := pending)
    requires pending != [] ==> pending[0].scheduledTs > now
    ensures Step(cfg, s, Turn(Heartbeat(now), orders, CALM)) == (s.(pending := pending, lastTs := Some(now)), [])
  {
    hide ApplyPending, SubmitAll, Step;
    var none: seq<Fill> := [];
    assert none + none == none;
    CalmTurn(cfg, s, Turn(Heartbeat(now), orders, CALM));
    NoneDue(cfg, s.(pending := pending, lastTs := Some(now)), now);
  }

  /** The book is shown to the strategy, which sends orders, and then to the simulator. */
  lemma Shows(cfg: SimConfig, s: Sim, snap: Snapshot, orders: seq<Order>, pending: seq<PendingOp>)
    requires IsSpot(cfg) && SubmitAll(cfg, s, orders, snap.ts) == s.(pending := pending)
    requires pending != [] ==> pending[0].scheduledTs > snap.ts
    ensures Step(cfg, s, Turn(BookUpdate(snap), orders, CALM))
            == (UpdateBook(s.(pending := pending, lastTs := Some(snap.ts)), snap), [])
  {
    hide ApplyPending, SubmitAll, UpdateBook, Step;
    var none: seq<Fill> := [];
    assert none + none == none;
    CalmTurn(cfg, s, Turn(BookUpdate(snap), orders, CALM));
    NoneDue(cfg, s.(pending := pending, lastTs := Some(snap.ts)), snap.ts);
  }

  /** One operation is due. */
  lemma Applies(cfg: SimConfig, s: Sim, p: PendingOp, rest: seq<PendingOp>, now: nat)
    requires IsSpot(cfg) && s.pending == [p] + rest && p.scheduledTs <= now
             && (rest != [] ==> rest[0].scheduledTs > now)
    ensures Step(cfg, s, Turn(Heartbeat(now), [], CALM)) == Apply(cfg, s.(pending := rest, lastTs := Some(now)), p)
  {
    hide ApplyPending, Apply, Step;
    CalmTurn(cfg, s, Turn(Heartbeat(now), [], CALM));
    SubmitNone(cfg, s, now);
    OneDue(cfg, s.(lastTs := Some(now)), p, rest, now);
    assert Apply(cfg, s.(pending := rest, lastTs := Some(now)), p).1 + []
           == Apply(cfg, s.(pending := rest, lastTs := Some(now)), p).1;
  }

  /** Two operations are due. */
  lemma AppliesBoth(cfg: SimConfig, s: Sim, p: PendingOp, q: PendingOp, now: nat)
    requires IsSpot(cfg) && s.pending == [p, q] && p.scheduledTs <= now && q.scheduledTs <= now
    ensures var (s1, f1) := Apply(cfg, s.(pending := [], lastTs := Some(now)), p);
            var (s2, f2) := Apply(cfg, s1, q);
            Step(cfg, s, Turn(Heartbeat(now), [], CALM)) == (s2, f1 + f2)
  {
    hide ApplyPending, Apply, Step;
    CalmTurn(cfg, s, Turn(Heartbeat(now), [], CALM));
    SubmitNone(cfg, s, now);
    BothDue(cfg, s.(lastTs := Some(now)), p, q, now);
    var (s1, f1) := Apply(cfg, s.(pending := [], lastTs := Some(now)), p);
    var (s2, f2) := Apply(cfg, s1, q);
    assert (f1 + f2) + [] == f1 + f2;
  }

  lemma RunPair(cfg: SimConfig, s: Sim, a: Turn, b: Turn)
    ensures RunSim(cfg, s, [a, b])
            == var (s1, f1) := Step(cfg, s, a); var (s2, f2) := Step(cfg, s1, b); (s2, f1 + f2)
  {
    hide Step, RunSim;
    RunNone(cfg, s);
    assert [] + [a] == [a] && [a] + [b] == [a, b];
    RunSnoc(cfg, s, [], a);
    assert [] + Step(cfg, s, a).1 == Step(cfg, s, a).1;
    RunSnoc(cfg, s, [a], b);
  }

  /** A buy is sent at time 0 and comes to rest when its latency is over. */
  function Opening(symbol: Symbol, due: nat): seq<Turn> {
    [Turn(Heartbeat(0), [Bought(symbol, GTC)], CALM), Turn(Heartbeat(due), [], CALM)]
  }

  function Opened(symbol: Symbol, due: nat, cash: real): Sim {
    Sim([], [RestingBuy(symbol, 1, 0.0, due, 0)], {}, map[], [], map[], 0.0, cash, 0.0, Some(due), 2)
  }

  lemma OpeningRests(cfg: SimConfig, symbol: Symbol, due: nat, cash: real)
    requires IsSpot(cfg) && cfg.submitLatencyMs < 100
             && due == (if cfg.submitLatencyMs == 0 then 1 else cfg.submitLatencyMs * 1000000)
    requires 100.0 + cfg.makerBps as real / 100.0 <= cash
    ensures RunSim(cfg, Seeded(cash, 0.0), Opening(symbol, due)) == (Opened(symbol, due, cash), [])
  {
    hide Step, RunSim, Apply, SubmitAll;
    var s := Seeded(cash, 0.0);
    var p := PendingOp(due, PlaceOp(Buy(symbol, GTC), None), 0);
    assert s.pending + [p] == [p] == [p] + [];
    SubmitOne(cfg, s, Bought(symbol, GTC), 0, p);
    Waits(cfg, s, [Bought(symbol, GTC)], 0, [p]);
    var s1 := s.(pending := [p], lastTs := Some(0));
    Applies(cfg, s1, p, [], due);
    BuyRests(cfg, s1.(pending := [], lastTs := Some(due)), p, symbol);
    var none: seq<Fill> := [];
    assert none + none == none;
    assert [] + [RestingBuy(symbol, 1, 0.0, due, 0)] == [RestingBuy(symbol, 1, 0.0, due, 0)];
    assert EMPTY_BOOK.LevelSize(Bid, 100.0) == 0.0;
    RunPair(cfg, s, Turn(Heartbeat(0), [Bought(symbol, GTC)], CALM), Turn(Heartbeat(due), [], CALM));
  }

  // ---------------------------------------------------------------------------------------------
  // Immediate orders

  /** An ask of 1 at 100, and no bids. */
  function AskShown(symbol: Symbol, ts: nat): Snapshot {
    Snapshot(symbol, [], [Level(100.0, 1.0)], ts)
  }

  const ONE_ASK := BookState(map[], map[100.0 := 1.0], None, Some(100.0))

  lemma AskIsShown(s: Sim, symbol: Symbol, ts: nat)
    requires AllBuys(s.live, symbol)
    ensures UpdateBook(s, AskShown(symbol, ts)) == s.(books := s.books[symbol := ONE_ASK])
  {
    var asks := [Level(100.0, 1.0)];
    assert asks[..0] == [] && LevelMap(asks) == map[][100.0 := 1.0] == map[100.0 := 1.0];
    assert BookFrom(AskShown(symbol, ts)) == ONE_ASK;
    assert UpdateBook(s, AskShown(symbol, ts)).live == s.live;
  }

  lemma OneLevelWalk()
    ensures Consumed(ONE_ASK, Bid, 1.0, 100.0) == [Level(100.0, 1.0)]
  {
    var m := map[100.0 := 1.0];
    LevelsSorted(Bid, m);
    var levels := SortedLevels(Bid, m);
    assert Level(100.0, 1.0) in levels;
    assert forall i :: 0 <= i < |levels| ==> levels[i] in levels;
    assert forall i :: 0 <= i < |levels| ==> levels[i] == Level(100.0, 1.0);
    assert |levels| == 1;
    assert levels == [Level(100.0, 1.0)];
  }

  /** An immediate buy of that ask: admitted if cash covers it with the maker fee, charged the taker fee. */
  lemma BuyTakes(cfg: SimConfig, s: Sim, p: PendingOp, symbol: Symbol)
    requires IsSpot(cfg) && AllBuys(s.live, symbol) && p.op == PlaceOp(Buy(symbol, IOC), None)
    requires BookOf(s.books, symbol) == ONE_ASK && 100.0 + cfg.makerBps as real / 100.0 <= s.cash
    ensures var (s', fills) := Apply(cfg, s, p);
            && s'.cash == s.cash - 100.0 - cfg.takerBps as real / 100.0 && s'.live == s.live
            && |fills| == 1 && fills[0].fee == cfg.takerBps as real / 100.0
  {
    hide Verdict, Take, Consumed, WalkOf, OnGrid;
    BuyAdmitted(cfg, s, symbol, IOC);
    OneLevelWalk();
    assert WalkOf(s, Buy(symbol, IOC)) == [Level(100.0, 1.0)] by { WalkIs(s, symbol); }
    assert Quantity([Level(100.0, 1.0)]) == 1.0 && RoundedCost(Exact, [Level(100.0, 1.0)]) == 100.0;
    TakeBalances(cfg, s, Buy(symbol, IOC), p.scheduledTs, p.submittedAt) by { ExactIsGrid(s.cash); }
  }

  lemma WalkIs(s: Sim, symbol: Symbol)
    requires BookOf(s.books, symbol) == ONE_ASK
    ensures WalkOf(s, Buy(symbol, IOC)) == Consumed(ONE_ASK, Bid, 1.0, 100.0)
  {
    hide Consumed;
  }

  lemma ExactIsGrid(x: real)
    ensures OnGrid(Exact, x)
  {
  }

  /** A bid of 1 at 100 rests on a cash balance of 100; an ask appears and is bought at once. */
  function BuyingTwice(symbol: Symbol): seq<Turn> {
    Opening(symbol, 1)
    + [Turn(BookUpdate(AskShown(symbol, 2)), [Bought(symbol, IOC)], CALM)]
    + [Turn(Heartbeat(3), [], CALM)]
  }

  /** Why only resting orders: an immediate buy is checked against cash alone and may spend what the
      resting bids are counting on.  After this run no cash is left for the bid that rests. */
  lemma ImmediateOrdersBreakSolvency(symbol: Symbol)
    ensures var cfg, s, turns := Spot(0, 0, 0, 0), Seeded(100.0, 0.0), BuyingTwice(symbol);
            var s' := RunSim(cfg, s, turns).0;
            && SpotMaker(cfg) && Solvent(Exact, s, 0.0, 0)
            && s'.cash == 0.0 && s'.live == [RestingBuy(symbol, 1, 0.0, 1, 0)]
            && !RunSolvent(cfg, s, turns)
  {
    hide Step, RunSim, Apply, SubmitAll, UpdateBook, Solvent;
    var cfg, s := Spot(0, 0, 0, 0), Seeded(100.0, 0.0);
    var q := RestingBuy(symbol, 1, 0.0, 1, 0);
    var show, fire := Turn(BookUpdate(AskShown(symbol, 2)), [Bought(symbol, IOC)], CALM), Turn(Heartbeat(3), [], CALM);
    var p := PendingOp(3, PlaceOp(Buy(symbol, IOC), None), 2);
    OpeningRests(cfg, symbol, 1, 100.0);
    var s1 := Opened(symbol, 1, 100.0);
    assert s1.pending + [p] == [p] == [p] + [];
    SubmitOne(cfg, s1, Bought(symbol, IOC), 2, p);
    Shows(cfg, s1, AskShown(symbol, 2), [Bought(symbol, IOC)], [p]);
    AskIsShown(s1.(pending := [p], lastTs := Some(2)), symbol, 2);
    var s2 := s1.(pending := [p], lastTs := Some(2), books := map[symbol := ONE_ASK]);
    assert s1.books[symbol := ONE_ASK] == map[symbol := ONE_ASK];
    Applies(cfg, s2, p, [], 3);
    var s3 := s2.(pending := [], lastTs := Some(3));
    BuyTakes(cfg, s3, p, symbol);
    RunSnoc(cfg, s, Opening(symbol, 1), show);
    RunSnoc(cfg, s, Opening(symbol, 1) + [show], fire);
    var none: seq<Fill> := [];
    assert none + none == none && none + Apply(cfg, s3, p).1 == Apply(cfg, s3, p).1;
    SolventAtStart(100.0);
    Uncovered(cfg, s, BuyingTwice(symbol), q);
  }

  lemma SolventAtStart(cash: real)
    requires cash >= 0.0
    ensures Solvent(Exact, Seeded(cash, 0.0), 0.0, 0)
  {
    SumEmpty(Exact);
  }

  /** With a bid of 100 resting and neither cash nor fees, the run has not stayed solvent. */
  lemma Uncovered(cfg: SimConfig, s: Sim, turns: seq<Turn>, q: LiveQuote)
    requires cfg.rounding.Exact? && turns != [] && q == RestingBuy(q.symbol, q.id, q.queueAhead, q.ts, q.submittedAt)
    requires var (s', fills) := RunSim(cfg, s, turns);
             s'.cash == 0.0 && s'.live == [q] && |fills| == 1 && fills[0].fee == 0.0
    ensures !RunSolvent(cfg, s, turns)
  {
    hide RunSim, OpsSolvent, BeforeOps, DueOps;
    var (s', fills) := RunSim(cfg, s, turns);
    CommitmentOfBuys(s'.live, q.symbol);
    assert fills == [fills[0]];
    TallySingle(Exact, fills[0]);
    assert FeesAfter(Exact, 0.0, fills) == 0.0;
  }

  /** The gate reserves the maker fee, here none, and the fill is charged the taker fee of 1%. */
  lemma TakerFeeUnreserved(symbol: Symbol)
    ensures var cfg := Spot(0, 100, 0, 0);
            var turns := [Turn(BookUpdate(AskShown(symbol, 0)), [Bought(symbol, IOC)], CALM),
                          Turn(Heartbeat(1), [], CALM)];
            && ExactSpot(cfg) && Backed(cfg, Seeded(100.0, 0.0))
            && RunSim(cfg, Seeded(100.0, 0.0), turns).0.cash == -1.0
  {
    hide Step, RunSim, Apply, SubmitAll, UpdateBook, Reserved, Backed;
    var cfg, s := Spot(0, 100, 0, 0), Seeded(100.0, 0.0);
    var show, fire := Turn(BookUpdate(AskShown(symbol, 0)), [Bought(symbol, IOC)], CALM), Turn(Heartbeat(1), [], CALM);
    var p := PendingOp(1, PlaceOp(Buy(symbol, IOC), None), 0);
    assert s.pending + [p] == [p] == [p] + [];
    SubmitOne(cfg, s, Bought(symbol, IOC), 0, p);
    Shows(cfg, s, AskShown(symbol, 0), [Bought(symbol, IOC)], [p]);
    AskIsShown(s.(pending := [p], lastTs := Some(0)), symbol, 0);
    var s2 := s.(pending := [p], lastTs := Some(0), books := map[symbol := ONE_ASK]);
    assert s.books[symbol := ONE_ASK] == map[symbol := ONE_ASK];
    Applies(cfg, s2, p, [], 1);
    BuyTakes(cfg, s2.(pending := [], lastTs := Some(1)), p, symbol);
    RunPair(cfg, s, show, fire);
    BackedAtStart(cfg, 100.0);
  }

  lemma BackedAtStart(cfg: SimConfig, cash: real)
    requires cash >= 0.0
    ensures Backed(cfg, Seeded(cash, 0.0))
  {
    SumEmpty(Exact);
  }

  // ---------------------------------------------------------------------------------------------
  // A ladder of bids

  /** Two bids sent together, and a sale that fills both. */
  function LadderFilled(symbol: Symbol): seq<Turn> {
    [Turn(Heartbeat(0), [Bought(symbol, GTC), Bought(symbol, GTC)], CALM)]
    + [Turn(Heartbeat(1), [], CALM)]
    + [Turn(Trade(symbol, 100.0, 2.0, Ask, 2), [], CALM)]
  }

  /** Two bids sent together come to rest, each behind what the book shows. */
  lemma PairRests(cfg: SimConfig, s: Sim, symbol: Symbol, ahead: real)
    requires IsSpot(cfg) && s.live == [] && s.pending == [Sent(symbol), Sent(symbol)] && s.nextId == 1
    requires 200.0 + cfg.makerBps as real / 100.0 <= s.cash && BookOf(s.books, symbol).LevelSize(Bid, 100.0) == ahead
    ensures Step(cfg, s, Turn(Heartbeat(1), [], CALM))
            == (s.(pending := [], lastTs := Some(1), nextId := 3,
                   live := [RestingBuy(symbol, 1, ahead, 1, 0), RestingBuy(symbol, 2, ahead, 1, 0)]), [])
  {
    hide Step, Apply, BookOf, BookState.LevelSize;
    var p, q, q' := Sent(symbol), RestingBuy(symbol, 1, ahead, 1, 0), RestingBuy(symbol, 2, ahead, 1, 0);
    AppliesBoth(cfg, s, p, p, 1);
    var s0 := s.(pending := [], lastTs := Some(1));
    BuyRests(cfg, s0, p, symbol);
    assert s0.live + [q] == [q];
    var s1 := s0.(live := [q], nextId := 2);
    BuyRests(cfg, s1, p, symbol);
    assert [q] + [q'] == [q, q'];
    var none: seq<Fill> := [];
    assert none + none == none;
  }

  function Sent(symbol: Symbol): PendingOp {
    PendingOp(1, PlaceOp(Buy(symbol, GTC), None), 0)
  }

  /** With a maker fee of 1%, a balance of 201 admits two bids of notional 100, and filling them leaves
      it at -1: the first bid's fee is not counted when the second is admitted. */
  lemma LadderFillsNegative(symbol: Symbol)
    ensures var cfg := Spot(100, 0, 0, 0);
            && ExactSpot(cfg) && Backed(cfg, Seeded(201.0, 0.0))
            && RunSim(cfg, Seeded(201.0, 0.0), LadderFilled(symbol)).0.cash == -1.0
  {
    hide Step, RunSim, Apply, SubmitAll, MatchTrade, Reserved;
    var cfg, s, p := Spot(100, 0, 0, 0), Seeded(201.0, 0.0), Sent(symbol);
    var send := Turn(Heartbeat(0), [Bought(symbol, GTC), Bought(symbol, GTC)], CALM);
    var rest := Turn(Heartbeat(1), [], CALM);
    var sell := Turn(Trade(symbol, 100.0, 2.0, Ask, 2), [], CALM);
    SubmitTwo(cfg, s, Bought(symbol, GTC), Bought(symbol, GTC), 0, p, p);
    Waits(cfg, s, [Bought(symbol, GTC), Bought(symbol, GTC)], 0, [p, p]);
    var s1 := s.(pending := [p, p], lastTs := Some(0));
    assert EMPTY_BOOK.LevelSize(Bid, 100.0) == 0.0;
    PairRests(cfg, s1, symbol, 0.0);
    var s2 := s1.(pending := [], lastTs := Some(1), nextId := 3,
                  live := [RestingBuy(symbol, 1, 0.0, 1, 0), RestingBuy(symbol, 2, 0.0, 1, 0)]);
    Sells(cfg, s2, sell);
    PairFilled(cfg, s2.(lastTs := Some(2)), symbol, 2);
    RunPair(cfg, s, send, rest);
    assert [send] + [rest] == [send, rest];
    RunSnoc(cfg, s, [send, rest], sell);
    BackedAtStart(cfg, 201.0);
  }

  lemma Sells(cfg: SimConfig, s: Sim, t: Turn)
    requires IsSpot(cfg) && s.pending == [] && t.event.Trade? && t.orders == []
    ensures Step(cfg, s, t).0
            == MatchTrade(cfg, s.(lastTs := Some(t.event.ts)), t.event.symbol, t.event.price, t.event.size,
                          t.event.side, t.event.ts).0
  {
    hide Step, ApplyPending, MatchTrade;
    CalmTurn(cfg, s, t);
    SubmitNone(cfg, s, t.event.ts);
    NoneDue(cfg, s.(lastTs := Some(t.event.ts)), t.event.ts);
  }

  lemma PairFilled(cfg: SimConfig, s: Sim, symbol: Symbol, ts: nat)
    requires IsSpot(cfg) && s.live == [RestingBuy(symbol, 1, 0.0, 1, 0), RestingBuy(symbol, 2, 0.0, 1, 0)]
    ensures MatchTrade(cfg, s, symbol, 100.0, 2.0, Ask, ts).0.cash == s.cash - 200.0 - cfg.makerBps as real / 50.0
  {
    hide LiveAfter, BiteOf, Priority, Drained, Without;
    var q, q' := s.live[0], s.live[1];
    TwoInLine(q, q');
    BiteWhole(q, 0, 2.0);
    BiteWhole(q', 1, 1.0);
    var b, b' := BiteOf(q, 0, 100.0, 2.0), BiteOf(q', 1, 100.0, 1.0);
    assert Bites(s.live, 100.0, 2.0, [0, 1]) == [b, b'] by {
      UnfoldBites(s.live, 100.0, 2.0, [0, 1]);
      assert [0, 1][1..] == [1] && [1][1..] == [];
      UnfoldBites(s.live, 100.0, 1.0, [1]);
      assert [b'] + [] == [b'] && [b] + [b'] == [b, b'];
    }
    assert [b, b'][1..] == [b'] && [b'][1..] == [];
    assert MakerFee(cfg, 100.0, 1.0) == cfg.makerBps as real / 100.0;
    var s1 := SettleBite(cfg, s, b);
    assert s1.cash == s.cash - 100.0 - cfg.makerBps as real / 100.0;
    SettleSnoc(cfg, s, [], b);
    SettleSnoc(cfg, s, [b], b');
    assert [] + [b] == [b] && [b] + [b'] == [b, b'];
  }

  /** Two orders sent behind a level of 10. */
  function LevelShown(symbol: Symbol): seq<Turn> {
    [Turn(BookUpdate(Snapshot(symbol, [Level(100.0, 10.0)], [], 0)), [Bought(symbol, GTC), Bought(symbol, GTC)], CALM),
     Turn(Heartbeat(1), [], CALM)]
  }

  lemma PairSum(q: LiveQuote, q': LiveQuote, f: LiveQuote -> real)
    ensures Sum([q, q'], f) == f(q) + f(q')
  {
    assert [q, q'] == [q] + [q'] && [q] == [] + [q];
    SumSnoc([], q, f);
    SumSnoc([q], q', f);
  }

  /** Two orders behind the same 10 are each behind 10, and one sale of 25 eats 20 of a queue of 10. */
  lemma QueueEatenTwice(symbol: Symbol)
    ensures var s := RunSim(Spot(0, 0, 0, 0), Seeded(1000.0, 0.0), LevelShown(symbol)).0;
            && BookOf(s.books, symbol).LevelSize(Bid, 100.0) == 10.0
            && EatenTotal(TradeBites(s, symbol, 100.0, 25.0, Ask)) == 20.0
  {
    hide Step, RunSim, Apply, SubmitAll, TradeBites;
    var cfg, s, p := Spot(0, 0, 0, 0), Seeded(1000.0, 0.0), Sent(symbol);
    var snap := Snapshot(symbol, [Level(100.0, 10.0)], [], 0);
    var orders := [Bought(symbol, GTC), Bought(symbol, GTC)];
    SubmitTwo(cfg, s, orders[0], orders[1], 0, p, p);
    Shows(cfg, s, snap, orders, [p, p]);
    var book := BookState(map[100.0 := 10.0], map[], Some(100.0), None);
    var s1 := s.(pending := [p, p], lastTs := Some(0), books := map[symbol := book]);
    assert UpdateBook(s.(pending := [p, p], lastTs := Some(0)), snap) == s1 by {
      assert snap.bids[..0] == [] && LevelMap(snap.bids) == map[][100.0 := 10.0] == map[100.0 := 10.0];
    }
    PairRests(cfg, s1, symbol, 10.0);
    RunPair(cfg, s, LevelShown(symbol)[0], LevelShown(symbol)[1]);
    var s2 := RunSim(cfg, s, LevelShown(symbol)).0;
    var q, q' := s2.live[0], s2.live[1];
    PairSum(q, q', QueueAt(symbol, Bid, 100.0));
    PairSum(q, q', TakeableAt(symbol, Bid, 100.0));
    assert s2.live == [q, q'];
    assert QueuesAt(s2.live, symbol, Bid, 100.0) == 20.0 && Takeable(s2.live, symbol, Bid, 100.0) == 22.0;
    QueueEaten(s2, symbol, 100.0, 25.0, Ask);
  }

  // ---------------------------------------------------------------------------------------------
  // A cancel and a replace in one batch

  /** The order rests; then a cancel and a slower replace of it are sent together. */
  function CancelSent(symbol: Symbol): seq<Turn> {
    Opening(symbol, 2000000)
    + [Turn(Heartbeat(2000001), [Order(Cancel(1), 0), Order(Requote(1, Buy(symbol, GTC)), 0)], CALM)]
  }

  /** Whether the cancel holds depends on whether any event falls between the two: applied at one event,
      the replace has left the queue before the cancel can withdraw it. */
  lemma CancelUndoneInBatch(symbol: Symbol)
    ensures var cfg, s := Spot(0, 0, 2, 1), Seeded(100.0, 0.0);
            var between, after := Turn(Heartbeat(3000001), [], CALM), Turn(Heartbeat(4000001), [], CALM);
            && RestsUnder(RunSim(cfg, s, CancelSent(symbol) + [after]).0.live, 1)
            && RunSim(cfg, s, CancelSent(symbol) + [between] + [after]).0.live == []
  {
    hide Step, RunSim, Apply, SubmitAll;
    var cfg, s := Spot(0, 0, 2, 1), Seeded(100.0, 0.0);
    var orders := [Order(Cancel(1), 0), Order(Requote(1, Buy(symbol, GTC)), 0)];
    var c, r := PendingOp(3000001, CancelOp(1), 2000001), PendingOp(4000001, ReplaceOp(1, Buy(symbol, GTC)), 2000001);
    var between, after := Turn(Heartbeat(3000001), [], CALM), Turn(Heartbeat(4000001), [], CALM);
    OpeningRests(cfg, symbol, 2000000, 100.0);
    var s1 := Opened(symbol, 2000000, 100.0);
    SubmitTwo(cfg, s1, orders[0], orders[1], 2000001, c, r);
    Waits(cfg, s1, orders, 2000001, [c, r]);
    var s2 := s1.(pending := [c, r], lastTs := Some(2000001));
    RunSnoc(cfg, s, Opening(symbol, 2000000), Turn(Heartbeat(2000001), orders, CALM));
    RunSnoc(cfg, s, CancelSent(symbol), after);
    RunSnoc(cfg, s, CancelSent(symbol), between);
    RunSnoc(cfg, s, CancelSent(symbol) + [between], after);
    AppliesBoth(cfg, s2, c, r, 4000001);
    var both := s2.(pending := [], lastTs := Some(4000001));
    CancelLeavesNone(cfg, both, c);
    ReplaceRestsAgain(cfg, both.(live := []), r, symbol);
    assert [c, r] == [c] + [r];
    Applies(cfg, s2, c, [r], 3000001);
    CancelLeavesNone(cfg, s2.(pending := [r], lastTs := Some(3000001)), c);
    var gone := s2.(pending := [], live := [], lastTs := Some(3000001));
    SubmitNone(cfg, gone, 4000001);
    Waits(cfg, gone, [], 4000001, []);
  }

  lemma CancelLeavesNone(cfg: SimConfig, s: Sim, c: PendingOp)
    requires |s.live| == 1 && c.op == CancelOp(s.live[0].id)
    requires s.pending == [] || exists r :: s.pending == [r] && r.op.ReplaceOp? && r.op.id == c.op.cancelId
    ensures Apply(cfg, s, c) == (s.(live := [], pending := []), [])
  {
    var id := c.op.cancelId;
    FilterNone(s.live, OtherThan(id));
    FilterNone(s.pending, Uncarried(id));
  }

  lemma ReplaceRestsAgain(cfg: SimConfig, s: Sim, r: PendingOp, symbol: Symbol)
    requires IsSpot(cfg) && s.live == [] && s.pending == [] && r.op == ReplaceOp(1, Buy(symbol, GTC))
    requires 100.0 + cfg.makerBps as real / 100.0 <= s.cash
    ensures RestsUnder(Apply(cfg, s, r).0.live, 1)
  {
    hide Verdict, BookState.LevelSize, BookOf;
    BuyAdmitted(cfg, s, symbol, GTC);
    assert IndexOf(s.live, 1) == 0;
    assert s.(live := s.live, pending := PurgePending(s.pending, 1)) == s;
    assert Apply(cfg, s, r).0.live[0].id == 1;
  }

  // ---------------------------------------------------------------------------------------------
  // Reconciling

  /** An order in flight with a venue id comes to rest; then the venue lists that id under another symbol. */
  lemma ReconcileClashes(symbol: Symbol, other: Symbol, id: QuoteId)
    requires other != symbol
    ensures var s := AtRest(QuoteIntent(symbol, Bid, 1.0, 1.0, GTC, Point), id);
            && UniqueIds(s.live)
            && !UniqueIds(Reconciled(s, other, [OpenOrder(id, other, Bid, 1.0, 1.0)]).0.live)
  {
    hide OnMarketEvent, SortBySchedule, Reconciled;
    var i := QuoteIntent(symbol, Bid, 1.0, 1.0, GTC, Point);
    var orders := [OpenOrder(id, other, Bid, 1.0, 1.0)];
    var p := PendingOp(1, PlaceOp(i, Some(id)), 0);
    SortOne(p);
    OneRests(EMPTY_VENUE.(pending := [p]), p, 1);
    var s := AtRest(i, id);
    assert s.live == [LiveQuote(id, symbol, Bid, 1.0, 1.0, 0.0, 1, 0)];
    KeptAre(s, other, orders);
    assert Known(s, other, orders) == {};
    assert orders[0].symbol == other && s.live[0].symbol != other;
    ReconcileUnique(s, other, orders);
  }
}
