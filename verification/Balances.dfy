/** The simulator's own books: how cash, assets and position move with the fills it emits. */
module Balances {
  import opened Decimals
  import opened Core
  import opened Book
  import opened Pnl
  import opened Venue
  import opened Matching
  import opened Lifecycle

  /** What a list of fills adds up to: rounded cash flow, fees and size as the position tracker counts
      them, the unrounded signed size, and how far rounding may push cash (`slip`) and holdings
      (`drift`) away from those. */
  datatype Tally = Tally(flow: real, fees: real, size: real, signed: real, slip: real, drift: real) {
    function Plus(t: Tally): Tally {
      Tally(flow + t.flow, fees + t.fees, size + t.size, signed + t.signed, slip + t.slip, drift + t.drift)
    }
  }

  const NO_TALLY := Tally(0.0, 0.0, 0.0, 0.0, 0.0, 0.0)

  /** Half a unit each for the notional, the size and the price of one fill. */
  function CashSlip(m: Rounding, f: Fill): real {
    2.0 * HalfUlp(m) + Times(HalfUlp(m), Abs(f.price)) + Times(HalfUlp(m), Abs(f.size))
  }

  function TallyOne(m: Rounding, f: Fill): Tally {
    Tally(Flow(m, f), Round(m, f.fee), Delta(m, f), SideDelta(f.side, f.size), CashSlip(m, f), 2.0 * HalfUlp(m))
  }

  function TallyAll(m: Rounding, fills: seq<Fill>): Tally {
    if fills == [] then NO_TALLY else TallyOne(m, fills[0]).Plus(TallyAll(m, fills[1..]))
  }

  lemma PlusAssoc(a: Tally, b: Tally, c: Tally)
    ensures a.Plus(b.Plus(c)) == a.Plus(b).Plus(c) && NO_TALLY.Plus(a) == a && a.Plus(NO_TALLY) == a
  {
  }

  lemma {:induction false} TallyAppend(m: Rounding, xs: seq<Fill>, ys: seq<Fill>)
    ensures TallyAll(m, xs + ys) == TallyAll(m, xs).Plus(TallyAll(m, ys))
  {
    hide TallyOne, Tally.Plus;
    if xs == [] {
      assert xs + ys == ys;
      PlusAssoc(TallyAll(m, ys), NO_TALLY, NO_TALLY);
    } else {
      assert (xs + ys)[0] == xs[0] && (xs + ys)[1..] == xs[1..] + ys;
      TallyAppend(m, xs[1..], ys);
      PlusAssoc(TallyOne(m, xs[0]), TallyAll(m, xs[1..]), TallyAll(m, ys));
    }
  }

  /** Cash moved by the flow less the fees, and holdings by the size, each within its tolerance. */
  predicate Balanced(m: Rounding, s: Sim, s': Sim, t: Tally) {
    && OnGrid(m, s'.cash)
    && Abs(s'.cash - s.cash - (t.flow - t.fees)) <= t.slip
    && Abs(s'.assets - s.assets - t.size) <= t.drift
  }

  /** The signed position of the symbol moved by exactly the unrounded signed size. */
  predicate Positioned(s: Sim, s': Sim, symbol: Symbol, t: Tally) {
    UnitsOf(s', symbol) == UnitsOf(s, symbol) + t.signed
  }

  /** Both books, for a run trading one symbol in spot mode. */
  predicate Booked(m: Rounding, s: Sim, s': Sim, symbol: Symbol, fills: seq<Fill>) {
    Balanced(m, s, s', TallyAll(m, fills)) && Positioned(s, s', symbol, TallyAll(m, fills))
  }

  lemma BookedTrans(m: Rounding, s: Sim, s1: Sim, s2: Sim, symbol: Symbol, f1: seq<Fill>, f2: seq<Fill>)
    requires Booked(m, s, s1, symbol, f1) && Booked(m, s1, s2, symbol, f2)
    ensures Booked(m, s, s2, symbol, f1 + f2)
  {
    hide OnGrid, TallyAll, UnitsOf;
    TallyAppend(m, f1, f2);
  }

  lemma BookedNone(m: Rounding, s: Sim, s': Sim, symbol: Symbol)
    requires OnGrid(m, s.cash) && s'.cash == s.cash && s'.assets == s.assets && s'.units == s.units
    ensures Booked(m, s, s', symbol, [])
  {
    hide OnGrid;
  }

  // ---------------------------------------------------------------------------------------------
  // One fill

  /** Signed notional: negative for a buy. */
  function SignedNotional(side: Side, notional: real): real {
    if side.Bid? then -notional else notional
  }

  lemma SettleMoves(cfg: SimConfig, s: Sim, symbol: Symbol, side: Side, qty: real, notional: real, fee: real)
    requires cfg.spot && OnGrid(cfg.rounding, s.cash) && OnGrid(cfg.rounding, notional) && OnGrid(cfg.rounding, fee)
    ensures var m, s' := cfg.rounding, Settle(cfg, s, symbol, side, qty, notional, fee);
            && OnGrid(m, s'.cash)
            && s'.cash == s.cash + SignedNotional(side, notional) - fee
            && Abs(s'.assets - (s.assets + SideDelta(side, qty))) <= HalfUlp(m)
            && UnitsOf(s', symbol) == UnitsOf(s, symbol) + SideDelta(side, qty)
  {
    hide Round, OnGrid, HalfUlp;
    var m := cfg.rounding;
    RoundGridSum(m, s.cash, notional);
    RoundGridSum(m, s.cash + SignedNotional(side, notional), fee);
    RoundNear(m, s.assets + SideDelta(side, qty));
  }

  /** What booking a fill does: the symbol's signed position moves by the size; in spot mode cash pays or
      receives the notional and then pays the fee, and holdings move by the size, each rounded; otherwise
      neither moves; and nothing else does. */
  lemma SettledExactly(cfg: SimConfig, s: Sim, symbol: Symbol, side: Side, qty: real, notional: real, fee: real)
    ensures var m, s' := cfg.rounding, Settle(cfg, s, symbol, side, qty, notional, fee);
            var held := if symbol in s.units then s.units[symbol] else 0.0;
            && s' == s.(units := s.units[symbol := if side == Bid then held + qty else held - qty],
                        cash := s'.cash, assets := s'.assets)
            && (cfg.spot && side == Bid ==>
                  s'.cash == Round(m, Round(m, s.cash - notional) - fee) && s'.assets == Round(m, s.assets + qty))
            && (cfg.spot && side == Ask ==>
                  s'.cash == Round(m, Round(m, s.cash + notional) - fee) && s'.assets == Round(m, s.assets - qty))
            && (!cfg.spot ==> s'.cash == s.cash && s'.assets == s.assets)
  {
    hide Round;
  }

  /** A fill whose notional is `notional` is booked as the tracker will count it. */
  lemma FillBooked(cfg: SimConfig, s: Sim, symbol: Symbol, notional: real, f: Fill)
    requires cfg.spot && OnGrid(cfg.rounding, s.cash) && OnGrid(cfg.rounding, notional) && OnGrid(cfg.rounding, f.fee)
    requires Abs(SignedNotional(f.side, notional) - Flow(cfg.rounding, f)) <= CashSlip(cfg.rounding, f)
    ensures Booked(cfg.rounding, s, Settle(cfg, s, symbol, f.side, f.size, notional, f.fee), symbol, [f])
  {
    hide Round, OnGrid, HalfUlp, CashSlip, Flow, Settle, UnitsOf;
    var m := cfg.rounding;
    SettleMoves(cfg, s, symbol, f.side, f.size, notional, f.fee);
    RoundFixesGrid(m, f.fee);
    RoundNear(m, SideDelta(f.side, f.size));
    TallySingle(m, f);
  }

  lemma TallySingle(m: Rounding, f: Fill)
    ensures TallyAll(m, [f]) == TallyOne(m, f)
  {
    assert [f][1..] == [];
    PlusAssoc(TallyOne(m, f), NO_TALLY, NO_TALLY);
  }

  lemma FlowOfFill(m: Rounding, f: Fill)
    ensures Flow(m, f) == SignedNotional(f.side, Times(Round(m, f.size), Round(m, f.price)))
  {
    hide Round;
    RoundNeg(m, f.size);
    var size, price := Round(m, f.size), Round(m, f.price);
    if f.side.Ask? {
      assert Delta(m, f) == -size;
      assert -(-size) * price == size * price;
    }
  }

  lemma ProductNear(x: real, x': real, y: real, y': real, eps: real)
    requires Abs(x' - x) <= eps && Abs(y' - y) <= eps && eps <= 0.5
    ensures Abs(Times(x', y') - Times(x, y)) <= eps + Times(eps, Abs(x)) + Times(eps, Abs(y))
  {
    ProductNearLeft(x, x', y', eps);
    ProductNearLeft(y, y', x, eps);
    TimesCommutes(y, x);
    TimesCommutes(y', x);
    TimesAbsGrows(eps, y, y');
    hide Times;
  }

  lemma TimesAbsGrows(eps: real, y: real, y': real)
    requires Abs(y' - y) <= eps && 0.0 <= eps <= 0.5
    ensures Times(eps, Abs(y')) <= Times(eps, Abs(y)) + eps
  {
    GrowsByUnit(eps, Abs(y), Abs(y'));
  }

  lemma GrowsByUnit(eps: real, u: real, v: real)
    requires v <= u + 1.0 && 0.0 <= eps
    ensures Times(eps, v) <= Times(eps, u) + eps
  {
    MulMonotone(v, u + 1.0, eps);
    Distribute(eps, u, 1.0);
    assert Times(eps, v) == v * eps && Times(eps, u) == eps * u;
  }

  lemma ProductNearLeft(x: real, x': real, y: real, eps: real)
    requires Abs(x' - x) <= eps
    ensures Abs(Times(x', y) - Times(x, y)) <= Times(eps, Abs(y))
  {
    assert Times(x', y) - Times(x, y) == (x' - x) * y;
    ScaledError(x' - x, y, eps);
    assert eps * Abs(y) == Times(eps, Abs(y));
  }

  lemma TimesCommutes(x: real, y: real)
    ensures Times(x, y) == Times(y, x)
  {
  }

  lemma MakerSlip(cfg: SimConfig, b: Bite, ts: nat)
    ensures var m, f := cfg.rounding, MakerFill(cfg, b, ts);
            Abs(SignedNotional(f.side, Notional(m, f.price, f.size)) - Flow(m, f)) <= CashSlip(m, f)
  {
    hide Round, HalfUlp, MakerFee, Times, Flow, Notional;
    var m, f := cfg.rounding, MakerFill(cfg, b, ts);
    FlowOfFill(m, f);
    NotionalNear(m, f.price, f.size);
    RoundNear(m, f.price);
    RoundNear(m, f.size);
    ProductNear(f.size, Round(m, f.size), f.price, Round(m, f.price), HalfUlp(m));
  }

  lemma NotionalNear(m: Rounding, price: real, size: real)
    ensures Abs(Notional(m, price, size) - Times(size, price)) <= HalfUlp(m)
  {
    hide Round, HalfUlp;
    RoundNear(m, price * size);
  }

  lemma MakerFeeGrid(cfg: SimConfig, price: real, qty: real)
    ensures OnGrid(cfg.rounding, MakerFee(cfg, price, qty))
    ensures OnGrid(cfg.rounding, Notional(cfg.rounding, price, qty))
  {
    hide Round, OnGrid;
    var m := cfg.rounding;
    RoundNear(m, Bps(Times(Round(m, price), Round(m, qty)), cfg.makerBps));
    RoundNear(m, price * qty);
  }

  /** Average price times quantity is the notional, up to half a unit per unit of quantity. */
  lemma TakerSlip(m: Rounding, notional: real, f: Fill)
    requires f.size != 0.0 && f.price == AveragePrice(m, notional, f.size)
    ensures Abs(SignedNotional(f.side, notional) - Flow(m, f)) <= CashSlip(m, f)
  {
    hide Round, HalfUlp, Times, Flow, OnGrid;
    FlowOfFill(m, f);
    AverageNear(m, notional, f.size, f.price);
    RoundNear(m, f.size);
    ProductNearLeft(f.size, Round(m, f.size), f.price, HalfUlp(m));
  }

  lemma AverageNear(m: Rounding, notional: real, qty: real, avg: real)
    requires qty != 0.0 && avg == AveragePrice(m, notional, qty)
    ensures Round(m, avg) == avg
    ensures Abs(Times(qty, avg) - notional) <= Times(HalfUlp(m), Abs(qty))
  {
    hide Round, HalfUlp, OnGrid;
    var mean := notional / qty;
    RoundNear(m, mean);
    RoundFixesGrid(m, avg);
    assert mean * qty == notional;
    assert Times(qty, avg) - notional == (avg - mean) * qty;
    ScaledError(avg - mean, qty, HalfUlp(m));
  }

  // ---------------------------------------------------------------------------------------------
  // Taker fills

  lemma {:induction false} RoundedCostGrid(m: Rounding, consumed: seq<Level>)
    ensures OnGrid(m, RoundedCost(m, consumed))
  {
    hide Round, OnGrid;
    if consumed == [] {
      RoundZero(m);
    } else {
      RoundedCostGrid(m, consumed[1..]);
      RoundNear(m, consumed[0].price * consumed[0].size);
      GridSum(m, Notional(m, consumed[0].price, consumed[0].size), RoundedCost(m, consumed[1..]));
    }
  }

  lemma {:induction false} QuantityPositive(consumed: seq<Level>)
    requires forall l :: l in consumed ==> l.size > 0.0
    ensures Quantity(consumed) >= 0.0 && (consumed != [] ==> Quantity(consumed) > 0.0)
  {
    if consumed != [] {
      assert consumed[0] in consumed;
      QuantityPositive(consumed[1..]);
    }
  }

  lemma TakeBooked(cfg: SimConfig, s: Sim, intent: QuoteIntent, ts: nat, submittedAt: nat)
    requires cfg.spot && OnGrid(cfg.rounding, s.cash)
    ensures var (s', fill) := Take(cfg, s, intent, ts, submittedAt);
            Booked(cfg.rounding, s, s', intent.symbol, Listed(fill))
  {
    hide Round, OnGrid, HalfUlp, Consumed, Quantity, DecrementAll, Settle, Booked, AveragePrice, RoundedCost, Bps,
      CashSlip;
    var m, book := cfg.rounding, BookOf(s.books, intent.symbol);
    var consumed := Consumed(book, intent.side, intent.size, intent.price);
    var qty := Quantity(consumed);
    var (s', fill) := Take(cfg, s, intent, ts, submittedAt);
    if fill.None? {
      BookedNone(m, s, s', intent.symbol);
    } else {
      var f, notional := fill.value, RoundedCost(m, consumed);
      ConsumedPositive(book, intent.side, intent.size, intent.price);
      RoundedCostGrid(m, consumed);
      RoundNear(m, Bps(notional, cfg.takerBps));
      TakerSlip(m, notional, f);
      var s1 := s.(books := s.books[intent.symbol := DecrementAll(book, intent.side.Opposite(), consumed)]);
      FillBooked(cfg, s1, intent.symbol, notional, f);
      BookedSame(m, s1, Settle(cfg, s1, intent.symbol, f.side, f.size, notional, f.fee), s, s', intent.symbol, [f]);
    }
  }

  lemma ConsumedPositive(book: BookState, taker: Side, size: real, limit: real)
    ensures var c := Consumed(book, taker, size, limit); c != [] ==> Quantity(c) > 0.0
  {
    var levels := SortedLevels(taker, book.Levels(taker.Opposite()));
    WalkWithinLimit(taker, levels, size, limit);
    QuantityPositive(Walk(taker, levels, size, limit));
  }

  /** Only cash, assets and units matter to the books. */
  lemma BookedSame(m: Rounding, s: Sim, s': Sim, r: Sim, r': Sim, symbol: Symbol, fills: seq<Fill>)
    requires Booked(m, s, s', symbol, fills)
    requires r.cash == s.cash && r.assets == s.assets && r.units == s.units
    requires r'.cash == s'.cash && r'.assets == s'.assets && r'.units == s'.units
    ensures Booked(m, r, r', symbol, fills)
  {
    hide OnGrid, TallyAll;
  }

  // ---------------------------------------------------------------------------------------------
  // Maker fills

  predicate BitesOn(bites: seq<Bite>, symbol: Symbol) {
    forall b :: b in bites ==> b.quote.symbol == symbol
  }

  lemma BiteBooked(cfg: SimConfig, s: Sim, b: Bite, ts: nat)
    requires cfg.spot && OnGrid(cfg.rounding, s.cash)
    ensures var s' := SettleBite(cfg, s, b);
            && Booked(cfg.rounding, s, s', b.quote.symbol, if b.reached then [MakerFill(cfg, b, ts)] else [])
            && OnGrid(cfg.rounding, s'.cash)
  {
    hide Round, OnGrid, HalfUlp, MakerFee, Settle, Booked, BookAfter, CashSlip, Flow, Notional;
    var m, s' := cfg.rounding, SettleBite(cfg, s, b);
    if b.reached {
      var f, s1 := MakerFill(cfg, b, ts), s.(books := BookAfter(s.books, b));
      MakerFeeGrid(cfg, b.quote.price, b.filled);
      MakerSlip(cfg, b, ts);
      FillBooked(cfg, s1, b.quote.symbol, Notional(m, f.price, f.size), f);
      BookedSame(m, s1, s', s, s', b.quote.symbol, [f]);
      BookedGrid(m, s, s', b.quote.symbol, [f]);
    } else {
      BookedNone(m, s, s', b.quote.symbol);
    }
  }

  lemma BookedGrid(m: Rounding, s: Sim, s': Sim, symbol: Symbol, fills: seq<Fill>)
    requires Booked(m, s, s', symbol, fills)
    ensures OnGrid(m, s'.cash)
  {
    hide OnGrid, TallyAll;
  }

  lemma {:induction false} BitesBooked(cfg: SimConfig, s: Sim, bites: seq<Bite>, symbol: Symbol, ts: nat)
    requires cfg.spot && OnGrid(cfg.rounding, s.cash) && BitesOn(bites, symbol)
    ensures Booked(cfg.rounding, s, SettleBites(cfg, s, bites), symbol, MakerFills(cfg, bites, ts))
    decreases |bites|
  {
    hide OnGrid, Booked, SettleBite, MakerFill;
    if bites == [] {
      BookedNone(cfg.rounding, s, s, symbol);
    } else {
      var s1 := SettleBite(cfg, s, bites[0]);
      assert bites[0] in bites;
      BiteBooked(cfg, s, bites[0], ts);
      BitesBooked(cfg, s1, bites[1..], symbol, ts);
      BookedTrans(cfg.rounding, s, s1, SettleBites(cfg, s, bites), symbol,
                  if bites[0].reached then [MakerFill(cfg, bites[0], ts)] else [], MakerFills(cfg, bites[1..], ts));
    }
  }

  // ---------------------------------------------------------------------------------------------
  // One symbol

  predicate LiveOn(live: seq<LiveQuote>, symbol: Symbol) {
    forall i :: 0 <= i < |live| ==> live[i].symbol == symbol
  }

  predicate OpOn(p: PendingOp, symbol: Symbol) {
    match p.op
    case PlaceOp(intent, _) => intent.symbol == symbol
    case ReplaceOp(_, intent) => intent.symbol == symbol
    case _ => true
  }

  predicate OpsOn(ops: seq<PendingOp>, symbol: Symbol) {
    forall i :: 0 <= i < |ops| ==> OpOn(ops[i], symbol)
  }

  lemma AccountedOn(live: seq<LiveQuote>, ops: seq<PendingOp>, live': seq<LiveQuote>, symbol: Symbol)
    requires Accounted(live, ops, live') && LiveOn(live, symbol) && OpsOn(ops, symbol)
    ensures LiveOn(live', symbol)
  {
    forall k | 0 <= k < |live'|
      ensures live'[k].symbol == symbol
    {
      if Descends(live'[k], live) {
        var i :| 0 <= i < |live| && Later(live[i], live'[k]);
      } else {
        var i :| 0 <= i < |ops| && PlacedBy(ops[i], live'[k]);
        assert OpOn(ops[i], symbol);
      }
    }
  }

  lemma SubsetOn(pending: seq<PendingOp>, pending': seq<PendingOp>, symbol: Symbol)
    requires OpsOn(pending, symbol) && forall o :: o in pending' ==> o in pending
    ensures OpsOn(pending', symbol)
  {
    forall i | 0 <= i < |pending'|
      ensures OpOn(pending'[i], symbol)
    {
      assert pending'[i] in pending;
    }
  }

  lemma TradeBooked(cfg: SimConfig, s: Sim, trade: Symbol, price: real, size: real, taker: Side, ts: nat,
                    symbol: Symbol)
    requires cfg.spot && OnGrid(cfg.rounding, s.cash) && AllHealthy(s.live) && LiveOn(s.live, symbol)
    ensures var (s', fills) := MatchTrade(cfg, s, trade, price, size, taker, ts);
            Booked(cfg.rounding, s, s', symbol, fills)
  {
    hide OnGrid, Booked, SettleBites, MakerFills, Bites, Priority, LiveAfter, Drained;
    var bites := TradeBites(s, trade, price, size, taker);
    if price > 0.0 && size > 0.0 {
      var order := TradeOutcome(s, trade, price, size, taker);
      forall b | b in bites
        ensures b.quote.symbol == symbol
      {
        var k :| 0 <= k < |bites| && bites[k] == b;
        assert Later(s.live[order[k]], b.quote);
      }
    }
    BitesBooked(cfg, s, bites, symbol, ts);
    var s' := MatchTrade(cfg, s, trade, price, size, taker, ts).0;
    BookedSame(cfg.rounding, s, SettleBites(cfg, s, bites), s, s', symbol, MakerFills(cfg, bites, ts));
  }

  lemma PlaceBooked(cfg: SimConfig, s: Sim, intent: QuoteIntent, ts: nat, overrideId: Option<QuoteId>, submittedAt: nat)
    requires cfg.spot && OnGrid(cfg.rounding, s.cash)
    ensures var (s', fill) := Place(cfg, s, intent, ts, overrideId, submittedAt);
            Booked(cfg.rounding, s, s', intent.symbol, Listed(fill))
  {
    hide OnGrid, Booked, Verdict, Take;
    var (s', fill) := Place(cfg, s, intent, ts, overrideId, submittedAt);
    if Verdict(cfg, s, intent).None? && intent.tif.Immediate() {
      TakeBooked(cfg, s, intent, ts, submittedAt);
    } else {
      BookedNone(cfg.rounding, s, s', intent.symbol);
    }
  }

  lemma ApplyBooked(cfg: SimConfig, s: Sim, p: PendingOp, symbol: Symbol)
    requires cfg.spot && OnGrid(cfg.rounding, s.cash) && OpOn(p, symbol)
    ensures var (s', fills) := Apply(cfg, s, p);
            Booked(cfg.rounding, s, s', symbol, fills)
  {
    hide OnGrid, Booked, Place;
    var m, s', fills := cfg.rounding, Apply(cfg, s, p).0, Apply(cfg, s, p).1;
    match p.op
    case PlaceOp(intent, overrideId) => PlaceBooked(cfg, s, intent, p.scheduledTs, overrideId, p.submittedAt);
    case ReplaceOp(id, intent) =>
      var i := IndexOf(s.live, id);
      var evicted := s.(live := if i < |s.live| then RemoveAt(s.live, i) else s.live,
                        pending := PurgePending(s.pending, id));
      PlaceBooked(cfg, evicted, intent, p.scheduledTs, Some(id), p.submittedAt);
      BookedSame(m, evicted, Place(cfg, evicted, intent, p.scheduledTs, Some(id), p.submittedAt).0, s, s', symbol,
                 fills);
    case _ => BookedNone(m, s, s', symbol);
  }

  lemma {:induction false} ApplyAllBooked(cfg: SimConfig, s: Sim, ready: seq<PendingOp>, symbol: Symbol)
    requires cfg.spot && OnGrid(cfg.rounding, s.cash) && OpsOn(ready, symbol)
    ensures var (s', fills) := ApplyAll(cfg, s, ready);
            Booked(cfg.rounding, s, s', symbol, fills)
    decreases |ready|
  {
    hide OnGrid, Booked, Apply;
    if ready == [] {
      BookedNone(cfg.rounding, s, s, symbol);
    } else {
      var (s1, f1) := Apply(cfg, s, ready[0]);
      ApplyBooked(cfg, s, ready[0], symbol);
      BookedGrid(cfg.rounding, s, s1, symbol, f1);
      ApplyAllBooked(cfg, s1, ready[1..], symbol);
      var (s2, f2) := ApplyAll(cfg, s1, ready[1..]);
      BookedTrans(cfg.rounding, s, s1, s2, symbol, f1, f2);
    }
  }

  /** Every market event is booked by its fills, and keeps trading the one symbol. */
  lemma EventBooked(cfg: SimConfig, s: Sim, ev: MarketEvent, now: nat, noise: Noise, symbol: Symbol)
    requires cfg.spot && OnGrid(cfg.rounding, s.cash) && Sound(s) && GoodEvent(ev) && GoodNoise(noise)
    requires LiveOn(s.live, symbol) && OpsOn(s.pending, symbol)
    ensures var (s', fills) := OnMarketEvent(cfg, s, ev, now, noise);
            && Booked(cfg.rounding, s, s', symbol, fills)
            && LiveOn(s'.live, symbol) && OpsOn(s'.pending, symbol)
  {
    hide OnGrid, Booked, DecayQueues, SilentCancels, ApplyAll, MatchTrade, UpdateBook, Accounted, Sound, OpOn;
    var m := cfg.rounding;
    var s1 := SilentCancels(cfg, DecayQueues(cfg, s, now, noise), now, noise);
    DecayStep(cfg, s, now, noise);
    SilentStep(cfg, DecayQueues(cfg, s, now, noise), now, noise);
    AccountedOn(s.live, [], DecayQueues(cfg, s, now, noise).live, symbol);
    AccountedOn(DecayQueues(cfg, s, now, noise).live, [], s1.live, symbol);
    var (s2, f2) := ApplyPending(cfg, s1, now);
    ApplyPendingStep(cfg, s1, now);
    AccountedOn(s1.live, Due(s1, now), s2.live, symbol);
    SubsetOn(s.pending, s2.pending, symbol);
    ApplyAllBooked(cfg, s1.(pending := s1.pending[DueCount(s1.pending, now)..]), Due(s1, now), symbol);
    BookedSame(m, s1, s2, s, s2, symbol, f2) by {
      BookedSame(m, s1.(pending := s1.pending[DueCount(s1.pending, now)..]), s2, s1, s2, symbol, f2);
    }
    BookedGrid(m, s, s2, symbol, f2);
    var (s3, f3) := React(cfg, s2, ev);
    ReactStep(cfg, s2, ev);
    AccountedOn(s2.live, [], s3.live, symbol);
    ReactBooked(cfg, s2, ev, symbol);
    BookedTrans(m, s, s2, s3, symbol, f2, f3);
  }

  lemma ReactBooked(cfg: SimConfig, s: Sim, ev: MarketEvent, symbol: Symbol)
    requires cfg.spot && OnGrid(cfg.rounding, s.cash) && Sound(s) && LiveOn(s.live, symbol)
    ensures var (s', fills) := React(cfg, s, ev);
            Booked(cfg.rounding, s, s', symbol, fills)
  {
    hide OnGrid, Booked, MatchTrade;
    if ev.Trade? {
      TradeBooked(cfg, s, ev.symbol, ev.price, ev.size, ev.side, ev.ts, symbol);
    } else {
      BookedNone(cfg.rounding, s, React(cfg, s, ev).0, symbol);
    }
  }
}
