/** Spot solvency: what rests is always backed by what is held.  Also the cap on resting orders, and
    what a refused replace leaves behind. */
module Solvency {
  import opened Decimals
  import opened Core
  import opened Book
  import opened Pnl
  import opened Venue
  import opened Matching
  import opened Lifecycle
  import opened Balances

  // ---------------------------------------------------------------------------------------------
  // What rests

  function BidValue(m: Rounding, q: LiveQuote): real {
    if q.side.Bid? then Notional(m, q.price, q.size) else 0.0
  }

  function AskValue(q: LiveQuote): real {
    if q.side.Ask? then q.size else 0.0
  }

  function BidValueOf(m: Rounding): LiveQuote -> real {
    (q: LiveQuote) => BidValue(m, q)
  }

  function AskValueOf(): LiveQuote -> real {
    (q: LiveQuote) => AskValue(q)
  }

  /** Total notional of the resting bids. */
  function BidsResting(m: Rounding, live: seq<LiveQuote>): real {
    Sum(live, BidValueOf(m))
  }

  /** Total size of the resting asks. */
  function AsksResting(live: seq<LiveQuote>): real {
    Sum(live, AskValueOf())
  }

  lemma ValuesNonNegative(m: Rounding, live: seq<LiveQuote>)
    requires AllHealthy(live)
    ensures forall q :: q in live ==> BidValueOf(m)(q) >= 0.0 && AskValueOf()(q) >= 0.0
  {
    hide Round;
    forall q | q in live
      ensures BidValueOf(m)(q) >= 0.0 && AskValueOf()(q) >= 0.0
    {
      var i :| 0 <= i < |live| && live[i] == q;
      NotionalNonNegative(m, q.price, q.size);
    }
  }

  lemma NotionalNonNegative(m: Rounding, price: real, size: real)
    requires price >= 0.0 && size >= 0.0
    ensures Notional(m, price, size) >= 0.0 && OnGrid(m, Notional(m, price, size))
  {
    hide Round, OnGrid;
    MulMonotone(0.0, price, size);
    RoundNonNegative(m, price * size);
    RoundNear(m, price * size);
  }

  /** The commitment the gates read is what rests. */
  lemma {:induction false} CommitmentIsResting(m: Rounding, live: seq<LiveQuote>, symbol: Symbol)
    requires LiveOn(live, symbol)
    ensures var c := Commitment(m, live, symbol);
            && c.bidNotional == BidsResting(m, live) && OnGrid(m, c.bidNotional)
            && c.askSize == AsksResting(live)
    decreases |live|
  {
    hide Round, OnGrid, Sum, Notional;
    if live == [] {
      RoundZero(m);
      SumEmpty(m);
    } else {
      var init, q := live[..|live| - 1], live[|live| - 1];
      assert live == init + [q];
      CommitmentIsResting(m, init, symbol);
      SumSnoc(init, q, BidValueOf(m));
      SumSnoc(init, q, AskValueOf());
      NotionalGrid(m, q.price, q.size);
      RoundGridSum(m, Commitment(m, init, symbol).bidNotional, Notional(m, q.price, q.size));
    }
  }

  lemma NotionalGrid(m: Rounding, price: real, size: real)
    ensures OnGrid(m, Notional(m, price, size))
  {
    hide Round, OnGrid;
    RoundNear(m, price * size);
  }

  lemma SumEmpty(m: Rounding)
    ensures BidsResting(m, []) == 0.0 && AsksResting([]) == 0.0
  {
  }

  // ---------------------------------------------------------------------------------------------
  // Solvency

  /** Half a unit for each of `n` fills. */
  function Slack(m: Rounding, n: nat): real {
    HalfUlp(m) * n as real
  }

  /** Cash plus the fees charged so far covers the resting bids, and holdings cover the resting asks,
      up to the rounding of `n` fills. */
  predicate Solvent(m: Rounding, s: Sim, fees: real, n: nat) {
    && fees >= 0.0
    && s.cash + fees + 3.0 * Slack(m, n) >= BidsResting(m, s.live)
    && s.assets + Slack(m, n) >= AsksResting(s.live)
  }

  /** Nothing rests that did not rest before, at the same size: solvency is kept. */
  lemma SolventLess(m: Rounding, s: Sim, s': Sim, fees: real, n: nat)
    requires Solvent(m, s, fees, n) && s'.cash == s.cash && s'.assets == s.assets
    requires BidsResting(m, s'.live) <= BidsResting(m, s.live) && AsksResting(s'.live) <= AsksResting(s.live)
    ensures Solvent(m, s', fees, n)
  {
  }

  lemma SamePointwise(m: Rounding, live: seq<LiveQuote>, live': seq<LiveQuote>)
    requires SameButQueues(live, live')
    ensures BidsResting(m, live') == BidsResting(m, live) && AsksResting(live') == AsksResting(live)
  {
    SumPointwise(live', live, BidValueOf(m));
    SumPointwise(live', live, AskValueOf());
  }

  lemma FilterLess(m: Rounding, live: seq<LiveQuote>, keep: LiveQuote -> bool)
    requires AllHealthy(live)
    ensures BidsResting(m, Filter(live, keep)) <= BidsResting(m, live)
            && AsksResting(Filter(live, keep)) <= AsksResting(live)
  {
    ValuesNonNegative(m, live);
    SumFilter(live, keep, BidValueOf(m));
    SumFilter(live, keep, AskValueOf());
  }

  lemma WithoutLess(m: Rounding, live: seq<LiveQuote>, gone: set<nat>)
    requires forall q :: q in live ==> BidValueOf(m)(q) >= 0.0 && AskValueOf()(q) >= 0.0
    ensures BidsResting(m, Without(live, gone)) <= BidsResting(m, live)
            && AsksResting(Without(live, gone)) <= AsksResting(live)
  {
    SumWithout(live, gone, 0, BidValueOf(m));
    SumWithout(live, gone, 0, AskValueOf());
  }

  /** Only orders that rest. */
  predicate RestingIntent(intent: QuoteIntent) {
    GoodIntent(intent) && !intent.tif.Immediate()
  }

  predicate RestingOp(p: PendingOp) {
    match p.op
    case PlaceOp(intent, _) => RestingIntent(intent)
    case ReplaceOp(_, intent) => RestingIntent(intent)
    case _ => true
  }

  predicate RestingOps(ops: seq<PendingOp>) {
    forall i :: 0 <= i < |ops| ==> RestingOp(ops[i])
  }

  predicate SpotMaker(cfg: SimConfig) {
    cfg.spot && cfg.makerBps >= 0
  }

  lemma ReservedCovers(m: Rounding, notional: real, makerBps: int)
    requires notional >= 0.0 && OnGrid(m, notional) && makerBps >= 0
    ensures Reserved(m, notional, makerBps) >= notional && OnGrid(m, Reserved(m, notional, makerBps))
  {
    hide Round, OnGrid;
    var grossed := notional * (1.0 + makerBps as real / 10000.0);
    MulMonotone(1.0, 1.0 + makerBps as real / 10000.0, notional);
    assert notional <= grossed;
    RoundMonotone(m, notional, grossed);
    RoundFixesGrid(m, notional);
    RoundNear(m, grossed);
  }

  /** An accepted order is backed by what was free. */
  lemma PlaceSolvent(cfg: SimConfig, s: Sim, intent: QuoteIntent, ts: nat, overrideId: Option<QuoteId>,
                     submittedAt: nat, symbol: Symbol, fees: real, n: nat)
    requires SpotMaker(cfg) && RestingIntent(intent) && intent.symbol == symbol && LiveOn(s.live, symbol)
    requires Solvent(cfg.rounding, s, fees, n)
    ensures Solvent(cfg.rounding, Place(cfg, s, intent, ts, overrideId, submittedAt).0, fees, n)
  {
    hide Round, OnGrid, Notional, Reserved, HalfUlp, Slack, BidsResting, AsksResting, WouldCross, Resting, Take;
    var m := cfg.rounding;
    var s' := Place(cfg, s, intent, ts, overrideId, submittedAt).0;
    if Verdict(cfg, s, intent).None? {
      var notional := Notional(m, intent.price, intent.size);
      CommitmentIsResting(m, s.live, symbol);
      NotionalNonNegative(m, intent.price, intent.size);
      ReservedCovers(m, notional, cfg.makerBps);
      RoundGridSum(m, Commitment(m, s.live, symbol).bidNotional, Reserved(m, notional, cfg.makerBps));
      RestingSnoc(m, s.live, s'.live[|s.live|]);
      SlackNonNegative(m, n);
    } else {
      SolventLess(m, s, s', fees, n);
    }
  }

  lemma RestingSnoc(m: Rounding, live: seq<LiveQuote>, q: LiveQuote)
    ensures BidsResting(m, live + [q]) == BidsResting(m, live) + BidValue(m, q)
    ensures AsksResting(live + [q]) == AsksResting(live) + AskValue(q)
  {
    SumSnoc(live, q, BidValueOf(m));
    SumSnoc(live, q, AskValueOf());
  }

  lemma SlackNonNegative(m: Rounding, n: nat)
    ensures Slack(m, n) >= 0.0
  {
    MulMonotone(0.0, HalfUlp(m), n as real);
  }

  lemma RestingRemoved(m: Rounding, live: seq<LiveQuote>, i: nat)
    requires i < |live|
    ensures BidsResting(m, RemoveAt(live, i)) == BidsResting(m, live) - BidValue(m, live[i])
    ensures AsksResting(RemoveAt(live, i)) == AsksResting(live) - AskValue(live[i])
  {
    SumRemove(live, i, BidValueOf(m));
    SumRemove(live, i, AskValueOf());
  }

  /** A replace, accepted or refused, keeps the account solvent. */
  lemma ReplaceSolvent(cfg: SimConfig, s: Sim, id: QuoteId, intent: QuoteIntent, ts: nat, submittedAt: nat,
                       symbol: Symbol, fees: real, n: nat)
    requires SpotMaker(cfg) && RestingIntent(intent) && intent.symbol == symbol && LiveOn(s.live, symbol)
    requires AllHealthy(s.live) && Solvent(cfg.rounding, s, fees, n)
    ensures Solvent(cfg.rounding, Replace(cfg, s, id, intent, ts, submittedAt).0, fees, n)
  {
    hide Solvent, Verdict, BidsResting, AsksResting, PurgePending;
    var m, i := cfg.rounding, IndexOf(s.live, id);
    var evicted := s.(live := if i < |s.live| then RemoveAt(s.live, i) else s.live,
                      pending := PurgePending(s.pending, id));
    var s' := Replace(cfg, s, id, intent, ts, submittedAt).0;
    if i < |s.live| {
      RestingRemoved(m, s.live, i);
      ValuesNonNegative(m, s.live);
      assert BidValueOf(m)(s.live[i]) >= 0.0 && AskValueOf()(s.live[i]) >= 0.0;
    }
    SolventLess(m, s, evicted, fees, n);
    PlaceSolvent(cfg, evicted, intent, ts, Some(id), submittedAt, symbol, fees, n);
    if Verdict(cfg, evicted, intent).Some? && i < |s.live| {
      RestingSnoc(m, evicted.live, s.live[i]);
      SolventLess(m, s, s', fees, n);
    }
  }

  lemma ApplySolvent(cfg: SimConfig, s: Sim, p: PendingOp, symbol: Symbol, fees: real, n: nat)
    requires SpotMaker(cfg) && RestingOp(p) && OpOn(p, symbol) && LiveOn(s.live, symbol)
    requires AllHealthy(s.live) && Solvent(cfg.rounding, s, fees, n)
    ensures Solvent(cfg.rounding, Apply(cfg, s, p).0, fees, n) && Apply(cfg, s, p).1 == []
  {
    hide Solvent, BidsResting, AsksResting, Verdict, Rest;
    var m := cfg.rounding;
    match p.op
    case PlaceOp(intent, overrideId) =>
      PlaceSolvent(cfg, s, intent, p.scheduledTs, overrideId, p.submittedAt, symbol, fees, n);
    case ReplaceOp(id, intent) => ReplaceSolvent(cfg, s, id, intent, p.scheduledTs, p.submittedAt, symbol, fees, n);
    case CancelOp(id) =>
      FilterLess(m, s.live, OtherThan(id));
      SolventLess(m, s, CancelId(s, id), fees, n);
    case CancelAllOp =>
      FilterLess(m, s.live, OwnedBy(s.managers));
      SolventLess(m, s, Apply(cfg, s, p).0, fees, n);
  }

  lemma {:induction false} ApplyAllSolvent(cfg: SimConfig, s: Sim, ready: seq<PendingOp>, symbol: Symbol, fees: real,
                                           n: nat)
    requires SpotMaker(cfg) && RestingOps(ready) && OpsOn(ready, symbol) && LiveOn(s.live, symbol)
    requires Sound(s) && GoodPending(ready) && Solvent(cfg.rounding, s, fees, n)
    ensures Solvent(cfg.rounding, ApplyAll(cfg, s, ready).0, fees, n) && ApplyAll(cfg, s, ready).1 == []
    decreases |ready|
  {
    if ready != [] {
      hide Solvent, Apply, GoodOp, OpOn, RestingOp;
      var s1 := Apply(cfg, s, ready[0]).0;
      ApplyStep(cfg, s, ready[0]);
      AccountedOn(s.live, [ready[0]], s1.live, symbol);
      ApplySolvent(cfg, s, ready[0], symbol, fees, n);
      ApplyAllSolvent(cfg, s1, ready[1..], symbol, fees, n);
    }
  }

  // ---------------------------------------------------------------------------------------------
  // Trades

  /** The simulator after one bite, with the bitten order still in its place. */
  function AfterBite(cfg: SimConfig, s: Sim, b: Bite): Sim
    requires b.index < |s.live|
  {
    SettleBite(cfg, s, b).(live := s.live[b.index := b.quote])
  }

  lemma MakerFeeNonNegative(cfg: SimConfig, price: real, qty: real)
    requires cfg.makerBps >= 0 && price >= 0.0 && qty >= 0.0
    ensures MakerFee(cfg, price, qty) >= 0.0
  {
    hide Round;
    var m := cfg.rounding;
    RoundNonNegative(m, price);
    RoundNonNegative(m, qty);
    MulMonotone(0.0, Round(m, price), Round(m, qty));
    var x := Times(Round(m, price), Round(m, qty));
    MulMonotone(0.0, cfg.makerBps as real, x);
    RoundNonNegative(m, Bps(x, cfg.makerBps));
  }

  lemma RestingUpdated(m: Rounding, live: seq<LiveQuote>, i: nat, q: LiveQuote)
    requires i < |live|
    ensures BidsResting(m, live[i := q]) == BidsResting(m, live) - BidValue(m, live[i]) + BidValue(m, q)
    ensures AsksResting(live[i := q]) == AsksResting(live) - AskValue(live[i]) + AskValue(q)
  {
    SumUpdate(live, i, q, BidValueOf(m));
    SumUpdate(live, i, q, AskValueOf());
  }

  /** Filling part of an order frees what the fill costs, up to three half-units. */
  lemma NotionalSplits(m: Rounding, price: real, size: real, filled: real)
    ensures Abs(Notional(m, price, size) - Notional(m, price, size - filled) - Notional(m, price, filled))
            <= 3.0 * HalfUlp(m)
  {
    hide Round, HalfUlp;
    RoundNear(m, price * size);
    RoundNear(m, price * (size - filled));
    RoundNear(m, price * filled);
    assert price * size == price * (size - filled) + price * filled;
  }

  /** The order a bite takes, still at its full size in the book of resting orders. */
  predicate BiteFits(live: seq<LiveQuote>, b: Bite, symbol: Symbol) {
    && b.index < |live| && Healthy(live[b.index]) && Later(live[b.index], b.quote)
    && b.quote.size == live[b.index].size - b.filled && b.filled >= 0.0
    && (!b.reached ==> b.filled == 0.0)
    && b.quote.symbol == symbol
  }

  lemma BiteSolvent(cfg: SimConfig, s: Sim, b: Bite, symbol: Symbol, fees: real, n: nat)
    requires SpotMaker(cfg) && BiteFits(s.live, b, symbol) && OnGrid(cfg.rounding, s.cash)
    requires Solvent(cfg.rounding, s, fees, n)
    ensures var s' := AfterBite(cfg, s, b);
            && OnGrid(cfg.rounding, s'.cash)
            && if b.reached then Solvent(cfg.rounding, s', fees + MakerFee(cfg, b.quote.price, b.filled), n + 1)
               else Solvent(cfg.rounding, s', fees, n)
  {
    hide Round, OnGrid, HalfUlp, Slack, Notional, MakerFee, BidsResting, AsksResting, Settle, BookAfter;
    var m, q, q' := cfg.rounding, s.live[b.index], b.quote;
    RestingUpdated(m, s.live, b.index, q');
    if b.reached {
      var notional, fee := Notional(m, q.price, b.filled), MakerFee(cfg, q.price, b.filled);
      MakerFeeGrid(cfg, q.price, b.filled);
      MakerFeeNonNegative(cfg, q.price, b.filled);
      NotionalNonNegative(m, q.price, b.filled);
      NotionalSplits(m, q.price, q.size, b.filled);
      SettleMoves(cfg, s.(books := BookAfter(s.books, b)), q'.symbol, q'.side, b.filled, notional, fee);
      SlackGrows(m, n);
    }
  }

  lemma SlackGrows(m: Rounding, n: nat)
    ensures Slack(m, n + 1) == Slack(m, n) + HalfUlp(m)
  {
    hide HalfUlp;
    Distribute(HalfUlp(m), n as real, 1.0);
  }

  function BiteFees(cfg: SimConfig, bites: seq<Bite>): real {
    if bites == [] then 0.0
    else (if bites[0].reached then MakerFee(cfg, bites[0].quote.price, bites[0].filled) else 0.0)
         + BiteFees(cfg, bites[1..])
  }

  function Reached(bites: seq<Bite>): nat {
    if bites == [] then 0 else (if bites[0].reached then 1 else 0) + Reached(bites[1..])
  }

  lemma {:induction false} BitesSolvent(cfg: SimConfig, s: Sim, bites: seq<Bite>, order: seq<nat>, symbol: Symbol,
                                        fees: real, n: nat)
    requires SpotMaker(cfg) && OnGrid(cfg.rounding, s.cash) && Solvent(cfg.rounding, s, fees, n)
    requires Indices(order, |s.live|) && NoRepeats(order) && |bites| <= |order|
    requires forall k :: 0 <= k < |bites| ==> bites[k].index == order[k] && BiteFits(s.live, bites[k], symbol)
    ensures var s' := SettleBites(cfg, s, bites).(live := LiveAfter(s.live, bites));
            Solvent(cfg.rounding, s', fees + BiteFees(cfg, bites), n + Reached(bites))
    decreases |bites|
  {
    hide Solvent, OnGrid, MakerFee, SettleBite;
    if bites == [] {
      assert s.(live := LiveAfter(s.live, bites)) == s;
    } else {
      var b := bites[0];
      var s1 := AfterBite(cfg, s, b);
      BiteSolvent(cfg, s, b, symbol, fees, n);
      SettleLive(cfg, s, s.live, b);
      FitsTail(s.live, b.quote, bites, order, symbol);
      BitesSolvent(cfg, s1, bites[1..], order[1..], symbol,
                   fees + if b.reached then MakerFee(cfg, b.quote.price, b.filled) else 0.0,
                     n + if b.reached then 1 else 0);
      SettleAllLive(cfg, SettleBite(cfg, s, b), s1.live, bites[1..]);
      assert LiveAfter(s.live, bites) == LiveAfter(s1.live, bites[1..]);
    }
  }

  lemma FitsTail(live: seq<LiveQuote>, head: LiveQuote, bites: seq<Bite>, order: seq<nat>, symbol: Symbol)
    requires Indices(order, |live|) && NoRepeats(order) && 0 < |bites| <= |order|
    requires forall k :: 0 <= k < |bites| ==> bites[k].index == order[k] && BiteFits(live, bites[k], symbol)
    ensures Indices(order[1..], |live|) && NoRepeats(order[1..])
    ensures forall k :: 0 <= k < |bites[1..]| ==>
              bites[1..][k].index == order[1..][k] && BiteFits(live[order[0] := head], bites[1..][k], symbol)
  {
    hide Healthy, Later;
    forall k | 0 <= k < |bites[1..]|
      ensures bites[1..][k].index == order[1..][k] && BiteFits(live[order[0] := head], bites[1..][k], symbol)
    {
      assert bites[k + 1].index == order[k + 1] && order[k + 1] != order[0] && BiteFits(live, bites[k + 1], symbol);
    }
  }

  lemma {:induction false} FeesOfFills(cfg: SimConfig, bites: seq<Bite>, ts: nat)
    ensures TallyAll(cfg.rounding, MakerFills(cfg, bites, ts)).fees == BiteFees(cfg, bites)
    ensures |MakerFills(cfg, bites, ts)| == Reached(bites)
  {
    if bites != [] {
      hide Round, OnGrid, MakerFee, HalfUlp, CashSlip, Flow;
      FeesOfFills(cfg, bites[1..], ts);
      var rest := MakerFills(cfg, bites[1..], ts);
      if bites[0].reached {
        var f := MakerFill(cfg, bites[0], ts);
        assert ([f] + rest)[1..] == rest;
        MakerFeeGrid(cfg, f.price, f.size);
        RoundFixesGrid(cfg.rounding, f.fee);
      } else {
        assert [] + rest == rest;
      }
    }
  }

  /** A trade is filled from what backs the orders it takes. */
  lemma TradeSolvent(cfg: SimConfig, s: Sim, trade: Symbol, price: real, size: real, taker: Side, ts: nat,
                     symbol: Symbol, fees: real, n: nat)
    requires SpotMaker(cfg) && OnGrid(cfg.rounding, s.cash) && AllHealthy(s.live) && LiveOn(s.live, symbol)
    requires Solvent(cfg.rounding, s, fees, n)
    ensures var (s', fills) := MatchTrade(cfg, s, trade, price, size, taker, ts);
            Solvent(cfg.rounding, s', fees + TallyAll(cfg.rounding, fills).fees, n + |fills|)
  {
    hide Solvent, OnGrid, Bites, SettleBites, LiveAfter, Drained, Priority, MakerFills, TallyAll, BidsResting,
      AsksResting, IsEligible, Exhausts, InOrder;
    var m, bites := cfg.rounding, TradeBites(s, trade, price, size, taker);
    var live' := LiveAfter(s.live, bites);
    var s1 := SettleBites(cfg, s, bites).(live := live');
    var s' := MatchTrade(cfg, s, trade, price, size, taker, ts).0;
    FeesOfFills(cfg, bites, ts);
    if price > 0.0 && size > 0.0 {
      var order := TradeOutcome(s, trade, price, size, taker);
      forall k | 0 <= k < |bites|
        ensures bites[k].index == order[k] && BiteFits(s.live, bites[k], symbol)
      {
        assert Later(s.live[order[k]], bites[k].quote);
      }
      BitesSolvent(cfg, s, bites, order, symbol, fees, n);
    } else {
      BitesSolvent(cfg, s, bites, [], symbol, fees, n);
    }
    AfterValues(m, s, trade, price, size, taker);
    WithoutLess(m, live', Drained(bites));
    SolventLess(m, s1, s', fees + TallyAll(m, MakerFills(cfg, bites, ts)).fees, n + |MakerFills(cfg, bites, ts)|);
  }

  lemma AfterValues(m: Rounding, s: Sim, trade: Symbol, price: real, size: real, taker: Side)
    requires AllHealthy(s.live)
    ensures forall q :: q in LiveAfter(s.live, TradeBites(s, trade, price, size, taker)) ==>
              BidValueOf(m)(q) >= 0.0 && AskValueOf()(q) >= 0.0
  {
    hide Bites, TradeBites, LiveAfter, Drained, Notional, OnGrid;
    var live' := LiveAfter(s.live, TradeBites(s, trade, price, size, taker));
    forall q | q in live'
      ensures BidValueOf(m)(q) >= 0.0 && AskValueOf()(q) >= 0.0
    {
      var i :| 0 <= i < |live'| && live'[i] == q;
      OrderAfterTrade(s, trade, price, size, taker, i);
      NotionalNonNegative(m, q.price, q.size);
    }
  }

  lemma NoiseSolvent(cfg: SimConfig, s: Sim, now: nat, noise: Noise, fees: real, n: nat)
    requires Sound(s) && GoodNoise(noise) && Solvent(cfg.rounding, s, fees, n)
    ensures Solvent(cfg.rounding, SilentCancels(cfg, DecayQueues(cfg, s, now, noise), now, noise), fees, n)
  {
    hide Solvent, BidsResting, AsksResting, DecayQueues, Elapsed, Sound;
    var m, s0 := cfg.rounding, DecayQueues(cfg, s, now, noise);
    DecayStep(cfg, s, now, noise);
    DecayLive(cfg, s, now, noise);
    SamePointwise(m, s.live, s0.live);
    SolventLess(m, s, s0, fees, n);
    SoundHealthy(s0);
    ValuesNonNegative(m, s0.live);
    WithoutLess(m, s0.live, noise.dropped);
    SolventLess(m, s0, SilentCancels(cfg, s0, now, noise), fees, n);
  }

  lemma ReactSolvent(cfg: SimConfig, s: Sim, ev: MarketEvent, symbol: Symbol, fees: real, n: nat)
    requires SpotMaker(cfg) && OnGrid(cfg.rounding, s.cash) && Sound(s) && LiveOn(s.live, symbol)
    requires Solvent(cfg.rounding, s, fees, n)
    ensures var (s', fills) := React(cfg, s, ev);
            Solvent(cfg.rounding, s', fees + TallyAll(cfg.rounding, fills).fees, n + |fills|)
  {
    hide Solvent, OnGrid, MatchTrade, Sound;
    SoundHealthy(s);
    match ev
    case BookUpdate(snap) =>
      SnapshotLive(s, snap);
      SamePointwise(cfg.rounding, s.live, UpdateBook(s, snap).live);
      SolventLess(cfg.rounding, s, UpdateBook(s, snap), fees, n);
    case Trade(trade, price, size, side, ts) => TradeSolvent(cfg, s, trade, price, size, side, ts, symbol, fees, n);
    case _ =>
  }

  lemma SubsetResting(pending: seq<PendingOp>, pending': seq<PendingOp>)
    requires RestingOps(pending) && forall o :: o in pending' ==> o in pending
    ensures RestingOps(pending')
  {
    forall i | 0 <= i < |pending'|
      ensures RestingOp(pending'[i])
    {
      assert pending'[i] in pending;
    }
  }

  /** Solvency through one market event, whatever chance does to queues and orders. */
  lemma EventSolvent(cfg: SimConfig, s: Sim, ev: MarketEvent, now: nat, noise: Noise, symbol: Symbol, fees: real,
                     n: nat)
    requires SpotMaker(cfg) && OnGrid(cfg.rounding, s.cash) && Sound(s) && GoodEvent(ev) && GoodNoise(noise)
    requires LiveOn(s.live, symbol) && OpsOn(s.pending, symbol) && RestingOps(s.pending)
    requires Solvent(cfg.rounding, s, fees, n)
    ensures var (s', fills) := OnMarketEvent(cfg, s, ev, now, noise);
            && Solvent(cfg.rounding, s', fees + TallyAll(cfg.rounding, fills).fees, n + |fills|)
            && RestingOps(s'.pending)
  {
    hide OnGrid, Solvent, Booked, DecayQueues, SilentCancels, ApplyAll, React, Accounted, OpOn, RestingOp, GoodOp,
      AllHealthy, GoodBooks, TallyAll;
    var s0 := DecayQueues(cfg, s, now, noise);
    var s1 := SilentCancels(cfg, s0, now, noise);
    DecayStep(cfg, s, now, noise);
    SilentStep(cfg, s0, now, noise);
    NoiseSolvent(cfg, s, now, noise, fees, n);
    AccountedOn(s.live, [], s0.live, symbol);
    AccountedOn(s0.live, [], s1.live, symbol);
    var k := DueCount(s1.pending, now);
    var ready, s1' := s1.pending[..k], s1.(pending := s1.pending[k..]);
    SolventLess(cfg.rounding, s1, s1', fees, n) by { SolventMeans(cfg.rounding, s1, fees, n); }
    ApplyAllSolvent(cfg, s1', ready, symbol, fees, n);
    ApplyAllBooked(cfg, s1', ready, symbol);
    ApplyPendingStep(cfg, s1, now);
    var (s2, f2) := ApplyPending(cfg, s1, now);
    BookedGrid(cfg.rounding, s1', s2, symbol, f2);
    AccountedOn(s1.live, ready, s2.live, symbol);
    ReactSolvent(cfg, s2, ev, symbol, fees, n);
    ReactStep(cfg, s2, ev);
    var (s3, f3) := React(cfg, s2, ev);
    assert f2 + f3 == f3;
    SubsetResting(s.pending, s3.pending);
  }

  lemma SolventMeans(m: Rounding, s: Sim, fees: real, n: nat)
    requires Solvent(m, s, fees, n)
    ensures Solvent(m, s, fees, n)
  {
  }

  /** With no fee and exact arithmetic, solvency means that cash is never negative and nothing is sold
      short. */
  lemma SolventIsUnlevered(s: Sim, n: nat)
    requires Solvent(Exact, s, 0.0, n) && AllHealthy(s.live)
    ensures s.cash >= BidsResting(Exact, s.live) >= 0.0 && s.assets >= AsksResting(s.live) >= 0.0
  {
    hide Notional;
    ValuesNonNegative(Exact, s.live);
    SumNonNegative(s.live, BidValueOf(Exact));
    SumNonNegative(s.live, AskValueOf());
  }

  // ---------------------------------------------------------------------------------------------
  // The cap on resting orders

  function OneOf(symbol: Symbol): LiveQuote -> real {
    (q: LiveQuote) => if q.symbol == symbol then 1.0 else 0.0
  }

  lemma {:induction false} RestingIsSum(live: seq<LiveQuote>, symbol: Symbol)
    ensures Resting(live, symbol) as real == Sum(live, OneOf(symbol))
  {
    if live != [] {
      RestingIsSum(live[1..], symbol);
    }
  }

  predicate Capped(cfg: SimConfig, live: seq<LiveQuote>, symbol: Symbol) {
    cfg.maxOpenOrders.Some? ==> Resting(live, symbol) <= cfg.maxOpenOrders.value
  }

  lemma RestingCounts(live: seq<LiveQuote>, symbol: Symbol, keep: LiveQuote -> bool, gone: set<nat>, q: LiveQuote)
    ensures Resting(Filter(live, keep), symbol) <= Resting(live, symbol)
    ensures Resting(Without(live, gone), symbol) <= Resting(live, symbol)
    ensures Resting(live + [q], symbol) == Resting(live, symbol) + if q.symbol == symbol then 1 else 0
  {
    RestingIsSum(live, symbol);
    RestingIsSum(Filter(live, keep), symbol);
    RestingIsSum(Without(live, gone), symbol);
    RestingIsSum(live + [q], symbol);
    SumFilter(live, keep, OneOf(symbol));
    SumWithout(live, gone, 0, OneOf(symbol));
    SumSnoc(live, q, OneOf(symbol));
  }

  lemma RestingRemoveCount(live: seq<LiveQuote>, symbol: Symbol, i: nat)
    requires i < |live|
    ensures Resting(RemoveAt(live, i), symbol) == Resting(live, symbol) - if live[i].symbol == symbol then 1 else 0
  {
    RestingIsSum(live, symbol);
    RestingIsSum(RemoveAt(live, i), symbol);
    SumRemove(live, i, OneOf(symbol));
  }

  lemma RestingSame(live: seq<LiveQuote>, live': seq<LiveQuote>, symbol: Symbol)
    requires |live'| == |live| && forall i :: 0 <= i < |live| ==> live'[i].symbol == live[i].symbol
    ensures Resting(live', symbol) == Resting(live, symbol)
  {
    RestingIsSum(live, symbol);
    RestingIsSum(live', symbol);
    SumPointwise(live', live, OneOf(symbol));
  }

  lemma PlaceCapped(cfg: SimConfig, s: Sim, intent: QuoteIntent, ts: nat, overrideId: Option<QuoteId>, submittedAt: nat,
                    symbol: Symbol)
    requires Capped(cfg, s.live, symbol)
    ensures Capped(cfg, Place(cfg, s, intent, ts, overrideId, submittedAt).0.live, symbol)
  {
    hide Round, WouldCross, SpotVerdict, FuturesVerdict, Resting, Settle, Consumed, DecrementAll;
    var s' := Place(cfg, s, intent, ts, overrideId, submittedAt).0;
    if Verdict(cfg, s, intent).None? && !intent.tif.Immediate() {
      RestingCounts(s.live, symbol, OtherThan(NIL_ID), {}, s'.live[|s.live|]);
    } else {
      TakeKeepsLive(cfg, s, intent, ts, submittedAt);
    }
  }

  lemma TakeKeepsLive(cfg: SimConfig, s: Sim, intent: QuoteIntent, ts: nat, submittedAt: nat)
    ensures Take(cfg, s, intent, ts, submittedAt).0.live == s.live
    ensures Take(cfg, s, intent, ts, submittedAt).0.rejections == s.rejections
  {
    hide Round, Consumed, Quantity, RoundedCost, AveragePrice, Bps, DecrementAll;
  }

  lemma ApplyCapped(cfg: SimConfig, s: Sim, p: PendingOp, symbol: Symbol)
    requires Capped(cfg, s.live, symbol)
    ensures Capped(cfg, Apply(cfg, s, p).0.live, symbol)
  {
    hide Verdict, Take, Rest, Resting, PurgePending;
    match p.op
    case PlaceOp(intent, overrideId) => PlaceCapped(cfg, s, intent, p.scheduledTs, overrideId, p.submittedAt, symbol);
    case ReplaceOp(id, intent) => ReplaceCapped(cfg, s, id, intent, p.scheduledTs, p.submittedAt, symbol);
    case CancelOp(id) => RestingCounts(s.live, symbol, OtherThan(id), {}, AnyQuote(symbol));
    case CancelAllOp => RestingCounts(s.live, symbol, OwnedBy(s.managers), {}, AnyQuote(symbol));
  }

  function AnyQuote(symbol: Symbol): LiveQuote {
    LiveQuote(NIL_ID, symbol, Bid, 1.0, 1.0, 0.0, 0, 0)
  }

  lemma ReplaceCapped(cfg: SimConfig, s: Sim, id: QuoteId, intent: QuoteIntent, ts: nat, submittedAt: nat,
                      symbol: Symbol)
    requires Capped(cfg, s.live, symbol)
    ensures Capped(cfg, Replace(cfg, s, id, intent, ts, submittedAt).0.live, symbol)
  {
    hide Verdict, Take, Resting, PurgePending;
    var i := IndexOf(s.live, id);
    var evicted := s.(live := if i < |s.live| then RemoveAt(s.live, i) else s.live,
                      pending := PurgePending(s.pending, id));
    if i < |s.live| {
      RestingRemoveCount(s.live, symbol, i);
      RestingCounts(evicted.live, symbol, OtherThan(NIL_ID), {}, s.live[i]);
    }
    PlaceCapped(cfg, evicted, intent, ts, Some(id), submittedAt, symbol);
    TakeKeepsLive(cfg, evicted, intent, ts, submittedAt);
  }

  lemma {:induction false} ApplyAllCapped(cfg: SimConfig, s: Sim, ready: seq<PendingOp>, symbol: Symbol)
    requires Capped(cfg, s.live, symbol)
    ensures Capped(cfg, ApplyAll(cfg, s, ready).0.live, symbol)
    decreases |ready|
  {
    if ready != [] {
      hide Apply, Capped;
      ApplyCapped(cfg, s, ready[0], symbol);
      ApplyAllCapped(cfg, Apply(cfg, s, ready[0]).0, ready[1..], symbol);
    }
  }

  /** No event takes a symbol past the cap on resting orders, immediate orders and replaces included. */
  lemma EventCapped(cfg: SimConfig, s: Sim, ev: MarketEvent, now: nat, noise: Noise, symbol: Symbol)
    requires Capped(cfg, s.live, symbol) && Sound(s) && GoodEvent(ev) && GoodNoise(noise)
    ensures Capped(cfg, OnMarketEvent(cfg, s, ev, now, noise).0.live, symbol)
  {
    hide DecayQueues, ApplyAll, Resting, TradeBites, SettleBites, LiveAfter, Drained, MakerFills, Sound, Accounted,
      UpdateBook, Elapsed;
    var s0 := DecayQueues(cfg, s, now, noise);
    DecayLive(cfg, s, now, noise);
    RestingSame(s.live, s0.live, symbol);
    DecayStep(cfg, s, now, noise);
    var s1 := SilentCancels(cfg, s0, now, noise);
    SilentStep(cfg, s0, now, noise);
    RestingCounts(s0.live, symbol, OtherThan(NIL_ID), noise.dropped, AnyQuote(symbol));
    var k := DueCount(s1.pending, now);
    ApplyAllCapped(cfg, s1.(pending := s1.pending[k..]), s1.pending[..k], symbol);
    ApplyPendingStep(cfg, s1, now);
    ReactCapped(cfg, ApplyPending(cfg, s1, now).0, ev, symbol);
  }

  lemma ReactCapped(cfg: SimConfig, s: Sim, ev: MarketEvent, symbol: Symbol)
    requires Capped(cfg, s.live, symbol) && Sound(s)
    ensures Capped(cfg, React(cfg, s, ev).0.live, symbol)
  {
    hide Resting, TradeBites, SettleBites, LiveAfter, Drained, MakerFills, Sound, UpdateBook;
    SoundHealthy(s);
    match ev
    case BookUpdate(snap) =>
      SnapshotLive(s, snap);
      RestingSame(s.live, UpdateBook(s, snap).live, symbol);
    case Trade(trade, price, size, side, ts) =>
      var bites := TradeBites(s, trade, price, size, side);
      var live' := LiveAfter(s.live, bites);
      forall i | 0 <= i < |s.live|
        ensures live'[i].symbol == s.live[i].symbol
      {
        OrderAfterTrade(s, trade, price, size, side, i);
      }
      RestingSame(s.live, live', symbol);
      RestingCounts(live', symbol, OtherThan(NIL_ID), Drained(bites), AnyQuote(symbol));
    case _ =>
  }

  /** A refused replace leaves every resting order as it was -- id, price, remaining size and queue
      position -- though the order was evicted before the gates ran. */
  lemma RefusedReplaceRestores(cfg: SimConfig, s: Sim, id: QuoteId, intent: QuoteIntent, ts: nat, submittedAt: nat)
    ensures var (s', fill) := Replace(cfg, s, id, intent, ts, submittedAt);
            |s'.rejections| > |s.rejections| ==>
              && multiset(s'.live) == multiset(s.live) && fill.None?
              && s' == s.(live := s'.live, pending := PurgePending(s.pending, id), rejections := s'.rejections)
  {
    hide Verdict, Take, PurgePending, RemoveAt;
    var i := IndexOf(s.live, id);
    var evicted := s.(live := if i < |s.live| then RemoveAt(s.live, i) else s.live,
                      pending := PurgePending(s.pending, id));
    TakeKeepsLive(cfg, evicted, intent, ts, submittedAt);
    if i < |s.live| {
      MovedToBack(s.live, i);
    }
  }

  /** The order put back rests last, so among orders at its price it is now the newest. */
  lemma RefusedReplaceGoesLast(cfg: SimConfig, s: Sim, id: QuoteId, intent: QuoteIntent, ts: nat, submittedAt: nat,
                               i: nat)
    requires |Replace(cfg, s, id, intent, ts, submittedAt).0.rejections| > |s.rejections|
    requires i <= |s.live| && (i < |s.live| ==> s.live[i].id == id) && forall k :: 0 <= k < i ==> s.live[k].id != id
    ensures Replace(cfg, s, id, intent, ts, submittedAt).0.live
            == if i < |s.live| then s.live[..i] + s.live[i + 1..] + [s.live[i]] else s.live
  {
    hide Verdict, Take, PurgePending;
    var evicted := s.(live := if i < |s.live| then RemoveAt(s.live, i) else s.live,
                      pending := PurgePending(s.pending, id));
    TakeKeepsLive(cfg, evicted, intent, ts, submittedAt);
    assert i == IndexOf(s.live, id);
  }

  lemma MovedToBack(live: seq<LiveQuote>, i: nat)
    requires i < |live|
    ensures multiset(RemoveAt(live, i) + [live[i]]) == multiset(live)
  {
    assert live == live[..i] + [live[i]] + live[i + 1..];
  }
}
