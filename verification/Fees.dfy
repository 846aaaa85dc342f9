/** Whether the cash reserved for maker fees lasts.  The gate reserves a new bid with its maker fee, but
    what the resting bids commit is read without theirs, and an immediate order reserves the maker fee
    and pays the taker fee.  Here, in exact arithmetic, is exactly when cash stays enough all the same. */
module Fees {
  import opened Decimals
  import opened Core
  import opened Book
  import opened Venue
  import opened Matching
  import opened Lifecycle
  import opened Balances
  import opened Solvency
  import opened Runs
  import opened Cover

  /** Exact spot trading with a maker fee, or rebate, of no more than all that a fill is worth. */
  predicate ExactSpot(cfg: SimConfig) {
    cfg.spot && cfg.rounding.Exact? && -10000 <= cfg.makerBps <= 10000
  }

  /** The resting bids with the maker fees their fills will charge. */
  function BidsWithFees(cfg: SimConfig, live: seq<LiveQuote>): real {
    Reserved(Exact, BidsResting(Exact, live), cfg.makerBps)
  }

  /** Cash covers every resting bid and its maker fee, and holdings cover every resting ask. */
  predicate Backed(cfg: SimConfig, s: Sim) {
    s.cash >= BidsWithFees(cfg, s.live) && s.assets >= AsksResting(s.live)
  }

  lemma ReservedGrows(x: real, y: real, bps: int)
    requires x <= y && bps >= -10000
    ensures Reserved(Exact, x, bps) <= Reserved(Exact, y, bps)
    ensures 0.0 <= x ==> 0.0 <= Reserved(Exact, x, bps)
    ensures 0.0 <= x && bps <= 0 ==> Reserved(Exact, x, bps) <= x
  {
    MulMonotone(x, y, 1.0 + bps as real / 10000.0);
    if 0.0 <= x {
      MulMonotone(0.0, x, 1.0 + bps as real / 10000.0);
      if bps <= 0 {
        MulMonotone(1.0 + bps as real / 10000.0, 1.0, x);
        assert x * (1.0 + bps as real / 10000.0) == (1.0 + bps as real / 10000.0) * x;
      }
    }
  }

  lemma ReservedAdds(x: real, y: real, bps: int)
    ensures Reserved(Exact, x + y, bps) == Reserved(Exact, x, bps) + Reserved(Exact, y, bps)
    ensures Reserved(Exact, x - y, bps) == Reserved(Exact, x, bps) - Reserved(Exact, y, bps)
  {
    Distribute(1.0 + bps as real / 10000.0, x, y);
  }

  /** Backed cash is never negative, and neither are holdings. */
  lemma BackedIsUnlevered(cfg: SimConfig, s: Sim)
    requires ExactSpot(cfg) && Backed(cfg, s) && AllHealthy(s.live)
    ensures s.cash >= BidsWithFees(cfg, s.live) >= 0.0 && s.assets >= AsksResting(s.live) >= 0.0
  {
    hide Notional, Reserved;
    RestingNonNegative(s.live);
    ReservedGrows(BidsResting(Exact, s.live), BidsResting(Exact, s.live), cfg.makerBps);
  }

  lemma RestingNonNegative(live: seq<LiveQuote>)
    requires AllHealthy(live)
    ensures BidsResting(Exact, live) >= 0.0 && AsksResting(live) >= 0.0
  {
    hide Notional;
    ValuesNonNegative(Exact, live);
    SumNonNegative(live, BidValueOf(Exact));
    SumNonNegative(live, AskValueOf());
  }

  lemma BackedLess(cfg: SimConfig, s: Sim, s': Sim)
    requires ExactSpot(cfg) && Backed(cfg, s) && s'.cash == s.cash && s'.assets == s.assets
    requires BidsResting(Exact, s'.live) <= BidsResting(Exact, s.live) && AsksResting(s'.live) <= AsksResting(s.live)
    ensures Backed(cfg, s')
  {
    hide BidsResting, AsksResting, Reserved;
    ReservedGrows(BidsResting(Exact, s'.live), BidsResting(Exact, s.live), cfg.makerBps);
  }

  // ---------------------------------------------------------------------------------------------
  // One operation

  /** An admitted bid leaves room for the fees of all that then rests; an admitted immediate order that
      fills leaves the cash and the holdings that what rests counts on. */
  predicate HasRoom(cfg: SimConfig, s: Sim, intent: QuoteIntent) {
    var cost, qty := RoundedCost(Exact, WalkOf(s, intent)), Quantity(WalkOf(s, intent));
    if Verdict(cfg, s, intent).Some? then true
    else if !intent.tif.Immediate() then
      intent.side.Bid? ==>
        s.cash >= Reserved(Exact, BidsResting(Exact, s.live) + Notional(Exact, intent.price, intent.size), cfg.makerBps)
    else WouldFill(s, intent) ==>
      if intent.side.Bid? then s.cash - cost - TakerFee(cfg, cost) >= BidsWithFees(cfg, s.live)
      else s.cash + cost - TakerFee(cfg, cost) >= BidsWithFees(cfg, s.live) && s.assets - qty >= AsksResting(s.live)
  }

  predicate OpHasRoom(cfg: SimConfig, s: Sim, p: PendingOp) {
    match IntentOf(p)
    case None => true
    case Some(intent) => HasRoom(cfg, Facing(s, p), intent)
  }

  lemma PlaceBackedIff(cfg: SimConfig, s: Sim, intent: QuoteIntent, ts: nat, overrideId: Option<QuoteId>,
                       submittedAt: nat, symbol: Symbol)
    requires ExactSpot(cfg) && GoodIntent(intent) && intent.symbol == symbol && LiveOn(s.live, symbol) && Backed(cfg, s)
    ensures Backed(cfg, Place(cfg, s, intent, ts, overrideId, submittedAt).0) <==> HasRoom(cfg, s, intent)
  {
    hide Reserved, Notional, BidsResting, AsksResting, WouldCross, Resting, Take, WalkOf, WouldFill, TakerFee,
      RoundedCost, Quantity;
    var s' := Place(cfg, s, intent, ts, overrideId, submittedAt).0;
    if Verdict(cfg, s, intent).None? {
      if intent.tif.Immediate() {
        TakeBackedIff(cfg, s, intent, ts, submittedAt);
      } else {
        CommitmentIsResting(Exact, s.live, symbol);
        RestingSnoc(Exact, s.live, s'.live[|s.live|]);
      }
    }
  }

  lemma TakeBackedIff(cfg: SimConfig, s: Sim, intent: QuoteIntent, ts: nat, submittedAt: nat)
    requires ExactSpot(cfg) && GoodIntent(intent) && Backed(cfg, s) && intent.tif.Immediate()
             && Verdict(cfg, s, intent).None?
    ensures Backed(cfg, Take(cfg, s, intent, ts, submittedAt).0) <==> HasRoom(cfg, s, intent)
  {
    hide Reserved, Verdict, BidsResting, AsksResting, Take, WalkOf, WouldFill, TakerFee, RoundedCost, Quantity;
    TakeBalances(cfg, s, intent, ts, submittedAt);
    WalkPositive(s, intent);
  }

  /** One operation keeps every resting order backed with its fee if and only if it leaves room. */
  lemma ApplyBackedIff(cfg: SimConfig, s: Sim, p: PendingOp, symbol: Symbol)
    requires ExactSpot(cfg) && GoodOp(p) && OpOn(p, symbol) && LiveOn(s.live, symbol) && AllHealthy(s.live)
             && Backed(cfg, s)
    ensures Backed(cfg, Apply(cfg, s, p).0) <==> OpHasRoom(cfg, s, p)
  {
    hide Backed, BidsResting, AsksResting, HasRoom, Verdict, Rest, Take, PurgePending, BidValue, AskValue;
    match p.op
    case PlaceOp(intent, overrideId) =>
      PlaceBackedIff(cfg, s, intent, p.scheduledTs, overrideId, p.submittedAt, symbol);
    case ReplaceOp(id, intent) => ReplaceBackedIff(cfg, s, p, id, intent, symbol);
    case CancelOp(id) =>
      FilterLess(Exact, s.live, OtherThan(id));
      BackedLess(cfg, s, CancelId(s, id));
    case CancelAllOp =>
      FilterLess(Exact, s.live, OwnedBy(s.managers));
      BackedLess(cfg, s, Apply(cfg, s, p).0);
  }

  lemma ReplaceBackedIff(cfg: SimConfig, s: Sim, p: PendingOp, id: QuoteId, intent: QuoteIntent, symbol: Symbol)
    requires p.op == ReplaceOp(id, intent)
    requires ExactSpot(cfg) && GoodIntent(intent) && intent.symbol == symbol && LiveOn(s.live, symbol)
    requires AllHealthy(s.live) && Backed(cfg, s)
    ensures Backed(cfg, Replace(cfg, s, id, intent, p.scheduledTs, p.submittedAt).0) <==> OpHasRoom(cfg, s, p)
  {
    hide Backed, BidsResting, AsksResting, Verdict, Take, PurgePending, BidValue, AskValue;
    var i, facing := IndexOf(s.live, id), Facing(s, p);
    var s' := Replace(cfg, s, id, intent, p.scheduledTs, p.submittedAt).0;
    EvictedLess(s, p);
    BackedLess(cfg, s, facing);
    PlaceBackedIff(cfg, facing, intent, p.scheduledTs, Some(id), p.submittedAt, symbol);
    TakeRejects(cfg, facing, intent, p.scheduledTs, p.submittedAt);
    if Verdict(cfg, facing, intent).Some? && i < |s.live| {
      RestingRemoved(Exact, s.live, i);
      RestingSnoc(Exact, facing.live, s.live[i]);
      BackedLess(cfg, s, s');
    }
  }

  lemma EvictedLess(s: Sim, p: PendingOp)
    requires AllHealthy(s.live)
    ensures BidsResting(Exact, Facing(s, p).live) <= BidsResting(Exact, s.live)
    ensures AsksResting(Facing(s, p).live) <= AsksResting(s.live)
  {
    hide BidsResting, AsksResting, PurgePending, BidValue, AskValue;
    if p.op.ReplaceOp? && IndexOf(s.live, p.op.id) < |s.live| {
      var i := IndexOf(s.live, p.op.id);
      RestingRemoved(Exact, s.live, i);
      ValuesNonNegative(Exact, s.live);
      assert s.live[i] in s.live && BidValueOf(Exact)(s.live[i]) >= 0.0 && AskValueOf()(s.live[i]) >= 0.0;
    }
  }

  // ---------------------------------------------------------------------------------------------
  // Trades

  lemma ExactFee(cfg: SimConfig, price: real, qty: real)
    requires ExactSpot(cfg) && price >= 0.0 && qty >= 0.0
    ensures var v, fee := Notional(Exact, price, qty), MakerFee(cfg, price, qty);
            fee <= v && v + fee == Reserved(Exact, v, cfg.makerBps)
  {
    var v := price * qty;
    MulMonotone(0.0, price, qty);
    MulMonotone(cfg.makerBps as real / 10000.0, 1.0, v);
    assert v * cfg.makerBps as real / 10000.0 == cfg.makerBps as real / 10000.0 * v;
    assert v * (1.0 + cfg.makerBps as real / 10000.0) == v + cfg.makerBps as real / 10000.0 * v;
  }

  /** A maker fill costs exactly what was reserved for what it fills. */
  lemma BiteBacked(cfg: SimConfig, s: Sim, b: Bite, symbol: Symbol)
    requires ExactSpot(cfg) && BiteFits(s.live, b, symbol) && Backed(cfg, s)
    ensures Backed(cfg, AfterBite(cfg, s, b))
  {
    hide Notional, MakerFee, BidsResting, AsksResting, BookAfter, Reserved;
    var q, q' := s.live[b.index], b.quote;
    RestingUpdated(Exact, s.live, b.index, q');
    NotionalSplits(Exact, q.price, q.size, b.filled);
    ReservedAdds(BidsResting(Exact, s.live), Notional(Exact, q.price, b.filled), cfg.makerBps);
    ExactFee(cfg, q.price, b.filled);
    NotionalNonNegative(Exact, q.price, b.filled);
  }

  lemma {:induction false} BitesBacked(cfg: SimConfig, s: Sim, bites: seq<Bite>, order: seq<nat>, symbol: Symbol)
    requires ExactSpot(cfg) && Backed(cfg, s)
    requires Indices(order, |s.live|) && NoRepeats(order) && |bites| <= |order|
    requires forall k :: 0 <= k < |bites| ==> bites[k].index == order[k] && BiteFits(s.live, bites[k], symbol)
    ensures Backed(cfg, SettleBites(cfg, s, bites).(live := LiveAfter(s.live, bites)))
    decreases |bites|
  {
    hide Backed, SettleBite;
    if bites == [] {
      assert s.(live := LiveAfter(s.live, bites)) == s;
    } else {
      var b := bites[0];
      var s1 := AfterBite(cfg, s, b);
      BiteBacked(cfg, s, b, symbol);
      SettleLive(cfg, s, s.live, b);
      FitsTail(s.live, b.quote, bites, order, symbol);
      BitesBacked(cfg, s1, bites[1..], order[1..], symbol);
      SettleAllLive(cfg, SettleBite(cfg, s, b), s1.live, bites[1..]);
      assert LiveAfter(s.live, bites) == LiveAfter(s1.live, bites[1..]);
    }
  }

  lemma TradeBacked(cfg: SimConfig, s: Sim, trade: Symbol, price: real, size: real, taker: Side, ts: nat,
                    symbol: Symbol)
    requires ExactSpot(cfg) && AllHealthy(s.live) && LiveOn(s.live, symbol) && Backed(cfg, s)
    ensures Backed(cfg, MatchTrade(cfg, s, trade, price, size, taker, ts).0)
  {
    hide Backed, Bites, SettleBites, LiveAfter, Drained, Priority, BidsResting, AsksResting, IsEligible, Exhausts,
      InOrder;
    var bites := TradeBites(s, trade, price, size, taker);
    var live' := LiveAfter(s.live, bites);
    var s1 := SettleBites(cfg, s, bites).(live := live');
    if price > 0.0 && size > 0.0 {
      var order := TradeOutcome(s, trade, price, size, taker);
      forall k | 0 <= k < |bites|
        ensures bites[k].index == order[k] && BiteFits(s.live, bites[k], symbol)
      {
        assert Later(s.live[order[k]], bites[k].quote);
      }
      BitesBacked(cfg, s, bites, order, symbol);
    } else {
      BitesBacked(cfg, s, bites, [], symbol);
    }
    AfterValues(Exact, s, trade, price, size, taker);
    WithoutLess(Exact, live', Drained(bites));
    BackedLess(cfg, s1, MatchTrade(cfg, s, trade, price, size, taker, ts).0);
  }

  lemma ReactBacked(cfg: SimConfig, s: Sim, ev: MarketEvent, symbol: Symbol)
    requires ExactSpot(cfg) && Sound(s) && LiveOn(s.live, symbol) && Backed(cfg, s)
    ensures Backed(cfg, React(cfg, s, ev).0)
  {
    hide Backed, MatchTrade, Sound;
    SoundHealthy(s);
    match ev
    case BookUpdate(snap) =>
      SnapshotLive(s, snap);
      SamePointwise(Exact, s.live, UpdateBook(s, snap).live);
      BackedLess(cfg, s, UpdateBook(s, snap));
    case Trade(trade, price, size, side, ts) => TradeBacked(cfg, s, trade, price, size, side, ts, symbol);
    case _ =>
  }

  lemma NoiseBacked(cfg: SimConfig, s: Sim, now: nat, noise: Noise)
    requires ExactSpot(cfg) && Sound(s) && GoodNoise(noise) && Backed(cfg, s)
    ensures Backed(cfg, SilentCancels(cfg, DecayQueues(cfg, s, now, noise), now, noise))
  {
    hide Backed, BidsResting, AsksResting, DecayQueues, Elapsed, Sound;
    var s0 := DecayQueues(cfg, s, now, noise);
    DecayStep(cfg, s, now, noise);
    DecayLive(cfg, s, now, noise);
    SamePointwise(Exact, s.live, s0.live);
    BackedLess(cfg, s, s0);
    SoundHealthy(s0);
    ValuesNonNegative(Exact, s0.live);
    WithoutLess(Exact, s0.live, noise.dropped);
    BackedLess(cfg, s0, SilentCancels(cfg, s0, now, noise));
  }

  // ---------------------------------------------------------------------------------------------
  // Whole runs

  /** Every operation leaves room when its turn comes. */
  predicate OpsHaveRoom(cfg: SimConfig, s: Sim, ready: seq<PendingOp>)
    decreases |ready|
  {
    ready == [] || (OpHasRoom(cfg, s, ready[0]) && OpsHaveRoom(cfg, Apply(cfg, s, ready[0]).0, ready[1..]))
  }

  /** What rests is backed after each of these operations. */
  predicate OpsBacked(cfg: SimConfig, s: Sim, ready: seq<PendingOp>)
    decreases |ready|
  {
    ready == []
    || (var s1 := Apply(cfg, s, ready[0]).0;
        Backed(cfg, s1) && OpsBacked(cfg, s1, ready[1..]))
  }

  lemma {:induction false} OpsBackedIff(cfg: SimConfig, s: Sim, ready: seq<PendingOp>, symbol: Symbol)
    requires ExactSpot(cfg) && OpsOn(ready, symbol) && LiveOn(s.live, symbol) && Sound(s) && GoodPending(ready)
    requires Backed(cfg, s)
    ensures OpsBacked(cfg, s, ready) <==> OpsHaveRoom(cfg, s, ready)
    ensures OpsBacked(cfg, s, ready) ==> Backed(cfg, ApplyAll(cfg, s, ready).0)
    decreases |ready|
  {
    if ready != [] {
      hide Backed, Apply, OpHasRoom, GoodOp, OpOn, Accounted, Sound;
      var s1 := Apply(cfg, s, ready[0]).0;
      SoundHealthy(s);
      ApplyBackedIff(cfg, s, ready[0], symbol);
      ApplyStep(cfg, s, ready[0]);
      AccountedOn(s.live, [ready[0]], s1.live, symbol);
      if Backed(cfg, s1) {
        OpsBackedIff(cfg, s1, ready[1..], symbol);
      }
    }
  }

  /** Every order of the run leaves room when its turn comes. */
  predicate RunHasRoom(cfg: SimConfig, s: Sim, turns: seq<Turn>)
    decreases |turns|
  {
    turns == []
    || (var init, t := turns[..|turns| - 1], turns[|turns| - 1];
        var s1 := RunSim(cfg, s, init).0;
        RunHasRoom(cfg, s, init) && OpsHaveRoom(cfg, BeforeOps(cfg, s1, t), DueOps(cfg, s1, t)))
  }

  /** What rests is backed after every operation and every event of the run. */
  predicate RunBacked(cfg: SimConfig, s: Sim, turns: seq<Turn>)
    decreases |turns|
  {
    turns == []
    || (var init, t := turns[..|turns| - 1], turns[|turns| - 1];
        var s1 := RunSim(cfg, s, init).0;
        && RunBacked(cfg, s, init)
        && OpsBacked(cfg, BeforeOps(cfg, s1, t), DueOps(cfg, s1, t))
        && Backed(cfg, RunSim(cfg, s, turns).0))
  }

  lemma TurnBackedIff(cfg: SimConfig, s: Sim, t: Turn, symbol: Symbol)
    requires ExactSpot(cfg) && Sound(s) && LiveOn(s.live, symbol) && OpsOn(s.pending, symbol)
    requires GoodTurn(t) && TurnOn(t, symbol) && Backed(cfg, s)
    ensures OpsBacked(cfg, BeforeOps(cfg, s, t), DueOps(cfg, s, t))
            <==> OpsHaveRoom(cfg, BeforeOps(cfg, s, t), DueOps(cfg, s, t))
    ensures OpsBacked(cfg, BeforeOps(cfg, s, t), DueOps(cfg, s, t)) ==> Backed(cfg, Step(cfg, s, t).0)
  {
    hide Backed, DecayQueues, SilentCancels, ApplyAll, React, Accounted, OpOn, GoodOp, AllHealthy, GoodBooks, SubmitAll,
      GoodTurn, TurnOn, OpsBacked, OpsHaveRoom, ScheduledOp;
    var now := EventTs(t.event);
    var s0 := SubmitAll(cfg, s, t.orders, now);
    SubmitSound(cfg, s, t);
    SubmitOn(cfg, s, t, symbol);
    SubmitFrame(cfg, s, t.orders, now);
    TurnParts(t);
    BackedSame(cfg, s, s0);
    DecayStep(cfg, s0, now, t.noise);
    SilentStep(cfg, DecayQueues(cfg, s0, now, t.noise), now, t.noise);
    NoiseBacked(cfg, s0, now, t.noise);
    AccountedOn(s0.live, [], DecayQueues(cfg, s0, now, t.noise).live, symbol);
    var s1 := SilentCancels(cfg, DecayQueues(cfg, s0, now, t.noise), now, t.noise);
    AccountedOn(DecayQueues(cfg, s0, now, t.noise).live, [], s1.live, symbol);
    var s1', ready := BeforeOps(cfg, s, t), DueOps(cfg, s, t);
    BackedSame(cfg, s1, s1');
    OpsBackedIff(cfg, s1', ready, symbol);
    if OpsBacked(cfg, s1', ready) {
      ApplyPendingStep(cfg, s1, now);
      var s2 := ApplyPending(cfg, s1, now).0;
      AccountedOn(s1.live, ready, s2.live, symbol);
      ReactBacked(cfg, s2, t.event, symbol);
    }
  }

  lemma BackedSame(cfg: SimConfig, s: Sim, s': Sim)
    requires Backed(cfg, s) && s'.cash == s.cash && s'.assets == s.assets && s'.live == s.live
    ensures Backed(cfg, s')
  {
  }

  /** In exact arithmetic a spot run on one symbol, resting and immediate orders mixed, keeps cash enough
      for every resting bid with its maker fee, and holdings enough for every resting ask, after every
      operation and every event, if and only if every order in it left room for that when it was admitted
      or filled; and then neither cash nor holdings are ever negative, all fees paid. */
  lemma {:induction false} BackedIffRoom(cfg: SimConfig, s: Sim, turns: seq<Turn>, symbol: Symbol)
    requires ExactSpot(cfg) && Sound(s) && LiveOn(s.live, symbol) && OpsOn(s.pending, symbol) && Backed(cfg, s)
    requires GoodTurns(turns) && TurnsOn(turns, symbol)
    ensures RunBacked(cfg, s, turns) <==> RunHasRoom(cfg, s, turns)
    ensures RunBacked(cfg, s, turns) ==>
              var s' := RunSim(cfg, s, turns).0;
              && Backed(cfg, s')
              && s'.cash >= BidsWithFees(cfg, s'.live) >= 0.0
              && s'.assets >= AsksResting(s'.live) >= 0.0
    decreases |turns|
  {
    hide Backed, Booked, Sound, GoodTurn, TurnOn, LiveOn, OpsOn, Step, BeforeOps, DueOps, OpsBacked, OpsHaveRoom,
      RunSim, BidsResting, AsksResting;
    RunUnfolds(cfg, s, turns);
    RunBooked(cfg, s, turns, symbol) by { ExactGrid(cfg, s.cash); }
    SoundHealthy(RunSim(cfg, s, turns).0);
    if turns != [] {
      var init, t := turns[..|turns| - 1], turns[|turns| - 1];
      BackedIffRoom(cfg, s, init, symbol);
      RunBooked(cfg, s, init, symbol) by { ExactGrid(cfg, s.cash); }
      if RunBacked(cfg, s, init) {
        TurnBackedIff(cfg, RunSim(cfg, s, init).0, t, symbol);
      }
    }
    if RunBacked(cfg, s, turns) {
      BackedIsUnlevered(cfg, RunSim(cfg, s, turns).0);
    }
  }

  lemma ExactGrid(cfg: SimConfig, x: real)
    requires ExactSpot(cfg)
    ensures OnGrid(cfg.rounding, x)
  {
  }

  /** How far the gate falls short: a bid it admits leaves room exactly if cash also holds the maker fees
      of the bids already resting.  Without a maker fee, or with a rebate, every bid it admits does. */
  lemma GateMissesFees(cfg: SimConfig, s: Sim, intent: QuoteIntent, symbol: Symbol)
    requires ExactSpot(cfg) && GoodIntent(intent) && intent.symbol == symbol && LiveOn(s.live, symbol)
    requires !intent.tif.Immediate() && intent.side.Bid? && Verdict(cfg, s, intent).None?
    ensures HasRoom(cfg, s, intent)
            <==> s.cash >= BidsWithFees(cfg, s.live)
                           + Reserved(Exact, Notional(Exact, intent.price, intent.size), cfg.makerBps)
    ensures cfg.makerBps <= 0 && AllHealthy(s.live) ==> HasRoom(cfg, s, intent)
  {
    hide Notional, BidsResting, WouldCross, Resting, WalkOf, WouldFill, TakerFee, RoundedCost, Quantity;
    var notional := Notional(Exact, intent.price, intent.size);
    ReservedAdds(BidsResting(Exact, s.live), notional, cfg.makerBps);
    CommitmentIsResting(Exact, s.live, symbol);
    if cfg.makerBps <= 0 && AllHealthy(s.live) {
      RestingNonNegative(s.live);
      ReservedGrows(BidsResting(Exact, s.live), BidsResting(Exact, s.live), cfg.makerBps);
    }
  }
}
