/** Spot solvency with immediate orders: exactly which immediate fills it survives, at one fill and over
    whole runs. */
module Cover {
  import opened Decimals
  import opened Core
  import opened Book
  import opened Pnl
  import opened Venue
  import opened Matching
  import opened Lifecycle
  import opened Balances
  import opened Solvency
  import opened Runs

  /** What an immediate order would consume from the book as it stands. */
  function WalkOf(s: Sim, intent: QuoteIntent): seq<Level> {
    Consumed(BookOf(s.books, intent.symbol), intent.side, intent.size, intent.price)
  }

  /** It would fill: something is within its limit, and everything if it is fill-or-kill. */
  predicate WouldFill(s: Sim, intent: QuoteIntent) {
    WalkOf(s, intent) != [] && !(intent.tif.FOK? && Quantity(WalkOf(s, intent)) < intent.size)
  }

  function TakerFee(cfg: SimConfig, cost: real): real {
    Round(cfg.rounding, Bps(cost, cfg.takerBps))
  }

  /** Before the fill: a buy leaves the cash that the resting bids count on, a sale the holdings that the
      resting asks count on.  (The fees are not negative whenever prices are not.) */
  predicate Covered(cfg: SimConfig, s: Sim, intent: QuoteIntent, fees: real, n: nat) {
    var m, walk := cfg.rounding, WalkOf(s, intent);
    match intent.side
    case Bid =>
      && BidsResting(m, s.live) <= s.cash + fees - RoundedCost(m, walk) + 3.0 * Slack(m, n + 1)
      && fees + TakerFee(cfg, RoundedCost(m, walk)) >= 0.0
    case Ask => AsksResting(s.live) <= Round(m, s.assets - Quantity(walk)) + Slack(m, n + 1)
  }

  lemma TakerFeeNonNegative(cfg: SimConfig, cost: real)
    requires cost >= 0.0
    ensures TakerFee(cfg, cost) >= 0.0
  {
    hide Round;
    MulMonotone(0.0, cost, cfg.takerBps as real);
    RoundNonNegative(cfg.rounding, Bps(cost, cfg.takerBps));
  }

  /** A seller is paid at least its limit for everything. */
  lemma {:induction false} CostNonNegative(m: Rounding, consumed: seq<Level>)
    requires forall l :: l in consumed ==> l.price >= 0.0 && l.size >= 0.0
    ensures RoundedCost(m, consumed) >= 0.0
  {
    if consumed != [] {
      hide Notional;
      assert consumed[0] in consumed;
      NotionalNonNegative(m, consumed[0].price, consumed[0].size);
      CostNonNegative(m, consumed[1..]);
    }
  }

  lemma SaleIsPaid(m: Rounding, s: Sim, intent: QuoteIntent)
    requires intent.side.Ask? && intent.price >= 0.0
    ensures RoundedCost(m, WalkOf(s, intent)) >= 0.0
  {
    hide Walk, SortedLevels;
    var walk := WalkOf(s, intent);
    WalkWithinLimit(Ask, SortedLevels(Ask, BookOf(s.books, intent.symbol).Levels(Bid)), intent.size, intent.price);
    CostNonNegative(m, walk);
  }

  /** Cash and holdings after an immediate fill. */
  lemma TakeBalances(cfg: SimConfig, s: Sim, intent: QuoteIntent, ts: nat, submittedAt: nat)
    requires cfg.spot && OnGrid(cfg.rounding, s.cash)
    ensures var (s', fill) := Take(cfg, s, intent, ts, submittedAt);
            var m, cost, qty := cfg.rounding, RoundedCost(cfg.rounding, WalkOf(s, intent)), Quantity(WalkOf(s, intent));
            && (fill.Some? <==> WouldFill(s, intent)) && s'.live == s.live
            && (fill.None? ==> s'.cash == s.cash && s'.assets == s.assets)
            && (fill.Some? ==>
                  && fill.value.fee == TakerFee(cfg, cost)
                  && s'.cash == s.cash - (if intent.side.Bid? then cost else -cost) - TakerFee(cfg, cost)
                  && s'.assets == Round(m, if intent.side.Bid? then s.assets + qty else s.assets - qty))
  {
    hide Round, OnGrid, Consumed, Quantity, RoundedCost, DecrementAll, AveragePrice, Bps;
    var m, cost := cfg.rounding, RoundedCost(cfg.rounding, WalkOf(s, intent));
    RoundedCostGrid(m, WalkOf(s, intent));
    RoundGridSum(m, s.cash, cost);
    RoundNear(m, Bps(cost, cfg.takerBps));
    RoundGridSum(m, if intent.side.Bid? then s.cash - cost else s.cash + cost, TakerFee(cfg, cost));
  }

  /** A filled immediate order keeps the account solvent if and only if it is covered. */
  lemma TakeSolventIff(cfg: SimConfig, s: Sim, intent: QuoteIntent, ts: nat, submittedAt: nat, fees: real, n: nat)
    requires cfg.spot && OnGrid(cfg.rounding, s.cash) && Solvent(cfg.rounding, s, fees, n) && intent.price >= 0.0
    ensures var (s', fill) := Take(cfg, s, intent, ts, submittedAt);
            var fills := Listed(fill);
            Solvent(cfg.rounding, s', fees + TallyAll(cfg.rounding, fills).fees, n + |fills|)
            <==> (WouldFill(s, intent) ==> Covered(cfg, s, intent, fees, n))
  {
    hide Round, OnGrid, Take, WalkOf, Quantity, RoundedCost, HalfUlp, Slack, BidsResting, AsksResting, TakerFee,
      TallyAll, WouldFill, CashSlip, Delta, Flow;
    var m, walk := cfg.rounding, WalkOf(s, intent);
    var (s', fill) := Take(cfg, s, intent, ts, submittedAt);
    TakeBalances(cfg, s, intent, ts, submittedAt);
    TallyNone(m);
    if fill.Some? {
      FeeTallied(cfg, fill.value, RoundedCost(m, walk));
      SlackGrows(m, n);
      WalkPositive(s, intent);
      RoundNear(m, s.assets + Quantity(walk));
      SlackNonNegative(m, n);
      if intent.side.Ask? {
        SaleIsPaid(m, s, intent);
        TakerFeeNonNegative(cfg, RoundedCost(m, walk));
      }
    }
  }

  lemma FeeTallied(cfg: SimConfig, f: Fill, cost: real)
    requires f.fee == TakerFee(cfg, cost)
    ensures TallyAll(cfg.rounding, [f]).fees == f.fee
  {
    hide Round, OnGrid, Bps, Flow, Delta, CashSlip;
    TallySingle(cfg.rounding, f);
    RoundNear(cfg.rounding, Bps(cost, cfg.takerBps));
    RoundFixesGrid(cfg.rounding, f.fee);
  }

  lemma WalkPositive(s: Sim, intent: QuoteIntent)
    ensures Quantity(WalkOf(s, intent)) >= 0.0
  {
    hide Consumed;
    var walk := WalkOf(s, intent);
    ConsumedPositive(BookOf(s.books, intent.symbol), intent.side, intent.size, intent.price);
    if walk == [] {
      assert Quantity([]) == 0.0;
    }
  }

  // ---------------------------------------------------------------------------------------------
  // One operation

  /** The state in which an operation's order meets the gates. */
  function Facing(s: Sim, p: PendingOp): Sim {
    match p.op
    case ReplaceOp(id, _) =>
      var i := IndexOf(s.live, id);
      s.(live := if i < |s.live| then RemoveAt(s.live, i) else s.live, pending := PurgePending(s.pending, id))
    case _ => s
  }

  function IntentOf(p: PendingOp): Option<QuoteIntent> {
    match p.op
    case PlaceOp(intent, _) => Some(intent)
    case ReplaceOp(_, intent) => Some(intent)
    case _ => None
  }

  /** If the operation is an immediate order that the gates admit and the book fills, it is covered. */
  predicate OpCovered(cfg: SimConfig, s: Sim, p: PendingOp, fees: real, n: nat) {
    var facing := Facing(s, p);
    match IntentOf(p)
    case None => true
    case Some(intent) =>
      intent.tif.Immediate() && Verdict(cfg, facing, intent).None? && WouldFill(facing, intent)
      ==> Covered(cfg, facing, intent, fees, n)
  }

  lemma PlaceSolventIff(cfg: SimConfig, s: Sim, intent: QuoteIntent, ts: nat, overrideId: Option<QuoteId>,
                        submittedAt: nat, symbol: Symbol, fees: real, n: nat)
    requires SpotMaker(cfg) && GoodIntent(intent) && intent.symbol == symbol && LiveOn(s.live, symbol)
    requires OnGrid(cfg.rounding, s.cash) && Solvent(cfg.rounding, s, fees, n)
    ensures var (s', fill) := Place(cfg, s, intent, ts, overrideId, submittedAt);
            var fills := Listed(fill);
            Solvent(cfg.rounding, s', fees + TallyAll(cfg.rounding, fills).fees, n + |fills|)
            <==> (intent.tif.Immediate() && Verdict(cfg, s, intent).None? && WouldFill(s, intent)
                  ==> Covered(cfg, s, intent, fees, n))
  {
    hide OnGrid, Solvent, Verdict, Take, Covered, WouldFill, TallyAll, Rest;
    var m := cfg.rounding;
    TallyNone(m);
    if !intent.tif.Immediate() {
      PlaceSolvent(cfg, s, intent, ts, overrideId, submittedAt, symbol, fees, n);
    } else if Verdict(cfg, s, intent).None? {
      TakeSolventIff(cfg, s, intent, ts, submittedAt, fees, n);
    } else {
      SolventLess(m, s, Place(cfg, s, intent, ts, overrideId, submittedAt).0, fees, n);
    }
  }

  lemma EvictedSolvent(m: Rounding, s: Sim, p: PendingOp, fees: real, n: nat)
    requires AllHealthy(s.live) && Solvent(m, s, fees, n)
    ensures Solvent(m, Facing(s, p), fees, n)
    ensures BidsResting(m, Facing(s, p).live) <= BidsResting(m, s.live)
    ensures AsksResting(Facing(s, p).live) <= AsksResting(s.live)
  {
    hide Solvent, BidsResting, AsksResting, PurgePending, BidValue, AskValue;
    if p.op.ReplaceOp? && IndexOf(s.live, p.op.id) < |s.live| {
      var i := IndexOf(s.live, p.op.id);
      RestingRemoved(m, s.live, i);
      ValuesNonNegative(m, s.live);
      assert s.live[i] in s.live && BidValueOf(m)(s.live[i]) >= 0.0 && AskValueOf()(s.live[i]) >= 0.0;
    }
    SolventLess(m, s, Facing(s, p), fees, n);
  }

  /** One operation keeps the account solvent if and only if its immediate fill, if any, is covered. */
  lemma ApplySolventIff(cfg: SimConfig, s: Sim, p: PendingOp, symbol: Symbol, fees: real, n: nat)
    requires SpotMaker(cfg) && GoodOp(p) && OpOn(p, symbol) && LiveOn(s.live, symbol)
    requires OnGrid(cfg.rounding, s.cash) && AllHealthy(s.live) && Solvent(cfg.rounding, s, fees, n)
    ensures var (s', fills) := Apply(cfg, s, p);
            Solvent(cfg.rounding, s', fees + TallyAll(cfg.rounding, fills).fees, n + |fills|)
            <==> OpCovered(cfg, s, p, fees, n)
  {
    hide OnGrid, Solvent, BidsResting, AsksResting, Verdict, Place, Covered, WouldFill, TallyAll, PurgePending;
    var m := cfg.rounding;
    TallyNone(m);
    match p.op
    case PlaceOp(intent, overrideId) =>
      PlaceSolventIff(cfg, s, intent, p.scheduledTs, overrideId, p.submittedAt, symbol, fees, n);
    case ReplaceOp(id, intent) => ReplaceSolventIff(cfg, s, p, id, intent, symbol, fees, n);
    case CancelOp(id) =>
      FilterLess(m, s.live, OtherThan(id));
      SolventLess(m, s, CancelId(s, id), fees, n);
    case CancelAllOp =>
      FilterLess(m, s.live, OwnedBy(s.managers));
      SolventLess(m, s, Apply(cfg, s, p).0, fees, n);
  }

  lemma ReplaceSolventIff(cfg: SimConfig, s: Sim, p: PendingOp, id: QuoteId, intent: QuoteIntent, symbol: Symbol,
                          fees: real, n: nat)
    requires p.op == ReplaceOp(id, intent)
    requires SpotMaker(cfg) && GoodIntent(intent) && intent.symbol == symbol && LiveOn(s.live, symbol)
    requires OnGrid(cfg.rounding, s.cash) && AllHealthy(s.live) && Solvent(cfg.rounding, s, fees, n)
    ensures var (s', fill) := Replace(cfg, s, id, intent, p.scheduledTs, p.submittedAt);
            var fills := Listed(fill);
            Solvent(cfg.rounding, s', fees + TallyAll(cfg.rounding, fills).fees, n + |fills|)
            <==> OpCovered(cfg, s, p, fees, n)
  {
    var m, facing := cfg.rounding, Facing(s, p);
    if intent.tif.Immediate() {
      hide OnGrid, Solvent, BidsResting, AsksResting, Verdict, Take, Covered, WouldFill, TallyAll, PurgePending,
        BidValue, AskValue;
      var i := IndexOf(s.live, id);
      var s' := Replace(cfg, s, id, intent, p.scheduledTs, p.submittedAt).0;
      TallyNone(m);
      EvictedSolvent(m, s, p, fees, n);
      PlaceSolventIff(cfg, facing, intent, p.scheduledTs, Some(id), p.submittedAt, symbol, fees, n);
      if Verdict(cfg, facing, intent).Some? && i < |s.live| {
        RestingRemoved(m, s.live, i);
        RestingSnoc(m, facing.live, s.live[i]);
        SolventLess(m, s, s', fees, n);
      } else if Verdict(cfg, facing, intent).None? {
        TakeRejects(cfg, facing, intent, p.scheduledTs, p.submittedAt);
      }
    } else {
      hide OnGrid, Solvent, Verdict, Replace, TallyAll, PurgePending;
      TallyNone(m);
      RestingReplaceFillsNothing(cfg, s, id, intent, p.scheduledTs, p.submittedAt);
      ReplaceSolvent(cfg, s, id, intent, p.scheduledTs, p.submittedAt, symbol, fees, n);
    }
  }

  lemma TakeRejects(cfg: SimConfig, s: Sim, intent: QuoteIntent, ts: nat, submittedAt: nat)
    ensures Take(cfg, s, intent, ts, submittedAt).0.rejections == s.rejections
  {
    hide Round, Consumed, Quantity, RoundedCost, DecrementAll, AveragePrice, Bps;
  }

  lemma RestingReplaceFillsNothing(cfg: SimConfig, s: Sim, id: QuoteId, intent: QuoteIntent, ts: nat, submittedAt: nat)
    requires !intent.tif.Immediate()
    ensures Replace(cfg, s, id, intent, ts, submittedAt).1 == None
  {
    hide Verdict, PurgePending;
  }

  // ---------------------------------------------------------------------------------------------
  // All operations due at one event

  function FeesAfter(m: Rounding, fees: real, fills: seq<Fill>): real {
    fees + TallyAll(m, fills).fees
  }

  /** Every immediate fill among these operations is covered when its turn comes. */
  predicate OpsCovered(cfg: SimConfig, s: Sim, ready: seq<PendingOp>, fees: real, n: nat)
    decreases |ready|
  {
    ready == []
    || (OpCovered(cfg, s, ready[0], fees, n)
        && var (s1, f1) := Apply(cfg, s, ready[0]);
           OpsCovered(cfg, s1, ready[1..], FeesAfter(cfg.rounding, fees, f1), n + |f1|))
  }

  /** The account is solvent after each of these operations. */
  predicate OpsSolvent(cfg: SimConfig, s: Sim, ready: seq<PendingOp>, fees: real, n: nat)
    decreases |ready|
  {
    ready == []
    || (var (s1, f1) := Apply(cfg, s, ready[0]);
        && Solvent(cfg.rounding, s1, FeesAfter(cfg.rounding, fees, f1), n + |f1|)
        && OpsSolvent(cfg, s1, ready[1..], FeesAfter(cfg.rounding, fees, f1), n + |f1|))
  }

  lemma {:induction false} OpsSolventIff(cfg: SimConfig, s: Sim, ready: seq<PendingOp>, symbol: Symbol, fees: real,
                                         n: nat)
    requires SpotMaker(cfg) && OpsOn(ready, symbol) && LiveOn(s.live, symbol) && Sound(s) && GoodPending(ready)
    requires OnGrid(cfg.rounding, s.cash) && Solvent(cfg.rounding, s, fees, n)
    ensures OpsSolvent(cfg, s, ready, fees, n) <==> OpsCovered(cfg, s, ready, fees, n)
    ensures OpsSolvent(cfg, s, ready, fees, n) ==>
              var (s', fills) := ApplyAll(cfg, s, ready);
              Solvent(cfg.rounding, s', FeesAfter(cfg.rounding, fees, fills), n + |fills|)
    decreases |ready|
  {
    hide OnGrid, Solvent, Apply, OpCovered, GoodOp, OpOn, TallyAll, Booked, Accounted, Sound;
    var m := cfg.rounding;
    if ready == [] {
      TallyNone(m);
    } else {
      var (s1, f1) := Apply(cfg, s, ready[0]);
      SoundHealthy(s);
      ApplySolventIff(cfg, s, ready[0], symbol, fees, n);
      ApplyStep(cfg, s, ready[0]);
      AccountedOn(s.live, [ready[0]], s1.live, symbol);
      ApplyBooked(cfg, s, ready[0], symbol);
      BookedGrid(m, s, s1, symbol, f1);
      if Solvent(m, s1, FeesAfter(m, fees, f1), n + |f1|) {
        OpsSolventIff(cfg, s1, ready[1..], symbol, FeesAfter(m, fees, f1), n + |f1|);
        TallyAppend(m, f1, ApplyAll(cfg, s1, ready[1..]).1);
      }
    }
  }

  // ---------------------------------------------------------------------------------------------
  // Whole runs

  /** The state in which an event's due operations are applied. */
  function BeforeOps(cfg: SimConfig, s: Sim, t: Turn): Sim {
    var now := EventTs(t.event);
    var s1 := SilentCancels(cfg, DecayQueues(cfg, SubmitAll(cfg, s, t.orders, now), now, t.noise), now, t.noise);
    s1.(pending := s1.pending[DueCount(s1.pending, now)..])
  }

  function DueOps(cfg: SimConfig, s: Sim, t: Turn): seq<PendingOp> {
    Due(SubmitAll(cfg, s, t.orders, EventTs(t.event)), EventTs(t.event))
  }

  /** Every immediate fill of the run is covered when its turn comes. */
  predicate RunCovered(cfg: SimConfig, s: Sim, turns: seq<Turn>)
    decreases |turns|
  {
    turns == []
    || (var init, t := turns[..|turns| - 1], turns[|turns| - 1];
        var (s1, f1) := RunSim(cfg, s, init);
        && RunCovered(cfg, s, init)
        && OpsCovered(cfg, BeforeOps(cfg, s1, t), DueOps(cfg, s1, t), FeesAfter(cfg.rounding, 0.0, f1), |f1|))
  }

  /** The account is solvent after every operation and every event of the run. */
  predicate RunSolvent(cfg: SimConfig, s: Sim, turns: seq<Turn>)
    decreases |turns|
  {
    turns == []
    || (var init, t := turns[..|turns| - 1], turns[|turns| - 1];
        var (s1, f1) := RunSim(cfg, s, init);
        var (s2, f2) := RunSim(cfg, s, turns);
        && RunSolvent(cfg, s, init)
        && OpsSolvent(cfg, BeforeOps(cfg, s1, t), DueOps(cfg, s1, t), FeesAfter(cfg.rounding, 0.0, f1), |f1|)
        && Solvent(cfg.rounding, s2, FeesAfter(cfg.rounding, 0.0, f2), |f2|))
  }

  /** One event: solvent after each due operation exactly if its immediate fills are covered, and then
      solvent at the end. */
  lemma TurnSolventIff(cfg: SimConfig, s: Sim, t: Turn, symbol: Symbol, fees: real, n: nat)
    requires SpotMaker(cfg) && OnGrid(cfg.rounding, s.cash) && Sound(s) && LiveOn(s.live, symbol)
             && OpsOn(s.pending, symbol)
    requires GoodTurn(t) && TurnOn(t, symbol) && Solvent(cfg.rounding, s, fees, n)
    ensures OpsSolvent(cfg, BeforeOps(cfg, s, t), DueOps(cfg, s, t), fees, n)
            <==> OpsCovered(cfg, BeforeOps(cfg, s, t), DueOps(cfg, s, t), fees, n)
    ensures OpsSolvent(cfg, BeforeOps(cfg, s, t), DueOps(cfg, s, t), fees, n) ==>
              var (s', fills) := Step(cfg, s, t);
              Solvent(cfg.rounding, s', FeesAfter(cfg.rounding, fees, fills), n + |fills|)
  {
    hide OnGrid, Solvent, Booked, DecayQueues, SilentCancels, ApplyAll, React, Accounted, OpOn, GoodOp, AllHealthy,
      GoodBooks, TallyAll, SubmitAll, GoodTurn, TurnOn, OpsSolvent, OpsCovered, ScheduledOp;
    var m, now := cfg.rounding, EventTs(t.event);
    var s0 := SubmitAll(cfg, s, t.orders, now);
    SubmitSound(cfg, s, t);
    SubmitOn(cfg, s, t, symbol);
    SubmitFrame(cfg, s, t.orders, now);
    TurnParts(t);
    SolventSame(m, s, s0, fees, n);
    DecayStep(cfg, s0, now, t.noise);
    SilentStep(cfg, DecayQueues(cfg, s0, now, t.noise), now, t.noise);
    NoiseSolvent(cfg, s0, now, t.noise, fees, n);
    AccountedOn(s0.live, [], DecayQueues(cfg, s0, now, t.noise).live, symbol);
    var s1 := SilentCancels(cfg, DecayQueues(cfg, s0, now, t.noise), now, t.noise);
    AccountedOn(DecayQueues(cfg, s0, now, t.noise).live, [], s1.live, symbol);
    var s1', ready := BeforeOps(cfg, s, t), DueOps(cfg, s, t);
    SolventSame(m, s1, s1', fees, n);
    OpsSolventIff(cfg, s1', ready, symbol, fees, n);
    if OpsSolvent(cfg, s1', ready, fees, n) {
      ApplyAllBooked(cfg, s1', ready, symbol);
      ApplyPendingStep(cfg, s1, now);
      var (s2, f2) := ApplyPending(cfg, s1, now);
      BookedGrid(m, s1', s2, symbol, f2);
      AccountedOn(s1.live, ready, s2.live, symbol);
      ReactSolvent(cfg, s2, t.event, symbol, FeesAfter(m, fees, f2), n + |f2|);
      TallyAppend(m, f2, React(cfg, s2, t.event).1);
    }
  }

  /** A spot run on one symbol, resting and immediate orders mixed, is solvent after every operation and
      every event if and only if every immediate fill in it was covered when it was made. */
  lemma {:induction false} SolventIffCovered(cfg: SimConfig, s: Sim, turns: seq<Turn>, symbol: Symbol)
    requires SpotMaker(cfg) && OnGrid(cfg.rounding, s.cash) && Sound(s) && LiveOn(s.live, symbol)
             && OpsOn(s.pending, symbol)
    requires GoodTurns(turns) && TurnsOn(turns, symbol) && Solvent(cfg.rounding, s, 0.0, 0)
    ensures RunSolvent(cfg, s, turns) <==> RunCovered(cfg, s, turns)
    ensures RunSolvent(cfg, s, turns) ==>
              var (s', fills) := RunSim(cfg, s, turns);
              Solvent(cfg.rounding, s', FeesAfter(cfg.rounding, 0.0, fills), |fills|)
    decreases |turns|
  {
    hide OnGrid, Solvent, Booked, Sound, GoodTurn, TurnOn, LiveOn, OpsOn, TallyAll, Step, BeforeOps, DueOps, OpsSolvent,
      OpsCovered, RunSim;
    RunUnfolds(cfg, s, turns);
    if turns == [] {
      TallyNone(cfg.rounding);
    } else {
      var m, init, t := cfg.rounding, turns[..|turns| - 1], turns[|turns| - 1];
      SolventIffCovered(cfg, s, init, symbol);
      RunBooked(cfg, s, init, symbol);
      if RunSolvent(cfg, s, init) {
        var (s1, f1) := RunSim(cfg, s, init);
        TurnSolventIff(cfg, s1, t, symbol, FeesAfter(m, 0.0, f1), |f1|);
        TallyAppend(m, f1, Step(cfg, s1, t).1);
      }
    }
  }
}
