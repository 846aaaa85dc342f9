/** Whole backtest runs: any strategy, any latency, any noise, any sequence of market events. */
module Runs {
  import opened Decimals
  import opened Core
  import opened Pnl
  import opened Venue
  import opened Matching
  import opened Lifecycle
  import opened Balances
  import opened Solvency
  import opened Queue

  /** A strategy action with the latency jitter drawn for it. */
  datatype Order = Order(action: Action, jitterMs: nat)

  /** One event of a run: the event, what the strategy did on seeing it, and what chance brought. */
  datatype Turn = Turn(event: MarketEvent, orders: seq<Order>, noise: Noise)

  function SubmitAll(cfg: SimConfig, s: Sim, orders: seq<Order>, now: nat): Sim
    decreases |orders|
  {
    if orders == [] then s
    else Submit(cfg, SubmitAll(cfg, s, orders[..|orders| - 1], now), orders[|orders| - 1].action, now,
                orders[|orders| - 1].jitterMs)
  }

  /** The strategy acts on the event, then the simulator takes it. */
  function Step(cfg: SimConfig, s: Sim, t: Turn): (Sim, seq<Fill>) {
    var now := EventTs(t.event);
    OnMarketEvent(cfg, SubmitAll(cfg, s, t.orders, now), t.event, now, t.noise)
  }

  function RunSim(cfg: SimConfig, s: Sim, turns: seq<Turn>): (Sim, seq<Fill>)
    decreases |turns|
  {
    if turns == [] then (s, [])
    else
      var (s1, f1) := RunSim(cfg, s, turns[..|turns| - 1]);
      var (s2, f2) := Step(cfg, s1, turns[|turns| - 1]);
      (s2, f1 + f2)
  }

  /** The empty venue a run starts from, with its balances. */
  function Seeded(cash: real, assets: real): Sim {
    Sim([], [], {}, map[], [], map[], 0.0, cash, assets, None, 1)
  }

  // ---------------------------------------------------------------------------------------------
  // Admissible runs

  predicate ActionOn(a: Action, symbol: Symbol) {
    match a
    case Quote(intent) => intent.symbol == symbol
    case Requote(_, intent) => intent.symbol == symbol
    case _ => true
  }

  predicate RestingAction(a: Action) {
    match a
    case Quote(intent) => RestingIntent(intent)
    case Requote(_, intent) => RestingIntent(intent)
    case _ => true
  }

  predicate GoodTurn(t: Turn) {
    GoodEvent(t.event) && GoodNoise(t.noise) && forall i :: 0 <= i < |t.orders| ==> GoodAction(t.orders[i].action)
  }

  predicate TurnOn(t: Turn, symbol: Symbol) {
    forall i :: 0 <= i < |t.orders| ==> ActionOn(t.orders[i].action, symbol)
  }

  predicate RestingTurn(t: Turn) {
    forall i :: 0 <= i < |t.orders| ==> RestingAction(t.orders[i].action)
  }

  predicate GoodTurns(turns: seq<Turn>) {
    forall i :: 0 <= i < |turns| ==> GoodTurn(turns[i])
  }

  predicate TurnsOn(turns: seq<Turn>, symbol: Symbol) {
    forall i :: 0 <= i < |turns| ==> TurnOn(turns[i], symbol)
  }

  predicate RestingTurns(turns: seq<Turn>) {
    forall i :: 0 <= i < |turns| ==> RestingTurn(turns[i])
  }

  /** Events never go back in time, start no earlier than `from`, and leave room on the clock. */
  predicate Chronological(turns: seq<Turn>, from: nat) {
    && (forall i :: 0 <= i < |turns| ==> from <= EventTs(turns[i].event) < U64_MAX)
    && (forall i, j :: 0 <= i < j < |turns| ==> EventTs(turns[i].event) <= EventTs(turns[j].event))
  }

  // ---------------------------------------------------------------------------------------------
  // Submitting changes the queue only

  lemma {:induction false} SortMembers(pending: seq<PendingOp>)
    ensures forall o :: o in SortBySchedule(pending) <==> o in pending
    decreases |pending|
  {
    if pending != [] {
      var init := pending[..|pending| - 1];
      assert pending == init + [pending[|pending| - 1]];
      SortMembers(init);
      InsertMembers(SortBySchedule(init), pending[|pending| - 1]);
    }
  }

  /** Every queued operation was queued before or is one the strategy just submitted. */
  lemma {:induction false} SubmitFrame(cfg: SimConfig, s: Sim, orders: seq<Order>, now: nat)
    ensures var s' := SubmitAll(cfg, s, orders, now);
            && s' == s.(pending := s'.pending)
            && forall o :: o in s'.pending ==> o in s.pending || SubmittedBy(cfg, orders, now, o)
    decreases |orders|
  {
    if orders != [] {
      hide ScheduledOp;
      var init, last := orders[..|orders| - 1], orders[|orders| - 1];
      SubmitFrame(cfg, s, init, now);
      var s1, p := SubmitAll(cfg, s, init, now), ScheduledOp(cfg, last.action, now, last.jitterMs);
      forall o | o in SubmitAll(cfg, s, orders, now).pending
        ensures o in s.pending || SubmittedBy(cfg, orders, now, o)
      {
        if p.Some? {
          SortMembers(s1.pending + [p.value]);
        }
        if o in s1.pending && o !in s.pending {
          var i :| 0 <= i < |init| && ScheduledOp(cfg, init[i].action, now, init[i].jitterMs) == Some(o);
          assert orders[i] == init[i];
        }
      }
    }
  }

  predicate SubmittedBy(cfg: SimConfig, orders: seq<Order>, now: nat, o: PendingOp) {
    exists i :: 0 <= i < |orders| && ScheduledOp(cfg, orders[i].action, now, orders[i].jitterMs) == Some(o)
  }

  lemma SubmitSound(cfg: SimConfig, s: Sim, t: Turn)
    requires Sound(s) && GoodTurn(t)
    ensures Sound(SubmitAll(cfg, s, t.orders, EventTs(t.event)))
  {
    hide GoodBooks, Healthy;
    var s' := SubmitAll(cfg, s, t.orders, EventTs(t.event));
    SubmitFrame(cfg, s, t.orders, EventTs(t.event));
    forall i | 0 <= i < |s'.pending|
      ensures GoodOp(s'.pending[i])
    {
      assert s'.pending[i] in s'.pending;
    }
  }

  lemma SubmitOn(cfg: SimConfig, s: Sim, t: Turn, symbol: Symbol)
    requires OpsOn(s.pending, symbol) && TurnOn(t, symbol)
    ensures OpsOn(SubmitAll(cfg, s, t.orders, EventTs(t.event)).pending, symbol)
  {
    var s' := SubmitAll(cfg, s, t.orders, EventTs(t.event));
    SubmitFrame(cfg, s, t.orders, EventTs(t.event));
    forall i | 0 <= i < |s'.pending|
      ensures OpOn(s'.pending[i], symbol)
    {
      assert s'.pending[i] in s'.pending;
    }
  }

  lemma SubmitResting(cfg: SimConfig, s: Sim, t: Turn)
    requires RestingOps(s.pending) && RestingTurn(t)
    ensures RestingOps(SubmitAll(cfg, s, t.orders, EventTs(t.event)).pending)
  {
    var s' := SubmitAll(cfg, s, t.orders, EventTs(t.event));
    SubmitFrame(cfg, s, t.orders, EventTs(t.event));
    forall i | 0 <= i < |s'.pending|
      ensures RestingOp(s'.pending[i])
    {
      assert s'.pending[i] in s'.pending;
    }
  }

  lemma SubmitTimely(cfg: SimConfig, s: Sim, orders: seq<Order>, now: nat)
    requires TimelyOps(s.pending) && now < U64_MAX
    ensures TimelyOps(SubmitAll(cfg, s, orders, now).pending)
  {
    var s' := SubmitAll(cfg, s, orders, now);
    SubmitFrame(cfg, s, orders, now);
    forall i | 0 <= i < |s'.pending|
      ensures TimelyOp(s'.pending[i])
    {
      var o := s'.pending[i];
      assert o in s'.pending;
      if o !in s.pending {
        var k :| 0 <= k < |orders| && ScheduledOp(cfg, orders[k].action, now, orders[k].jitterMs) == Some(o);
        if o.op.PlaceOp? || o.op.ReplaceOp? {
          SubmitIsLater(cfg, orders[k].action, now, orders[k].jitterMs);
        }
      }
    }
  }

  // ---------------------------------------------------------------------------------------------
  // The queue

  /** What a strategy's orders put on the queue, in the order submitted. */
  function OpsOf(cfg: SimConfig, orders: seq<Order>, now: nat): seq<PendingOp> {
    if orders == [] then []
    else
      var last := orders[|orders| - 1];
      var p := ScheduledOp(cfg, last.action, now, last.jitterMs);
      OpsOf(cfg, orders[..|orders| - 1], now) + if p.Some? then [p.value] else []
  }

  /** Everything submitted over a run. */
  function Submitted(cfg: SimConfig, turns: seq<Turn>): seq<PendingOp> {
    if turns == [] then []
    else
      var t := turns[|turns| - 1];
      Submitted(cfg, turns[..|turns| - 1]) + OpsOf(cfg, t.orders, EventTs(t.event))
  }

  lemma {:induction false} SubmitAllQueue(cfg: SimConfig, s: Sim, orders: seq<Order>, now: nat, t: nat)
    requires Scheduled(s.pending)
    ensures var s' := SubmitAll(cfg, s, orders, now);
            Scheduled(s'.pending) && AtTime(s'.pending, t) == AtTime(s.pending, t) + AtTime(OpsOf(cfg, orders, now), t)
    decreases |orders|
  {
    hide ScheduledOp, Submit, Scheduled, AtTime;
    if orders == [] {
      AtNoTime(t);
      assert AtTime(s.pending, t) + [] == AtTime(s.pending, t);
    } else {
      var init, last := orders[..|orders| - 1], orders[|orders| - 1];
      SubmitAllQueue(cfg, s, init, now, t);
      SubmitIsFifo(cfg, SubmitAll(cfg, s, init, now), last.action, now, last.jitterMs, t);
      var p := ScheduledOp(cfg, last.action, now, last.jitterMs);
      if p.Some? {
        AtTimeAppend(OpsOf(cfg, init, now), p.value, t);
      } else {
        assert OpsOf(cfg, init, now) + [] == OpsOf(cfg, init, now);
      }
    }
  }

  lemma AtNoTime(t: nat)
    ensures AtTime([], t) == []
  {
  }

  lemma AtTimeJoin(xs: seq<PendingOp>, ys: seq<PendingOp>, t: nat)
    ensures AtTime(xs + ys, t) == AtTime(xs, t) + AtTime(ys, t)
  {
    AtTimeIsFilter(xs, t);
    AtTimeIsFilter(ys, t);
    AtTimeIsFilter(xs + ys, t);
    FilterAppend(xs, ys, At(t));
  }

  /** In every reachable state the queue is sorted by scheduled time and, at each time, holds a part of
      what was submitted for that time, in the order submitted. */
  lemma {:induction false} RunSorted(cfg: SimConfig, s: Sim, turns: seq<Turn>, t: nat)
    requires Scheduled(s.pending)
    ensures var s' := RunSim(cfg, s, turns).0;
            Scheduled(s'.pending)
            && Embedded(AtTime(s'.pending, t), AtTime(s.pending, t) + AtTime(Submitted(cfg, turns), t))
    decreases |turns|
  {
    hide Scheduled, AtTime, Embedded, OnMarketEvent, SubmitAll, OpsOf, Due;
    if turns == [] {
      AtNoTime(t);
      assert AtTime(s.pending, t) + [] == AtTime(s.pending, t);
      EmbeddedSelf(AtTime(s.pending, t));
    } else {
      var init, turn := turns[..|turns| - 1], turns[|turns| - 1];
      var now := EventTs(turn.event);
      RunSorted(cfg, s, init, t);
      var s1 := RunSim(cfg, s, init).0;
      var s2 := SubmitAll(cfg, s1, turn.orders, now);
      SubmitAllQueue(cfg, s1, turn.orders, now, t);
      EventQueue(cfg, s2, turn.event, now, turn.noise);
      var s3 := RunSim(cfg, s, turns).0;
      var before, more := AtTime(s.pending, t) + AtTime(Submitted(cfg, init), t),
        AtTime(OpsOf(cfg, turn.orders, now), t);
      EmbeddedAt(s3.pending, s2.pending, t);
      EmbeddedSnoc(AtTime(s1.pending, t), before, more);
      EmbeddedTrans(AtTime(s3.pending, t), AtTime(s2.pending, t), before + more);
      AtTimeJoin(Submitted(cfg, init), OpsOf(cfg, turn.orders, now), t);
      assert before + more == AtTime(s.pending, t) + (AtTime(Submitted(cfg, init), t) + more);
    }
  }

  lemma EmbeddedAt(xs: seq<PendingOp>, ys: seq<PendingOp>, t: nat)
    requires Embedded(xs, ys)
    ensures Embedded(AtTime(xs, t), AtTime(ys, t))
  {
    hide Embedded, AtTime;
    AtTimeIsFilter(xs, t);
    AtTimeIsFilter(ys, t);
    EmbeddedFilter(xs, ys, At(t));
  }

  /** After any run from a sorted queue, such as an empty one, the next event applies exactly the
      operations due by its time, in queue order, and leaves the others as they were, save those that an
      applied cancel or replace withdrew. */
  lemma RunAppliesDue(cfg: SimConfig, s: Sim, turns: seq<Turn>, ev: MarketEvent, now: nat, noise: Noise)
    requires Scheduled(s.pending)
    ensures var s1 := RunSim(cfg, s, turns).0;
            var s2 := OnMarketEvent(cfg, s1, ev, now, noise).0;
            && Due(s1, now) == Filter(s1.pending, DueBy(now))
            && s2.pending == Filter(Filter(s1.pending, Undue(now)), Standing(Withdrawn(Due(s1, now))))
  {
    hide RunSim, OnMarketEvent, Scheduled, Embedded, AtTime, Filter;
    RunSorted(cfg, s, turns, 0);
    EventQueue(cfg, RunSim(cfg, s, turns).0, ev, now, noise);
  }

  // ---------------------------------------------------------------------------------------------
  // No look-ahead

  /** Over any run whose events do not go back in time, every fill of a quote or requote carries a time
      strictly later than the event on which it was submitted. */
  lemma {:induction false} NoLookAhead(cfg: SimConfig, s: Sim, turns: seq<Turn>, from: nat)
    requires Sound(s) && GoodTurns(turns) && Chronological(turns, from)
    requires TimelyOps(s.pending) && TimelyLive(s.live, from) && (s.lastTs.Some? ==> s.lastTs.value <= from)
    ensures var (s', fills) := RunSim(cfg, s, turns);
            && Sound(s') && TimelyOps(s'.pending)
            && TimelyLive(s'.live, LastTime(turns, from))
            && (s'.lastTs.Some? ==> s'.lastTs.value <= LastTime(turns, from))
            && (Scheduled(s.pending) ==> Scheduled(s'.pending))
            && forall f :: f in fills ==> f.submittedAt < f.ts
    decreases |turns|
  {
    hide Scheduled, Sound, GoodTurn, TimelyOps, TimelyLive, Step, RunSim, Chronological, Embedded, AtTime, Submitted;
    if Scheduled(s.pending) {
      RunSorted(cfg, s, turns, 0);
    }
    RunUnfolds(cfg, s, turns);
    if turns != [] {
      var init, last := turns[..|turns| - 1], turns[|turns| - 1];
      ChronologicalInit(turns, from);
      NoLookAhead(cfg, s, init, from);
      TurnTimely(cfg, RunSim(cfg, s, init).0, last, LastTime(init, from));
    }
  }

  lemma RunUnfolds(cfg: SimConfig, s: Sim, turns: seq<Turn>)
    ensures turns == [] ==> RunSim(cfg, s, turns) == (s, [])
    ensures turns != [] ==>
              var (s1, f1) := RunSim(cfg, s, turns[..|turns| - 1]);
              var (s2, f2) := Step(cfg, s1, turns[|turns| - 1]);
              RunSim(cfg, s, turns) == (s2, f1 + f2)
  {
    hide Step;
  }

  lemma ChronologicalInit(turns: seq<Turn>, from: nat)
    requires Chronological(turns, from) && turns != []
    ensures Chronological(turns[..|turns| - 1], from)
    ensures LastTime(turns[..|turns| - 1], from) <= EventTs(turns[|turns| - 1].event) < U64_MAX
  {
  }

  /** The same for one event: what is queued and resting stays timely, and so is every fill. */
  lemma TurnTimely(cfg: SimConfig, s: Sim, t: Turn, last: nat)
    requires Sound(s) && GoodTurn(t) && TimelyOps(s.pending) && TimelyLive(s.live, last)
    requires last <= EventTs(t.event) < U64_MAX
    ensures var (s', fills) := Step(cfg, s, t);
            && Sound(s') && TimelyOps(s'.pending) && TimelyLive(s'.live, EventTs(t.event))
            && s'.lastTs == Some(EventTs(t.event))
            && forall f :: f in fills ==> f.submittedAt < f.ts <= EventTs(t.event)
  {
    hide Sound, GoodTurn, TimelyOps, TimelyLive, OnMarketEvent, ScheduledOp, SubmitAll, Accounted, DueCount;
    var now := EventTs(t.event);
    var s1 := SubmitAll(cfg, s, t.orders, now);
    SubmitSound(cfg, s, t);
    SubmitTimely(cfg, s, t.orders, now);
    SubmitFrame(cfg, s, t.orders, now);
    TurnParts(t);
    EventStep(cfg, s1, t.event, now, t.noise);
    FillsAreLater(cfg, s1, t.event, t.noise, last);
  }

  lemma TurnParts(t: Turn)
    requires GoodTurn(t)
    ensures GoodEvent(t.event) && GoodNoise(t.noise)
  {
  }

  function LastTime(turns: seq<Turn>, from: nat): nat {
    if turns == [] then from else EventTs(turns[|turns| - 1].event)
  }

  // ---------------------------------------------------------------------------------------------
  // Two books

  /** A run is booked by its fills. */
  lemma {:induction false} RunBooked(cfg: SimConfig, s: Sim, turns: seq<Turn>, symbol: Symbol)
    requires cfg.spot && OnGrid(cfg.rounding, s.cash) && Sound(s) && LiveOn(s.live, symbol) && OpsOn(s.pending, symbol)
    requires GoodTurns(turns) && TurnsOn(turns, symbol)
    ensures var (s', fills) := RunSim(cfg, s, turns);
            && Booked(cfg.rounding, s, s', symbol, fills) && OnGrid(cfg.rounding, s'.cash)
            && Sound(s') && LiveOn(s'.live, symbol) && OpsOn(s'.pending, symbol)
    decreases |turns|
  {
    hide OnGrid, Booked, Sound, GoodTurn, TurnOn, LiveOn, OpsOn, OnMarketEvent, ScheduledOp;
    if turns == [] {
      BookedNone(cfg.rounding, s, s, symbol);
    } else {
      var init, t := turns[..|turns| - 1], turns[|turns| - 1];
      RunBooked(cfg, s, init, symbol);
      var (s1, f1) := RunSim(cfg, s, init);
      var s2 := SubmitAll(cfg, s1, t.orders, EventTs(t.event));
      SubmitSound(cfg, s1, t);
      SubmitOn(cfg, s1, t, symbol);
      SubmitFrame(cfg, s1, t.orders, EventTs(t.event));
      TurnParts(t);
      EventBooked(cfg, s2, t.event, EventTs(t.event), t.noise, symbol);
      EventStep(cfg, s2, t.event, EventTs(t.event), t.noise);
      var (s3, f2) := Step(cfg, s1, t);
      BookedSame(cfg.rounding, s2, s3, s1, s3, symbol, f2);
      BookedTrans(cfg.rounding, s, s1, s3, symbol, f1, f2);
      BookedGrid(cfg.rounding, s1, s3, symbol, f2);
    }
  }

  /** The tracker's size, fees and cash flow are the tally of the fills it was given. */
  lemma {:induction false} TrackerTally(m: Rounding, fills: seq<Fill>)
    ensures var a, t := AppliedAll(m, FLAT, fills), TallyAll(m, fills);
            && OnBooks(m, a)
            && a.size == t.size && a.fees == t.fees && CashFlow(m, fills) == t.flow && a.funding == 0.0
            && Abs(t.signed - t.size) <= t.drift
    decreases |fills|
  {
    hide Round, OnGrid, HalfUlp, Applied, Flow, CashSlip, Delta;
    if fills == [] {
      FlatOnBooks(m);
    } else {
      var init, last := fills[..|fills| - 1], fills[|fills| - 1];
      TrackerTally(m, init);
      AppliedOnBooks(m, AppliedAll(m, FLAT, init), last);
      AppliedFunding(m, AppliedAll(m, FLAT, init), last);
      assert fills == init + [last];
      TallyAppend(m, init, [last]);
      TallySingle(m, last);
      DeltaNear(m, last);
    }
  }

  lemma AppliedFunding(m: Rounding, a: Account, f: Fill)
    ensures Applied(m, a, f).funding == a.funding
  {
    hide Round, Wacc, Gain;
  }

  lemma DeltaNear(m: Rounding, f: Fill)
    ensures Abs(SideDelta(f.side, f.size) - Delta(m, f)) <= HalfUlp(m)
  {
    hide Round, HalfUlp;
    RoundNear(m, SideDelta(f.side, f.size));
  }

  /** Everything the two books may disagree by: half a unit for the mark-to-market, the tracker's own
      slip, the simulator's slip on cash, and its drift on holdings at the mark. */
  function Disagreement(m: Rounding, fills: seq<Fill>, mark: real): real {
    HalfUlp(m) + TotalTolerance(m, FLAT, fills) + TallyAll(m, fills).slip + Times(Abs(mark), TallyAll(m, fills).drift)
  }

  /** Net profit as the tracker reports it, term by term. */
  lemma NetByParts(m: Rounding, a: Account, mark: real)
    ensures Abs(Report(m, a, mark).net - (NetCash(a) + Times(mark, a.size) - a.fees + a.funding)) <= HalfUlp(m)
  {
    hide Round, HalfUlp, Times, NetCash, Gain;
    RoundNear(m, Gain(a.size, a.avgEntry, mark));
    MarkedGain(a, mark);
  }

  lemma MarkedGain(a: Account, mark: real)
    ensures NetCash(a) + Times(mark, a.size) == a.realized + Gain(a.size, a.avgEntry, mark)
  {
  }

  lemma MarkedDrift(mark: real, x: real, y: real, d: real)
    requires Abs(x - y) <= d
    ensures Abs(Times(mark, x) - Times(mark, y)) <= Times(Abs(mark), d)
  {
    assert Times(mark, x) - Times(mark, y) == (x - y) * mark;
    ScaledError(x - y, mark, d);
    assert d * Abs(mark) == Times(Abs(mark), d);
  }

  /** Two independent books agree.  Over any spot run on one symbol and at any mark, the profit the
      tracker reports is the change in the simulator's cash plus the change in its holdings at the
      mark, and the simulator's position is the tracker's size -- up to half-units that the fills
      determine, which vanish in exact arithmetic. */
  lemma TwoBooksAgree(cfg: SimConfig, s: Sim, turns: seq<Turn>, symbol: Symbol, mark: real)
    requires cfg.spot && OnGrid(cfg.rounding, s.cash) && Sound(s) && LiveOn(s.live, symbol) && OpsOn(s.pending, symbol)
    requires GoodTurns(turns) && TurnsOn(turns, symbol)
    ensures var (s', fills) := RunSim(cfg, s, turns);
            var m := cfg.rounding;
            var a := AppliedAll(m, FLAT, fills);
            var gain := s'.cash - s.cash + Times(mark, s'.assets - s.assets);
            && Abs(Report(m, a, mark).net - gain) <= Disagreement(m, fills, mark)
            && UnitsOf(s', symbol) - UnitsOf(s, symbol) == TallyAll(m, fills).signed
            && Abs(UnitsOf(s', symbol) - UnitsOf(s, symbol) - a.size) <= TallyAll(m, fills).drift
            && (m.Exact? ==> Report(m, a, mark).net == gain && UnitsOf(s', symbol) - UnitsOf(s, symbol) == a.size)
  {
    hide Round, OnGrid, HalfUlp, Sound, GoodTurn, TurnOn, LiveOn, OpsOn, RunSim, TallyAll, NetCash, Report, UnitsOf,
      Times, CashFlow, AppliedAll, TotalTolerance;
    var m := cfg.rounding;
    var (s', fills) := RunSim(cfg, s, turns);
    var a, t := AppliedAll(m, FLAT, fills), TallyAll(m, fills);
    RunBooked(cfg, s, turns, symbol);
    TrackerTally(m, fills);
    FlatOnBooks(m);
    LedgerFold(m, FLAT, fills);
    FlatNetCash();
    NetByParts(m, a, mark);
    MarkedDrift(mark, s'.assets - s.assets, t.size, t.drift);
    var cash, held := s'.cash - s.cash, Times(mark, s'.assets - s.assets);
    assert Abs(cash - (t.flow - t.fees)) <= t.slip;
    assert Abs(held - Times(mark, t.size)) <= Times(Abs(mark), t.drift);
    assert Abs(NetCash(a) - t.flow) <= TotalTolerance(m, FLAT, fills);
    assert Abs(Report(m, a, mark).net - (NetCash(a) + Times(mark, t.size) - t.fees)) <= HalfUlp(m);
    assert Abs(Report(m, a, mark).net - (cash + held)) <= Disagreement(m, fills, mark);
    if m.Exact? {
      ExactTally(fills);
      ExactTolerance(fills);
      TimesZero(Abs(mark));
    }
  }

  lemma TimesZero(x: real)
    ensures Times(x, 0.0) == 0.0 && HalfUlp(Exact) == 0.0
  {
  }

  lemma FlatNetCash()
    ensures NetCash(FLAT) == 0.0
  {
  }

  lemma {:induction false} ExactTally(fills: seq<Fill>)
    ensures TallyAll(Exact, fills).slip == 0.0 && TallyAll(Exact, fills).drift == 0.0
  {
    if fills != [] {
      ExactTally(fills[1..]);
    }
  }

  lemma ExactTolerance(fills: seq<Fill>)
    ensures TotalTolerance(Exact, FLAT, fills) == 0.0
  {
    ToleranceIsScaled(Exact, FLAT, fills);
  }

  // ---------------------------------------------------------------------------------------------
  // Solvency and the order cap

  /** Spot solvency over all runs: on one symbol, with a maker fee that is not a rebate and resting
      orders only, cash plus the fees charged covers every resting bid and holdings cover every resting
      ask in every reachable state, up to the rounding of the fills so far. */
  lemma {:induction false} AlwaysSolvent(cfg: SimConfig, s: Sim, turns: seq<Turn>, symbol: Symbol)
    requires SpotMaker(cfg) && OnGrid(cfg.rounding, s.cash) && Sound(s) && LiveOn(s.live, symbol)
             && OpsOn(s.pending, symbol)
    requires RestingOps(s.pending) && Solvent(cfg.rounding, s, 0.0, 0)
    requires GoodTurns(turns) && TurnsOn(turns, symbol) && RestingTurns(turns)
    ensures var (s', fills) := RunSim(cfg, s, turns);
            Solvent(cfg.rounding, s', TallyAll(cfg.rounding, fills).fees, |fills|) && RestingOps(s'.pending)
    decreases |turns|
  {
    hide OnGrid, Booked, Sound, GoodTurn, TurnOn, RestingTurn, LiveOn, OpsOn, RestingOps, OnMarketEvent, ScheduledOp,
      Solvent, TallyAll;
    if turns == [] {
      TallyNone(cfg.rounding);
    } else {
      var m, init, t := cfg.rounding, turns[..|turns| - 1], turns[|turns| - 1];
      AlwaysSolvent(cfg, s, init, symbol);
      RunBooked(cfg, s, init, symbol);
      var (s1, f1) := RunSim(cfg, s, init);
      var s2 := SubmitAll(cfg, s1, t.orders, EventTs(t.event));
      SubmitSound(cfg, s1, t);
      SubmitOn(cfg, s1, t, symbol);
      SubmitResting(cfg, s1, t);
      SubmitFrame(cfg, s1, t.orders, EventTs(t.event));
      SolventSame(m, s1, s2, TallyAll(m, f1).fees, |f1|);
      TurnParts(t);
      EventSolvent(cfg, s2, t.event, EventTs(t.event), t.noise, symbol, TallyAll(m, f1).fees, |f1|);
      TallyAppend(m, f1, Step(cfg, s1, t).1);
    }
  }

  lemma TallyNone(m: Rounding)
    ensures TallyAll(m, []).fees == 0.0
  {
  }

  lemma SolventSame(m: Rounding, s: Sim, s': Sim, fees: real, n: nat)
    requires Solvent(m, s, fees, n) && s'.cash == s.cash && s'.assets == s.assets && s'.live == s.live
    ensures Solvent(m, s', fees, n)
  {
  }

  /** No reachable state rests more orders on a symbol than the cap allows. */
  lemma {:induction false} AlwaysCapped(cfg: SimConfig, s: Sim, turns: seq<Turn>, symbol: Symbol)
    requires Sound(s) && Capped(cfg, s.live, symbol) && GoodTurns(turns)
    ensures Capped(cfg, RunSim(cfg, s, turns).0.live, symbol) && Sound(RunSim(cfg, s, turns).0)
    decreases |turns|
  {
    if turns != [] {
      hide Sound, GoodTurn, OnMarketEvent, ScheduledOp, Capped;
      var init, t := turns[..|turns| - 1], turns[|turns| - 1];
      AlwaysCapped(cfg, s, init, symbol);
      var s1 := RunSim(cfg, s, init).0;
      SubmitSound(cfg, s1, t);
      SubmitFrame(cfg, s1, t.orders, EventTs(t.event));
      TurnParts(t);
      EventCapped(cfg, SubmitAll(cfg, s1, t.orders, EventTs(t.event)), t.event, EventTs(t.event), t.noise, symbol);
      EventStep(cfg, SubmitAll(cfg, s1, t.orders, EventTs(t.event)), t.event, EventTs(t.event), t.noise);
    }
  }
}
