/** The engine end to end: loaded history, replayed, through any strategy, the simulator and the books. */
module Backtest {
  import opened Decimals
  import opened Core
  import opened Book
  import opened Pnl
  import opened Venue
  import opened Lifecycle
  import opened Queue
  import opened Balances
  import opened Solvency
  import opened Runs
  import opened Runner
  import opened Replay

  /** Sorted history with no negative size, that leaves room on the clock. */
  predicate GoodData(d: Data, rank: seq<nat>) {
    && WellIndexed(d) && Sorted(d.events, rank) && GoodRows(d.events)
    && forall k :: 0 <= k < |d.events| ==> d.events[k].tsNs < U64_MAX
  }

  predicate GoodRows(events: seq<LoadedEvent>) {
    forall k :: 0 <= k < |events| && events[k].payload.BookDelta? ==> events[k].payload.size >= 0.0
  }

  // ---------------------------------------------------------------------------------------------
  // What the replay emits is admissible

  predicate SidesGood(m: map<int, Level>) {
    forall k :: k in m ==> m[k].size >= 0.0
  }

  predicate TickBookGood(b: TickBook) {
    SidesGood(b.bids) && SidesGood(b.asks)
  }

  predicate BooksGood(st: ReplayState) {
    forall k :: 0 <= k < |st.books| ==> TickBookGood(st.books[k])
  }

  lemma {:induction false} RowsKeepGood(b: TickBook, tick: real, rows: seq<LoadedEvent>)
    requires Deltas(rows) && GoodRows(rows) && TickBookGood(b)
    ensures TickBookGood(ApplyRows(b, tick, rows))
    decreases |rows|
  {
    if rows != [] {
      RowsKeepGood(b, tick, rows[..|rows| - 1]);
    }
  }

  lemma AscendingGood(m: map<int, Level>)
    requires SidesGood(m)
    ensures AllNonNegative(Ascending(m)) && AllNonNegative(Descending(m))
  {
    forall l | l in Ascending(m)
      ensures l.size >= 0.0
    {
      var k := AscendingHolds(m, l);
    }
    assert forall i :: 0 <= i < |Ascending(m)| ==> Ascending(m)[i] in Ascending(m);
  }

  lemma NextGood(d: Data, st: ReplayState)
    requires Ready(d, st) && GoodRows(d.events) && BooksGood(st) && st.cursor < |d.events|
    ensures var (st', ev) := NextStep(d, st);
            BooksGood(st') && GoodEvent(ev.value)
  {
    hide ApplyRows, Ascending, Descending;
    var e := d.events[st.cursor];
    if !HeartbeatDue(d, st) && e.payload.BookDelta? {
      GroupTimes(d.events, st.cursor);
      var book := st.books[e.symbolIdx];
      var rows := d.events[st.cursor..GroupEnd(d.events, e, st.cursor)];
      RowsKeepGood(book, d.tickSize, rows);
      AscendingGood(ApplyRows(book, d.tickSize, rows).bids);
      AscendingGood(ApplyRows(book, d.tickSize, rows).asks);
    }
  }

  /** Every event a replay emits is admissible, and earlier than the end of the clock. */
  lemma {:induction false} DrainGood(d: Data, st: ReplayState, rank: seq<nat>)
    requires Ready(d, st) && GoodData(d, rank) && BooksGood(st)
    requires st.lastEmitted.Some? && st.cursor < |d.events| ==> st.lastEmitted.value <= d.events[st.cursor].tsNs
    ensures forall ev :: ev in Drain(d, st) ==> GoodEvent(ev) && EventTs(ev) < U64_MAX
    decreases |d.events| - st.cursor, TimeLeft(d, st)
  {
    if st.cursor < |d.events| {
      hide NextStep, BooksGood, GoodEvent, Sorted;
      NextProgress(d, st);
      NextTimes(d, st, rank);
      NextGood(d, st);
      DrainGood(d, NextStep(d, st).0, rank);
    }
  }

  /** Events in pace never go back in time. */
  lemma {:induction false} PacedRises(evs: seq<MarketEvent>, hb: nat, i: nat, j: nat)
    requires Paced(evs, hb) && i <= j < |evs|
    ensures EventTs(evs[i]) <= EventTs(evs[j])
    decreases j
  {
    if i < j {
      PacedRises(evs, hb, i, j - 1);
    }
  }

  // ---------------------------------------------------------------------------------------------
  // The whole backtest

  /** Answers about one symbol, with positive prices and sizes, and decay factors that are not negative. */
  ghost predicate GoodScript(script: nat -> (seq<Order>, Noise), symbol: Symbol) {
    forall i :: GoodNoise(script(i).1) && forall k :: 0 <= k < |script(i).0| ==>
                  GoodAction(script(i).0[k].action) && ActionOn(script(i).0[k].action, symbol)
  }

  /** Resting orders only. */
  ghost predicate MakerScript(script: nat -> (seq<Order>, Noise)) {
    forall i :: forall k :: 0 <= k < |script(i).0| ==> RestingAction(script(i).0[k].action)
  }

  function History(d: Data): seq<MarketEvent>
    requires WellIndexed(d)
  {
    Drain(d, Start(d))
  }

  lemma TurnsAdmissible(d: Data, rank: seq<nat>, script: nat -> (seq<Order>, Noise), symbol: Symbol)
    requires GoodData(d, rank) && GoodScript(script, symbol)
    ensures var turns := Turns(History(d), script);
            && GoodTurns(turns) && TurnsOn(turns, symbol) && Chronological(turns, 0)
            && (MakerScript(script) ==> RestingTurns(turns))
  {
    hide Drain, GoodEvent, GoodAction, GoodNoise, ActionOn, RestingAction, Sorted, Paced;
    var evs := History(d);
    DrainGood(d, Start(d), rank);
    DrainPaced(d, Start(d), rank);
    forall i, j | 0 <= i < j < |evs|
      ensures EventTs(evs[i]) <= EventTs(evs[j])
    {
      PacedRises(evs, HeartbeatNs(d), i, j);
    }
    assert forall i :: 0 <= i < |evs| ==> evs[i] in evs;
  }

  lemma BacktestQueue(cfg: SimConfig, cash: real, assets: real, turns: seq<Turn>)
    ensures var s' := RunSim(cfg, Seeded(cash, assets), turns).0;
            && Scheduled(s'.pending)
            && (forall now :: Due(s', now) == Filter(s'.pending, DueBy(now)))
            && (forall t :: Embedded(AtTime(s'.pending, t), AtTime(Submitted(cfg, turns), t)))
  {
    hide RunSim, Embedded, AtTime, Filter, Submitted, Due;
    var s := Seeded(cash, assets);
    var s' := RunSim(cfg, s, turns).0;
    RunSorted(cfg, s, turns, 0);
    forall now
      ensures Due(s', now) == Filter(s'.pending, DueBy(now))
    {
      DueIsFilter(s', now);
    }
    forall t
      ensures Embedded(AtTime(s'.pending, t), AtTime(Submitted(cfg, turns), t))
    {
      RunSorted(cfg, s, turns, t);
      AtNoTime(t);
      assert [] + AtTime(Submitted(cfg, turns), t) == AtTime(Submitted(cfg, turns), t);
    }
  }

  /** A backtest over any sorted history, with any strategy, latency and noise, from an empty venue: no
      fill is priced off the event it was decided on or an earlier one, the queue is in order of schedule
      and, at each time, of submission, so what is due is applied in that order, no symbol rests more than
      the cap, and in spot mode at any mark the profit reported is the change in cash and holdings -- exactly
      in exact arithmetic, otherwise within the half-units of its fills. */
  lemma WholeBacktest(d: Data, rank: seq<nat>, cfg: SimConfig, cash: real, assets: real,
                      script: nat -> (seq<Order>, Noise), symbol: Symbol, mark: real)
    requires GoodData(d, rank) && GoodScript(script, symbol) && OnGrid(cfg.rounding, cash)
    ensures var (s', fills) := RunSim(cfg, Seeded(cash, assets), Turns(History(d), script));
            var net := Report(cfg.rounding, AppliedAll(cfg.rounding, FLAT, fills), mark).net;
            var gain := s'.cash - cash + Times(mark, s'.assets - assets);
            && (forall f :: f in fills ==> f.submittedAt < f.ts)
            && Scheduled(s'.pending)
            && (forall now :: Due(s', now) == Filter(s'.pending, DueBy(now)))
            && (forall t :: Embedded(AtTime(s'.pending, t), AtTime(Submitted(cfg, Turns(History(d), script)), t)))
            && Capped(cfg, s'.live, symbol)
            && (cfg.spot ==> Abs(net - gain) <= Disagreement(cfg.rounding, fills, mark))
            && (cfg.spot && cfg.rounding.Exact? ==> net == gain)
  {
    hide Drain, GoodTurns, TurnsOn, Chronological, RunSim, Report, AppliedAll, Times, Disagreement, OnGrid, TallyAll,
      Scheduled, Embedded, AtTime, Filter, Submitted, Due;
    var turns, s := Turns(History(d), script), Seeded(cash, assets);
    BacktestQueue(cfg, cash, assets, turns);
    TurnsAdmissible(d, rank, script, symbol);
    NoLookAhead(cfg, s, turns, 0);
    AlwaysCapped(cfg, s, turns, symbol);
    if cfg.spot {
      TwoBooksAgree(cfg, s, turns, symbol, mark);
    }
  }

  /** Spot solvency of a whole backtest: a maker-only strategy that starts with no debt ends with holdings
      covering its asks and, fees apart, cash covering its bids. */
  lemma BacktestSolvent(d: Data, rank: seq<nat>, cfg: SimConfig, cash: real, assets: real,
                        script: nat -> (seq<Order>, Noise), symbol: Symbol)
    requires GoodData(d, rank) && GoodScript(script, symbol) && MakerScript(script)
    requires SpotMaker(cfg) && OnGrid(cfg.rounding, cash) && cash >= 0.0 && assets >= 0.0
    ensures var (s', fills) := RunSim(cfg, Seeded(cash, assets), Turns(History(d), script));
            Solvent(cfg.rounding, s', TallyAll(cfg.rounding, fills).fees, |fills|)
  {
    hide Drain, GoodTurns, TurnsOn, RestingTurns, Chronological, RunSim, OnGrid, TallyAll, HalfUlp;
    TurnsAdmissible(d, rank, script, symbol);
    AlwaysSolvent(cfg, Seeded(cash, assets), Turns(History(d), script), symbol);
  }
}
