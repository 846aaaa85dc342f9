/** The backtest runner: every event goes to the strategy, its actions to the simulator, and the
    simulator's fills to the position tracker. */
module Runner {
  import opened Decimals
  import opened Core
  import opened Pnl
  import opened Venue
  import opened Runs
  import opened FillSimulator
  import opened Replay

  /** The run that these events make when the strategy answers the `i`-th with `script(i).0` and chance
      brings `script(i).1`.  Any strategy, whatever it looks at, answers like some script. */
  function Turns(evs: seq<MarketEvent>, script: nat -> (seq<Order>, Noise)): seq<Turn> {
    seq(|evs|, i requires 0 <= i < |evs| => Turn(evs[i], script(i).0, script(i).1))
  }

  /** The mid of the last snapshot that showed both sides, zero if there was none. */
  function LastMid(turns: seq<Turn>): real
    decreases |turns|
  {
    if turns == [] then 0.0 else MidOr(turns[|turns| - 1].event, LastMid(turns[..|turns| - 1]))
  }

  function MidOr(ev: MarketEvent, mid: real): real {
    if ev.BookUpdate? && ev.snapshot.bids != [] && ev.snapshot.asks != []
    then (ev.snapshot.bids[0].price + ev.snapshot.asks[0].price) / 2.0
    else mid
  }

  predicate TwoSided(ev: MarketEvent) {
    ev.BookUpdate? && ev.snapshot.bids != [] && ev.snapshot.asks != []
  }

  /** The mark of the report is halfway between the first bid and the first ask of the last snapshot that
      lists both, and zero exactly when no snapshot does. */
  lemma {:induction false} LastMidIs(turns: seq<Turn>)
    ensures (forall i :: 0 <= i < |turns| ==> !TwoSided(turns[i].event)) ==> LastMid(turns) == 0.0
    ensures forall i :: 0 <= i < |turns| && TwoSided(turns[i].event)
                        && (forall j :: i < j < |turns| ==> !TwoSided(turns[j].event)) ==>
                          var snap := turns[i].event.snapshot;
                          LastMid(turns) == (snap.bids[0].price + snap.asks[0].price) / 2.0
    decreases |turns|
  {
    if turns != [] {
      LastMidIs(turns[..|turns| - 1]);
      forall i | 0 <= i < |turns| && TwoSided(turns[i].event)
                 && (forall j :: i < j < |turns| ==> !TwoSided(turns[j].event))
        ensures LastMid(turns)
                == (turns[i].event.snapshot.bids[0].price + turns[i].event.snapshot.asks[0].price) / 2.0
      {
        if i < |turns| - 1 {
          assert !TwoSided(turns[|turns| - 1].event) && turns[..|turns| - 1][i] == turns[i];
        }
      }
    }
  }

  lemma AppliedSnoc(m: Rounding, a: Account, fills: seq<Fill>, f: Fill)
    ensures AppliedAll(m, a, fills + [f]) == Applied(m, AppliedAll(m, a, fills), f)
  {
    assert (fills + [f])[..|fills|] == fills;
  }

  /** Submits what the strategy did on one event. */
  method SubmitOrders(sim: FillSim, orders: seq<Order>, now: nat)
    requires sim.Coherent()
    modifies sim`pending
    ensures sim.Coherent() && sim.State() == SubmitAll(sim.cfg, old(sim.State()), orders, now)
  {
    hide Submit;
    var i := 0;
    while i < |orders|
      invariant 0 <= i <= |orders| && sim.Coherent()
      invariant sim.State() == SubmitAll(sim.cfg, old(sim.State()), orders[..i], now)
    {
      assert orders[..i + 1][..i] == orders[..i];
      sim.OnAction(orders[i].action, now, orders[i].jitterMs);
      i := i + 1;
    }
    assert orders[..|orders|] == orders;
  }

  /** Gives the fills of one event to the tracker. */
  method ApplyFills(tracker: PositionTracker, fills: seq<Fill>, ghost before: seq<Fill>)
    requires tracker.View() == AppliedAll(tracker.mode, FLAT, before)
    modifies tracker
    ensures tracker.View() == AppliedAll(tracker.mode, FLAT, before + fills)
  {
    hide Applied;
    assert before + fills[..0] == before;
    var i := 0;
    while i < |fills|
      invariant 0 <= i <= |fills|
      invariant tracker.View() == AppliedAll(tracker.mode, FLAT, before + fills[..i])
    {
      assert before + fills[..i + 1] == (before + fills[..i]) + [fills[i]];
      AppliedSnoc(tracker.mode, FLAT, before + fills[..i], fills[i]);
      tracker.Apply(fills[i]);
      i := i + 1;
    }
    assert fills[..|fills|] == fills;
  }

  lemma TurnsSnoc(evs: seq<MarketEvent>, ev: MarketEvent, script: nat -> (seq<Order>, Noise))
    ensures var t := Turn(ev, script(|evs|).0, script(|evs|).1);
            Turns(evs + [ev], script) == Turns(evs, script) + [t]
  {
  }

  lemma RunSnoc(cfg: SimConfig, s: Sim, turns: seq<Turn>, t: Turn)
    ensures var (s1, fills) := RunSim(cfg, s, turns);
            RunSim(cfg, s, turns + [t]) == (Step(cfg, s1, t).0, fills + Step(cfg, s1, t).1)
    ensures LastMid(turns + [t]) == MidOr(t.event, LastMid(turns))
  {
    hide Step;
    assert (turns + [t])[..|turns|] == turns;
  }

  lemma DrainStep(d: Data, st: ReplayState, done: seq<MarketEvent>)
    requires Ready(d, st) && st.cursor < |d.events|
    ensures var (st', ev) := NextStep(d, st);
            done + Drain(d, st) == (done + [ev.value]) + Drain(d, st')
            && (st'.cursor > st.cursor || (st'.cursor == st.cursor && TimeLeft(d, st') < TimeLeft(d, st)))
  {
    hide NextStep;
    NextProgress(d, st);
  }

  /** The whole run over a replay: the loop ends, having seen every event of the replay; the simulator
      ends where the run of values ends, and the report is the tracker's account of exactly the fills of
      that run, marked at the last mid. */
  method Run(replay: ParquetReplay, sim: FillSim, script: nat -> (seq<Order>, Noise)) returns (report: PnLReport)
    requires sim.Coherent() && Ready(replay.data, replay.State())
    modifies sim, replay
    ensures sim.Coherent() && Ready(replay.data, replay.State()) && replay.cursor == |replay.data.events|
    ensures var turns := Turns(Drain(replay.data, old(replay.State())), script);
            var (s', fills) := RunSim(sim.cfg, old(sim.State()), turns);
            && sim.State() == s'
            && report == Report(sim.cfg.rounding, AppliedAll(sim.cfg.rounding, FLAT, fills), LastMid(turns))
  {
    hide SubmitAll, OnMarketEvent, Applied, AppliedAll, NextStep, Turns, RunSim, LastMid, MidOr, Ready, Drain, TimeLeft,
      Report;
    var m, d := sim.cfg.rounding, replay.data;
    var tracker := new PositionTracker(m);
    var lastMid := 0.0;
    ghost var all: seq<Fill>, done: seq<MarketEvent> := [], [];
    NothingRun(sim.cfg, sim.State(), script);
    var i := 0;
    while true
      invariant |done| == i && sim.Coherent() && fresh(tracker) && tracker.mode == m && Ready(d, replay.State())
      invariant done + Drain(d, replay.State()) == Drain(d, old(replay.State()))
      invariant (sim.State(), all) == RunSim(sim.cfg, old(sim.State()), Turns(done, script))
      invariant tracker.View() == AppliedAll(m, FLAT, all)
      invariant lastMid == LastMid(Turns(done, script))
      decreases |d.events| - replay.cursor, TimeLeft(d, replay.State())
    {
      CursorInRange(d, replay.State());
      ghost var st := replay.State();
      var event := replay.Next();
      NextEnds(d, st);
      if event.None? {
        assert done + [] == done;
        break;
      }
      DrainStep(d, st, done);
      var ev, now := event.value, EventTs(event.value);
      lastMid := MidOr(ev, lastMid);
      TurnsSnoc(done, ev, script);
      RunSnoc(sim.cfg, old(sim.State()), Turns(done, script), Turn(ev, script(i).0, script(i).1));
      SubmitOrders(sim, script(i).0, now);
      var fills := sim.OnEvent(ev, now, script(i).1);
      ApplyFills(tracker, fills, all);
      all, done := all + fills, done + [ev];
      i := i + 1;
    }
    report := Report(m, tracker.View(), lastMid);
  }

  lemma NothingRun(cfg: SimConfig, s: Sim, script: nat -> (seq<Order>, Noise))
    ensures Turns([], script) == [] && RunSim(cfg, s, []) == (s, []) && LastMid([]) == 0.0
    ensures AppliedAll(cfg.rounding, FLAT, []) == FLAT
  {
  }

  lemma CursorInRange(d: Data, st: ReplayState)
    requires Ready(d, st)
    ensures st.cursor <= |d.events|
  {
  }

  lemma NextEnds(d: Data, st: ReplayState)
    requires Ready(d, st)
    ensures NextStep(d, st).1.Some? <==> st.cursor < |d.events|
    ensures st.cursor >= |d.events| ==> NextStep(d, st).0 == st && Drain(d, st) == []
  {
  }
}
