/** What the replay emits, event by event: each recorded trade as it was recorded, each snapshot with the
    levels its rows wrote, heartbeats exactly at the interval; and which orders a recorded trade fills. */
module Tape {
  import opened Core
  import opened Venue
  import opened Matching
  import opened QueuePosition
  import opened Cancels
  import opened Replay

  // ---------------------------------------------------------------------------------------------
  // Trades

  function TradesIn(evs: seq<MarketEvent>): seq<MarketEvent> {
    if evs == [] then [] else (if evs[0].Trade? then [evs[0]] else []) + TradesIn(evs[1..])
  }

  function TradeRows(events: seq<LoadedEvent>): seq<LoadedEvent> {
    if events == [] then [] else (if events[0].payload.TradeRow? then [events[0]] else []) + TradeRows(events[1..])
  }

  /** The event says what the row says; taker side 0 is a buyer. */
  predicate SaysTrade(symbols: seq<Symbol>, e: LoadedEvent, ev: MarketEvent) {
    && e.payload.TradeRow? && ev.Trade? && e.symbolIdx < |symbols|
    && ev.symbol == symbols[e.symbolIdx] && ev.price == e.payload.price && ev.size == e.payload.qty && ev.ts == e.tsNs
    && ev.side == if e.payload.takerSide == 0 then Bid else Ask
  }

  predicate AllSaid(symbols: seq<Symbol>, rows: seq<LoadedEvent>, evs: seq<MarketEvent>) {
    |rows| == |evs| && forall k :: 0 <= k < |rows| ==> SaysTrade(symbols, rows[k], evs[k])
  }

  lemma {:induction false} NoTradesInDeltas(events: seq<LoadedEvent>, n: nat)
    requires n <= |events| && forall k :: 0 <= k < n ==> events[k].payload.BookDelta?
    ensures TradeRows(events) == TradeRows(events[n..])
  {
    if n > 0 {
      NoTradesInDeltas(events[1..], n - 1);
      assert events[1..][n - 1..] == events[n..];
    }
  }

  lemma SaidCons(symbols: seq<Symbol>, e: LoadedEvent, ev: MarketEvent, rows: seq<LoadedEvent>, evs: seq<MarketEvent>)
    requires AllSaid(symbols, rows, evs) && SaysTrade(symbols, e, ev)
    ensures AllSaid(symbols, [e] + rows, [ev] + evs)
  {
    hide SaysTrade;
  }

  lemma TradesCons(ev: MarketEvent, evs: seq<MarketEvent>)
    ensures TradesIn([ev] + evs) == (if ev.Trade? then [ev] else []) + TradesIn(evs)
  {
    assert ([ev] + evs)[1..] == evs;
  }

  lemma RowsFrom(events: seq<LoadedEvent>, i: nat)
    requires i < |events| && events[i].payload.TradeRow?
    ensures TradeRows(events[i..]) == [events[i]] + TradeRows(events[i + 1..])
  {
    assert events[i..][1..] == events[i + 1..];
  }

  /** Whatever order the data is in, the trades a replay emits are the trade rows still to come, one for one
      and in order, each with its row's symbol, price, size and time, and a buy exactly if its row says so. */
  lemma {:induction false} TradesAsRecorded(d: Data, st: ReplayState)
    requires Ready(d, st)
    ensures AllSaid(d.symbols, TradeRows(d.events[st.cursor..]), TradesIn(Drain(d, st)))
    decreases |d.events| - st.cursor, TimeLeft(d, st)
  {
    if st.cursor < |d.events| {
      hide NextStep, WellIndexed;
      NextProgress(d, st);
      var (st', ev) := NextStep(d, st);
      TradesAsRecorded(d, st');
      TradesCons(ev.value, Drain(d, st'));
      NextTrade(d, st);
      if ev.value.Trade? {
        SaidCons(d.symbols, d.events[st.cursor], ev.value, TradeRows(d.events[st'.cursor..]), TradesIn(Drain(d, st')));
      } else {
        assert [] + TradesIn(Drain(d, st')) == TradesIn(Drain(d, st'));
      }
    } else {
      hide NextStep;
      assert d.events[st.cursor..] == [];
    }
  }

  /** One emission: a trade says what the row at the cursor says, and anything else passes no trade row. */
  lemma NextTrade(d: Data, st: ReplayState)
    requires Ready(d, st) && st.cursor < |d.events|
    ensures var (st', ev) := NextStep(d, st);
            if ev.value.Trade?
            then SaysTrade(d.symbols, d.events[st.cursor], ev.value)
                 && TradeRows(d.events[st.cursor..]) == [d.events[st.cursor]] + TradeRows(d.events[st'.cursor..])
            else TradeRows(d.events[st.cursor..]) == TradeRows(d.events[st'.cursor..])
  {
    hide SnapshotOf, ApplyRows, TradeRows;
    var e := d.events[st.cursor];
    if !HeartbeatDue(d, st) && e.payload.BookDelta? {
      var end := GroupEnd(d.events, e, st.cursor);
      assert d.events[st.cursor..][end - st.cursor..] == d.events[end..];
      NoTradesInDeltas(d.events[st.cursor..], end - st.cursor);
    } else if !HeartbeatDue(d, st) {
      RowsFrom(d.events, st.cursor);
    }
  }

  /** A trade fills only orders on the other side, of its symbol, and leaves all others resting as they are. */
  lemma TradeFillsOtherSide(cfg: SimConfig, s: Sim, ev: MarketEvent)
    requires AllHealthy(s.live) && ev.Trade?
    ensures var (s', fills) := React(cfg, s, ev);
            && (forall f :: f in fills ==> f.side != ev.side)
            && (forall q :: q in s.live && (q.side == ev.side || q.symbol != ev.symbol) ==> q in s'.live)
  {
    hide TradeBites, LiveAfter, Drained, SettleBites, MakerFills, Without, Healthy;
    var bites := TradeBites(s, ev.symbol, ev.price, ev.size, ev.side);
    var live' := LiveAfter(s.live, bites);
    TradeBitesAt(s, ev.symbol, ev.price, ev.size, ev.side);
    FillsOnSide(cfg, bites, ev.ts, ev.side.Opposite());
    OppositeSide(ev.side);
    forall q | q in s.live && (q.side == ev.side || q.symbol != ev.symbol)
      ensures q in React(cfg, s, ev).0.live
    {
      var i :| 0 <= i < |s.live| && s.live[i] == q;
      OrderAfterTrade(s, ev.symbol, ev.price, ev.size, ev.side, i);
      StillWhole(s.live[i], ev.symbol, ev.side, ev.price);
      HealthyAtIndex(s.live, i);
      WithoutHolds(live', Drained(bites), 0, i);
    }
  }

  lemma OppositeSide(side: Side)
    ensures side.Opposite() != side
  {
  }

  lemma HealthyAtIndex(live: seq<LiveQuote>, i: nat)
    requires AllHealthy(live) && i < |live|
    ensures live[i].size > 0.0
  {
  }

  lemma StillWhole(q: LiveQuote, symbol: Symbol, side: Side, price: real)
    requires q.side == side || q.symbol != symbol
    ensures !IsEligible(q, symbol, side, price)
  {
  }

  lemma {:induction false} FillsOnSide(cfg: SimConfig, bites: seq<Bite>, ts: nat, side: Side)
    requires forall b :: b in bites ==> b.quote.side == side
    ensures forall f :: f in MakerFills(cfg, bites, ts) ==> f.side == side
  {
    if bites != [] {
      hide MakerFee;
      assert bites[0] in bites;
      FillsOnSide(cfg, bites[1..], ts, side);
    }
  }

  /** Through the simulator: the recorded trade of a row with taker side 0 fills asks and leaves every resting
      bid as it is, and that of any other row fills bids and leaves every resting ask. */
  lemma RecordedTradesFill(d: Data, st: ReplayState, cfg: SimConfig, s: Sim, k: nat)
    requires Ready(d, st) && AllHealthy(s.live) && k < |TradesIn(Drain(d, st))|
    ensures var rows, ev := TradeRows(d.events[st.cursor..]), TradesIn(Drain(d, st))[k];
            && k < |rows| && rows[k].payload.TradeRow? && ev.Trade?
            && var buy, (s', fills) := rows[k].payload.takerSide == 0, React(cfg, s, ev);
               && (forall f :: f in fills ==> f.side == if buy then Ask else Bid)
               && (forall q :: q in s.live && q.side == (if buy then Bid else Ask) ==> q in s'.live)
  {
    hide React, AllHealthy, Drain, TradesIn, TradeRows;
    TradesAsRecorded(d, st);
    var rows, ev := TradeRows(d.events[st.cursor..]), TradesIn(Drain(d, st))[k];
    assert SaysTrade(d.symbols, rows[k], ev);
    TradeFillsOtherSide(cfg, s, ev);
  }

  // ---------------------------------------------------------------------------------------------
  // Snapshots

  lemma {:induction false} AscendingHas(m: map<int, Level>, k: int)
    requires k in m
    ensures m[k] in Ascending(m)
    decreases |m|
  {
    hide Ascending;
    var j := AscendingStep(m);
    if k != j {
      AscendingHas(m - {j}, k);
    }
  }

  /** The levels are those of the map, each at its own key. */
  predicate Lists(levels: seq<Level>, m: map<int, Level>) {
    && (forall l :: l in levels ==> exists k :: k in m && m[k] == l)
    && (forall k :: k in m ==> m[k] in levels)
  }

  lemma SidesListed(m: map<int, Level>)
    ensures Lists(Ascending(m), m) && Lists(Descending(m), m)
  {
    hide Ascending;
    var up, down := Ascending(m), Descending(m);
    forall l | l in up
      ensures exists k :: k in m && m[k] == l
    {
      var k := AscendingHolds(m, l);
    }
    forall k | k in m
      ensures m[k] in up && m[k] in down
    {
      AscendingHas(m, k);
      var i :| 0 <= i < |up| && up[i] == m[k];
      assert down[|up| - 1 - i] == m[k];
    }
    assert forall l :: l in down ==> l in up;
  }

  /** A group's rows are the delta rows of its time and symbol.  Its update is of that symbol and time; what
      it lists as bids are exactly the ticks where the last row of the bid side wrote a size, at that size
      and at tick times tick size, and likewise the asks. */
  lemma GroupUpdateShows(d: Data, e: LoadedEvent)
    requires e.payload.BookDelta? && e.symbolIdx < |d.symbols|
    ensures var rows, snap := GroupRows(d.events, e), GroupUpdate(d, e).snapshot;
            && (forall f :: f in rows <==> f in d.events && f.payload.BookDelta?
                                           && f.tsNs == e.tsNs && f.symbolIdx == e.symbolIdx)
            && Deltas(rows)
            && snap.symbol == d.symbols[e.symbolIdx] && snap.ts == e.tsNs
            && (forall l :: l in snap.bids ==> exists k :: LastAt(rows, true, k, d.tickSize, l))
            && (forall l :: l in snap.asks ==> exists k :: LastAt(rows, false, k, d.tickSize, l))
            && (forall k, l :: LastAt(rows, true, k, d.tickSize, l) ==> l in snap.bids)
            && (forall k, l :: LastAt(rows, false, k, d.tickSize, l) ==> l in snap.asks)
  {
    hide Ascending, Descending, ApplyRows, LastWritten;
    var rows, b := GroupRows(d.events, e), NEW_BOOK.(lastAppliedTs := e.tsNs);
    GroupRowsAre(d.events, e);
    assert forall k :: 0 <= k < |rows| ==> rows[k] in rows && rows[k].tsNs == e.tsNs;
    LastRowDecides(b, d.tickSize, rows, e.tsNs);
    var b' := ApplyRows(b, d.tickSize, rows);
    SidesListed(b'.bids);
    SidesListed(b'.asks);
    ListedAreLast(Descending(b'.bids), b'.bids, rows, true, d.tickSize);
    ListedAreLast(Ascending(b'.asks), b'.asks, rows, false, d.tickSize);
  }

  /** The last row on this side at this tick wrote a size that is not zero, and this is the level it left. */
  predicate LastAt(rows: seq<LoadedEvent>, bidSide: bool, ticks: int, tick: real, l: Level)
    requires Deltas(rows)
  {
    var z := LastWritten(rows, bidSide, ticks);
    z.Some? && z.value != 0.0 && l == Level(ticks as real * tick, z.value)
  }

  lemma ListedAreLast(levels: seq<Level>, m: map<int, Level>, rows: seq<LoadedEvent>, bidSide: bool, tick: real)
    requires Deltas(rows) && Lists(levels, m) && SideShows(m, rows, bidSide, tick)
    ensures forall l :: l in levels ==> exists k :: LastAt(rows, bidSide, k, tick, l)
    ensures forall k, l :: LastAt(rows, bidSide, k, tick, l) ==> l in levels
  {
    hide LastWritten;
    forall l | l in levels
      ensures exists k :: LastAt(rows, bidSide, k, tick, l)
    {
      var k :| k in m && m[k] == l;
      assert LastAt(rows, bidSide, k, tick, l);
    }
    forall k, l | LastAt(rows, bidSide, k, tick, l)
      ensures l in levels
    {
      assert k in m && m[k] == l;
    }
  }

  // ---------------------------------------------------------------------------------------------
  // Heartbeats

  /** Each heartbeat comes exactly one interval after what was emitted before it. */
  predicate OnBeat(evs: seq<MarketEvent>, intervalNs: nat) {
    forall k :: 1 <= k < |evs| && evs[k].Heartbeat? ==>
      intervalNs > 0 && EventTs(evs[k]) == EventTs(evs[k - 1]) + intervalNs
  }

  function IntervalNs(d: Data): nat {
    if d.heartbeatMs * 1000000 <= U64_MAX then d.heartbeatMs * 1000000 else U64_MAX
  }

  lemma NextBeat(d: Data, st: ReplayState)
    requires Ready(d, st) && st.cursor < |d.events|
    ensures var (st', ev) := NextStep(d, st);
            && st'.lastEmitted == Some(EventTs(ev.value))
            && (ev.value.Heartbeat? ==>
                  && IntervalNs(d) > 0 && st.lastEmitted.Some?
                  && EventTs(ev.value) == st.lastEmitted.value + IntervalNs(d))
  {
    hide ApplyRows, Ascending, Descending;
  }

  lemma BeatCons(ev: MarketEvent, evs: seq<MarketEvent>, intervalNs: nat)
    requires OnBeat(evs, intervalNs)
    requires evs != [] && evs[0].Heartbeat? ==> intervalNs > 0 && EventTs(evs[0]) == EventTs(ev) + intervalNs
    ensures OnBeat([ev] + evs, intervalNs)
  {
    var all := [ev] + evs;
    forall k | 1 <= k < |all| && all[k].Heartbeat?
      ensures intervalNs > 0 && EventTs(all[k]) == EventTs(all[k - 1]) + intervalNs
    {
      assert all[k] == evs[k - 1];
    }
  }

  /** A replay emits heartbeats exactly one interval after the last emission, none when the interval is zero,
      and none before the first event. */
  lemma {:induction false} DrainOnBeat(d: Data, st: ReplayState)
    requires Ready(d, st)
    ensures var evs := Drain(d, st);
            && OnBeat(evs, IntervalNs(d))
            && (evs != [] && evs[0].Heartbeat? ==>
                  IntervalNs(d) > 0 && st.lastEmitted.Some? && EventTs(evs[0]) == st.lastEmitted.value + IntervalNs(d))
    decreases |d.events| - st.cursor, TimeLeft(d, st)
  {
    if st.cursor < |d.events| {
      hide NextStep, OnBeat, WellIndexed, IntervalNs;
      NextProgress(d, st);
      NextBeat(d, st);
      var (st', ev) := NextStep(d, st);
      DrainOnBeat(d, st');
      BeatCons(ev.value, Drain(d, st'), IntervalNs(d));
    } else {
      hide NextStep;
    }
  }
}
