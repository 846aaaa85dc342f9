/** Replaying loaded history: delta rows coalesced into one snapshot per group, heartbeats in the gaps. */
module Replay {
  import opened Core

  /** Side 0 is the bid side of a row, and the buying side of a trade. */
  datatype Payload =
    | BookDelta(side: nat, priceTicks: int, size: real, seqNo: nat)
    | TradeRow(price: real, qty: real, takerSide: nat)

  datatype LoadedEvent = LoadedEvent(tsNs: nat, symbolIdx: nat, payload: Payload, src: nat)

  /** One symbol's book, keyed by integer ticks, and the time of the snapshot it holds. */
  datatype TickBook = TickBook(bids: map<int, Level>, asks: map<int, Level>, lastAppliedTs: nat)

  const NEW_BOOK := TickBook(map[], map[], 0)

  /** The loaded data: events, the symbols they index, tick size and heartbeat cadence. */
  datatype Data = Data(events: seq<LoadedEvent>, symbols: seq<Symbol>, tickSize: real, heartbeatMs: nat)

  function PriceAt(ticks: int, tick: real): real {
    ticks as real * tick
  }

  /** A new timestamp is a new full snapshot, so both sides are cleared before its first row. */
  function ApplyDeltaRow(b: TickBook, tick: real, ts: nat, row: Payload): TickBook
    requires row.BookDelta?
  {
    var b1 := if ts != b.lastAppliedTs then TickBook(map[], map[], ts) else b;
    if row.side == 0 then b1.(bids := WithLevel(b1.bids, tick, row)) else b1.(asks := WithLevel(b1.asks, tick, row))
  }

  function WithLevel(levels: map<int, Level>, tick: real, row: Payload): map<int, Level>
    requires row.BookDelta?
  {
    if row.size == 0.0 then levels - {row.priceTicks}
    else levels[row.priceTicks := Level(PriceAt(row.priceTicks, tick), row.size)]
  }

  // ---------------------------------------------------------------------------------------------
  // Snapshots of a book

  predicate IsLowest(keys: set<int>, k: int) {
    k in keys && forall j :: j in keys ==> k <= j
  }

  lemma LowestExists(keys: set<int>)
    requires keys != {}
    ensures exists k :: IsLowest(keys, k)
    decreases keys
  {
    var k := SomeElement(keys);
    if keys != {k} {
      LowestExists(keys - {k});
      var j :| IsLowest(keys - {k}, j);
      assert forall i :: i in keys ==> i == k || i in keys - {k};
      if k <= j {
        assert IsLowest(keys, k);
      } else {
        assert IsLowest(keys, j);
      }
    } else {
      assert IsLowest(keys, k);
    }
  }

  /** The levels in ascending order of their keys. */
  function Ascending(m: map<int, Level>): seq<Level>
    decreases |m|
  {
    if m == map[] then []
    else
      LowestExists(m.Keys);
      var k :| IsLowest(m.Keys, k);
      [m[k]] + Ascending(m - {k})
  }

  function Descending(m: map<int, Level>): seq<Level> {
    Reverse(Ascending(m))
  }

  function Reverse(xs: seq<Level>): (r: seq<Level>)
    ensures |r| == |xs|
    ensures forall i :: 0 <= i < |xs| ==> r[i] == xs[|xs| - 1 - i]
  {
    if xs == [] then [] else Reverse(xs[1..]) + [xs[0]]
  }

  /** Every level sits at its key's price. */
  predicate Keyed(m: map<int, Level>, tick: real) {
    forall k :: k in m ==> m[k].price == PriceAt(k, tick)
  }

  predicate Rising(levels: seq<Level>) {
    forall i, j :: 0 <= i < j < |levels| ==> levels[i].price < levels[j].price
  }

  lemma AscendingStep(m: map<int, Level>) returns (k: int)
    requires m != map[]
    ensures IsLowest(m.Keys, k) && Ascending(m) == [m[k]] + Ascending(m - {k})
  {
    LowestExists(m.Keys);
    k :| IsLowest(m.Keys, k);
    var j :| IsLowest(m.Keys, j) && Ascending(m) == [m[j]] + Ascending(m - {j});
    assert j == k;
  }

  lemma {:induction false} AscendingHolds(m: map<int, Level>, l: Level) returns (k: int)
    requires l in Ascending(m)
    ensures k in m && m[k] == l
    decreases |m|
  {
    k := AscendingStep(m);
    if m[k] != l {
      k := AscendingHolds(m - {k}, l);
    }
  }

  lemma TickOrder(a: int, b: int, tick: real)
    requires a < b && tick > 0.0
    ensures PriceAt(a, tick) < PriceAt(b, tick)
  {
  }

  lemma RisingCons(l: Level, levels: seq<Level>)
    requires Rising(levels) && forall r :: r in levels ==> l.price < r.price
    ensures Rising([l] + levels)
  {
    assert forall j :: 0 <= j < |levels| ==> levels[j] in levels;
  }

  lemma {:induction false} AscendingRises(m: map<int, Level>, tick: real)
    requires Keyed(m, tick) && tick > 0.0
    ensures Rising(Ascending(m))
    decreases |m|
  {
    if m != map[] {
      hide Rising, Ascending, PriceAt;
      var k := AscendingStep(m);
      assert Keyed(m - {k}, tick);
      assert forall i :: i in m - {k} ==> k < i;
      var rest := Ascending(m - {k});
      AscendingRises(m - {k}, tick);
      forall r | r in rest
        ensures m[k].price < r.price
      {
        var i := AscendingHolds(m - {k}, r);
        assert m[i] == r && m[k].price == PriceAt(k, tick) && m[i].price == PriceAt(i, tick);
        TickOrder(k, i, tick);
      }
      RisingCons(m[k], rest);
    }
  }

  function SnapshotOf(b: TickBook, symbol: Symbol, ts: nat): Snapshot {
    Snapshot(symbol, Descending(b.bids), Ascending(b.asks), ts)
  }

  // ---------------------------------------------------------------------------------------------
  // Groups of delta rows

  /** Rows of one recorded snapshot: deltas with the same time and symbol. */
  predicate SameGroup(e: LoadedEvent, f: LoadedEvent) {
    e.payload.BookDelta? && f.payload.BookDelta? && e.tsNs == f.tsNs && e.symbolIdx == f.symbolIdx
  }

  /** The first index after `i` whose event is not in the group of `first`. */
  function GroupEnd(events: seq<LoadedEvent>, first: LoadedEvent, i: nat): (j: nat)
    requires i <= |events|
    ensures i <= j <= |events|
    ensures forall k :: i <= k < j ==> SameGroup(first, events[k])
    ensures j < |events| ==> !SameGroup(first, events[j])
    decreases |events| - i
  {
    if i == |events| || !SameGroup(first, events[i]) then i else GroupEnd(events, first, i + 1)
  }

  predicate Deltas(rows: seq<LoadedEvent>) {
    forall k :: 0 <= k < |rows| ==> rows[k].payload.BookDelta?
  }

  function ApplyRows(b: TickBook, tick: real, rows: seq<LoadedEvent>): TickBook
    requires Deltas(rows)
    decreases |rows|
  {
    if rows == [] then b
    else ApplyDeltaRow(ApplyRows(b, tick, rows[..|rows| - 1]), tick, rows[|rows| - 1].tsNs, rows[|rows| - 1].payload)
  }

  // ---------------------------------------------------------------------------------------------
  // One call of `next`

  datatype ReplayState = ReplayState(books: seq<TickBook>, cursor: nat, lastEmitted: Option<nat>)

  /** Events name configured symbols, and their times are 64-bit. */
  predicate WellIndexed(d: Data) {
    forall k :: 0 <= k < |d.events| ==> d.events[k].symbolIdx < |d.symbols| && d.events[k].tsNs <= U64_MAX
  }

  predicate Ready(d: Data, st: ReplayState) {
    WellIndexed(d) && |st.books| == |d.symbols| && st.cursor <= |d.events|
  }

  function HeartbeatNs(d: Data): nat {
    SatMul(d.heartbeatMs, 1000000)
  }

  /** A heartbeat is due strictly before the next event. */
  predicate HeartbeatDue(d: Data, st: ReplayState)
    requires st.cursor < |d.events|
  {
    && HeartbeatNs(d) > 0 && st.lastEmitted.Some?
    && SatAdd(st.lastEmitted.value, HeartbeatNs(d)) < d.events[st.cursor].tsNs
  }

  function TradeEvent(d: Data, e: LoadedEvent): MarketEvent
    requires e.payload.TradeRow? && e.symbolIdx < |d.symbols|
  {
    Trade(d.symbols[e.symbolIdx], e.payload.price, e.payload.qty, if e.payload.takerSide == 0 then Bid else Ask, e.tsNs)
  }

  function NextStep(d: Data, st: ReplayState): (r: (ReplayState, Option<MarketEvent>))
    requires Ready(d, st)
    ensures Ready(d, r.0)
    ensures r.1.Some? <==> st.cursor < |d.events|
  {
    if st.cursor >= |d.events| then (st, None)
    else if HeartbeatDue(d, st) then
      var hb := SatAdd(st.lastEmitted.value, HeartbeatNs(d));
      (st.(lastEmitted := Some(hb)), Some(Heartbeat(hb)))
    else
      var e := d.events[st.cursor];
      if e.payload.TradeRow? then
        (st.(cursor := st.cursor + 1, lastEmitted := Some(e.tsNs)), Some(TradeEvent(d, e)))
      else
        var end := GroupEnd(d.events, e, st.cursor);
        var book := ApplyRows(st.books[e.symbolIdx], d.tickSize, d.events[st.cursor..end]);
        (ReplayState(st.books[e.symbolIdx := book], end, Some(e.tsNs)),
         Some(BookUpdate(SnapshotOf(book, d.symbols[e.symbolIdx], e.tsNs))))
  }

  class ParquetReplay {
    const data: Data
    var books: seq<TickBook>
    var cursor: nat
    var lastEmittedTs: Option<nat>

    function State(): ReplayState
      reads this
    {
      ReplayState(books, cursor, lastEmittedTs)
    }

    constructor (data: Data)
      requires WellIndexed(data)
      ensures this.data == data && State() == Start(data) && Ready(data, State())
    {
      this.data := data;
      books, cursor, lastEmittedTs := seq(|data.symbols|, _ => NEW_BOOK), 0, None;
    }

    /** The next event, or `None` at the end of the data. */
    method Next() returns (ev: Option<MarketEvent>)
      requires Ready(data, State())
      modifies this
      ensures Ready(data, State()) && (State(), ev) == NextStep(data, old(State()))
    {
      if cursor >= |data.events| {
        return None;
      }
      var nextEventTs := data.events[cursor].tsNs;
      if lastEmittedTs.Some? {
        var hbNs := SatMul(data.heartbeatMs, 1000000);
        if hbNs > 0 {
          var nextHbTs := SatAdd(lastEmittedTs.value, hbNs);
          if nextHbTs < nextEventTs {
            lastEmittedTs := Some(nextHbTs);
            return Some(Heartbeat(nextHbTs));
          }
        }
      }
      var e := data.events[cursor];
      lastEmittedTs := Some(nextEventTs);
      match e.payload {
        case TradeRow(_, _, _) =>
          cursor := cursor + 1;
          return Some(TradeEvent(data, e));
        case BookDelta(_, _, _, _) =>
          ConsumeGroup();
          return Some(BookUpdate(SnapshotOf(books[e.symbolIdx], data.symbols[e.symbolIdx], e.tsNs)));
      }
    }

    /** Applies the row at the cursor and every further row of its group. */
    method ConsumeGroup()
      requires Ready(data, State()) && cursor < |data.events| && data.events[cursor].payload.BookDelta?
      modifies this`books, this`cursor
      ensures var e, first := data.events[old(cursor)], old(cursor);
              && cursor == GroupEnd(data.events, e, first)
              && Deltas(data.events[first..cursor])
              && books == old(books)[
                   e.symbolIdx := ApplyRows(old(books)[e.symbolIdx], data.tickSize, data.events[first..cursor])]
    {
      hide ApplyDeltaRow, ApplyRows;
      var first, e := cursor, data.events[cursor];
      var idx := e.symbolIdx;
      assert SameGroup(e, e);
      NoRows(books[idx], data.tickSize, data.events, first);
      OneMoreRow(books[idx], data.tickSize, data.events, e, first, first);
      books := books[idx := ApplyDeltaRow(books[idx], data.tickSize, e.tsNs, e.payload)];
      cursor := cursor + 1;
      while cursor < |data.events| && SameGroup(e, data.events[cursor])
        invariant first < cursor <= |data.events| && |books| == |old(books)|
        invariant GroupEnd(data.events, e, first) == GroupEnd(data.events, e, cursor)
        invariant Deltas(data.events[first..cursor])
        invariant books == old(books)[idx := ApplyRows(old(books)[idx], data.tickSize, data.events[first..cursor])]
      {
        OneMoreRow(old(books)[idx], data.tickSize, data.events, e, first, cursor);
        books := books[idx := ApplyDeltaRow(books[idx], data.tickSize, e.tsNs, data.events[cursor].payload)];
        cursor := cursor + 1;
      }
    }
  }

  lemma NoRows(b: TickBook, tick: real, events: seq<LoadedEvent>, i: nat)
    requires i <= |events|
    ensures Deltas(events[i..i]) && ApplyRows(b, tick, events[i..i]) == b
  {
  }

  lemma OneMoreRow(b: TickBook, tick: real, events: seq<LoadedEvent>, e: LoadedEvent, first: nat, cursor: nat)
    requires first <= cursor < |events| && SameGroup(e, events[cursor])
    requires Deltas(events[first..cursor])
    ensures Deltas(events[first..cursor + 1])
    ensures ApplyRows(b, tick, events[first..cursor + 1])
            == ApplyDeltaRow(ApplyRows(b, tick, events[first..cursor]), tick, e.tsNs, events[cursor].payload)
  {
    hide ApplyDeltaRow;
    assert events[first..cursor + 1] == events[first..cursor] + [events[cursor]];
    assert events[first..cursor + 1][..cursor - first] == events[first..cursor];
  }

  function Start(d: Data): ReplayState {
    ReplayState(seq(|d.symbols|, _ => NEW_BOOK), 0, None)
  }

  // ---------------------------------------------------------------------------------------------
  // Draining the replay

  /** How far the replay is from its end: events left, then time left to the next one. */
  function TimeLeft(d: Data, st: ReplayState): nat {
    if st.cursor < |d.events| && st.lastEmitted.Some? && st.lastEmitted.value < d.events[st.cursor].tsNs
    then d.events[st.cursor].tsNs - st.lastEmitted.value else 0
  }

  lemma NextProgress(d: Data, st: ReplayState)
    requires Ready(d, st) && st.cursor < |d.events|
    ensures var st' := NextStep(d, st).0;
            st'.cursor > st.cursor || (st'.cursor == st.cursor && TimeLeft(d, st') < TimeLeft(d, st))
  {
    hide SnapshotOf, ApplyRows;
    if !HeartbeatDue(d, st) && d.events[st.cursor].payload.BookDelta? {
      assert SameGroup(d.events[st.cursor], d.events[st.cursor]);
    }
  }

  /** Everything the replay emits from a state on. */
  function Drain(d: Data, st: ReplayState): seq<MarketEvent>
    requires Ready(d, st)
    decreases |d.events| - st.cursor, TimeLeft(d, st)
  {
    if st.cursor >= |d.events| then []
    else
      NextProgress(d, st);
      var (st', ev) := NextStep(d, st);
      [ev.value] + Drain(d, st')
  }

  // ---------------------------------------------------------------------------------------------
  // The specification

  /** The replay's sort key: time, symbol rank, deltas before trades, source position. */
  predicate KeyLe(e: LoadedEvent, f: LoadedEvent, rank: seq<nat>)
    requires e.symbolIdx < |rank| && f.symbolIdx < |rank|
  {
    || e.tsNs < f.tsNs
    || (e.tsNs == f.tsNs
        && (|| rank[e.symbolIdx] < rank[f.symbolIdx]
            || (rank[e.symbolIdx] == rank[f.symbolIdx]
                && (|| (e.payload.BookDelta? && f.payload.TradeRow?)
                    || (e.payload.BookDelta? == f.payload.BookDelta? && e.src <= f.src)))))
  }

  /** Sorted by the key, with the symbols ranked one to one. */
  predicate Sorted(events: seq<LoadedEvent>, rank: seq<nat>) {
    && (forall k :: 0 <= k < |events| ==> events[k].symbolIdx < |rank|)
    && (forall i, j :: 0 <= i < j < |rank| ==> rank[i] != rank[j])
    && (forall i, j :: 0 <= i < j < |events| ==> KeyLe(events[i], events[j], rank))
  }

  function GroupOf(e: LoadedEvent): LoadedEvent -> bool {
    (f: LoadedEvent) => SameGroup(e, f)
  }

  /** All delta rows of the data with this event's time and symbol. */
  function GroupRows(events: seq<LoadedEvent>, e: LoadedEvent): seq<LoadedEvent> {
    Filter(events, GroupOf(e))
  }

  lemma GroupRowsAre(events: seq<LoadedEvent>, e: LoadedEvent)
    ensures Deltas(GroupRows(events, e))
  {
    var rows := GroupRows(events, e);
    assert forall k :: 0 <= k < |rows| ==> rows[k] in rows;
  }

  /** What a delta row stands for: the snapshot folded from an empty book by the rows of its group alone. */
  function GroupUpdate(d: Data, e: LoadedEvent): MarketEvent
    requires e.payload.BookDelta? && e.symbolIdx < |d.symbols|
  {
    var rows := GroupRows(d.events, e);
    GroupRowsAre(d.events, e);
    BookUpdate(SnapshotOf(ApplyRows(NEW_BOOK.(lastAppliedTs := e.tsNs), d.tickSize, rows), d.symbols[e.symbolIdx],
                          e.tsNs))
  }

  /** Row `i` opens its group. */
  predicate Opens(events: seq<LoadedEvent>, i: nat)
    requires i < |events|
  {
    i == 0 || !SameGroup(events[i - 1], events[i])
  }

  /** Each trade once, and one update per group where the group opens. */
  function Specified(d: Data, i: nat): seq<MarketEvent>
    requires WellIndexed(d) && i <= |d.events|
    decreases |d.events| - i
  {
    if i == |d.events| then []
    else if d.events[i].payload.TradeRow? then [TradeEvent(d, d.events[i])] + Specified(d, i + 1)
    else if Opens(d.events, i) then [GroupUpdate(d, d.events[i])] + Specified(d, i + 1)
    else Specified(d, i + 1)
  }

  predicate IsReal(ev: MarketEvent) {
    !ev.Heartbeat?
  }

  function RealOnly(evs: seq<MarketEvent>): seq<MarketEvent> {
    if evs == [] then [] else (if IsReal(evs[0]) then [evs[0]] else []) + RealOnly(evs[1..])
  }

  // ---------------------------------------------------------------------------------------------
  // Groups are contiguous

  /** In sorted data, two rows of one group have only rows of that group between them. */
  lemma GroupContiguous(events: seq<LoadedEvent>, rank: seq<nat>, i: nat, k: nat, j: nat)
    requires Sorted(events, rank) && i < k < j < |events| && SameGroup(events[i], events[j])
    ensures SameGroup(events[i], events[k])
  {
    assert KeyLe(events[i], events[k], rank) && KeyLe(events[k], events[j], rank);
  }

  /** All rows of the group that opens at `i` are the rows from `i` to the group's end. */
  lemma GroupIsRun(events: seq<LoadedEvent>, rank: seq<nat>, i: nat)
    requires Sorted(events, rank) && i < |events| && events[i].payload.BookDelta? && Opens(events, i)
    ensures GroupRows(events, events[i]) == events[i..GroupEnd(events, events[i], i)]
  {
    hide Sorted, Filter;
    var end, keep := GroupEnd(events, events[i], i), GroupOf(events[i]);
    NoRowsBefore(events, rank, i);
    NoRowsAfter(events, rank, i);
    FilterNone(events[..i], keep);
    FilterAll(events[i..end], keep);
    FilterNone(events[end..], keep);
    FilterAppend(events[..i], events[i..], keep);
    FilterAppend(events[i..end], events[end..], keep);
    assert events == events[..i] + events[i..] && events[i..] == events[i..end] + events[end..];
  }

  lemma NoRowsBefore(events: seq<LoadedEvent>, rank: seq<nat>, i: nat)
    requires Sorted(events, rank) && i < |events| && Opens(events, i)
    ensures forall k :: 0 <= k < i ==> !SameGroup(events[i], events[k])
  {
    hide Sorted;
    forall k | 0 <= k < i
      ensures !SameGroup(events[i], events[k])
    {
      if SameGroup(events[i], events[k]) && k < i - 1 {
        GroupContiguous(events, rank, k, i - 1, i);
      }
    }
  }

  lemma NoRowsAfter(events: seq<LoadedEvent>, rank: seq<nat>, i: nat)
    requires Sorted(events, rank) && i < |events|
    ensures forall k :: GroupEnd(events, events[i], i) <= k < |events| ==> !SameGroup(events[i], events[k])
  {
    hide Sorted;
    var end := GroupEnd(events, events[i], i);
    forall k | end <= k < |events|
      ensures !SameGroup(events[i], events[k])
    {
      if SameGroup(events[i], events[k]) && end < k {
        assert SameGroup(events[i], events[i]);
        GroupContiguous(events, rank, i, end, k);
      }
    }
  }

  // ---------------------------------------------------------------------------------------------
  // Replay refines the specification

  /** Each symbol's book is older than every row still to come for it, or still new. */
  predicate BooksOlder(d: Data, st: ReplayState)
    requires Ready(d, st)
  {
    forall k :: st.cursor <= k < |d.events| && d.events[k].payload.BookDelta? ==>
      var b := st.books[d.events[k].symbolIdx];
      b.lastAppliedTs < d.events[k].tsNs || b == NEW_BOOK
  }

  lemma {:induction false} RowsFromEmpty(b: TickBook, tick: real, rows: seq<LoadedEvent>, ts: nat)
    requires Deltas(rows) && rows != [] && forall k :: 0 <= k < |rows| ==> rows[k].tsNs == ts
    requires b.lastAppliedTs != ts || (b.bids == map[] && b.asks == map[])
    ensures ApplyRows(b, tick, rows) == ApplyRows(NEW_BOOK.(lastAppliedTs := ts), tick, rows)
    ensures ApplyRows(b, tick, rows).lastAppliedTs == ts
    decreases |rows|
  {
    if |rows| == 1 {
      assert rows[..0] == [];
    } else {
      RowsFromEmpty(b, tick, rows[..|rows| - 1], ts);
    }
  }

  lemma GroupTimes(events: seq<LoadedEvent>, i: nat)
    requires i < |events| && events[i].payload.BookDelta?
    ensures var end := GroupEnd(events, events[i], i);
            && end > i && Deltas(events[i..end])
            && forall k :: 0 <= k < end - i ==> events[i..end][k].tsNs == events[i].tsNs
  {
    assert SameGroup(events[i], events[i]);
  }

  /** The update emitted for a group is the one specified, though the replay's book has a past. */
  lemma NextGroup(d: Data, st: ReplayState, rank: seq<nat>)
    requires Ready(d, st) && Sorted(d.events, rank) && BooksOlder(d, st)
    requires st.cursor < |d.events| && d.events[st.cursor].payload.BookDelta? && Opens(d.events, st.cursor)
    requires !HeartbeatDue(d, st)
    ensures var (st', ev) := NextStep(d, st);
            ev == Some(GroupUpdate(d, d.events[st.cursor])) && BooksOlder(d, st')
  {
    hide SnapshotOf, ApplyDeltaRow, ApplyRows;
    var i, e := st.cursor, d.events[st.cursor];
    var end := GroupEnd(d.events, e, i);
    GroupTimes(d.events, i);
    GroupIsRun(d.events, rank, i);
    RowsFromEmpty(st.books[e.symbolIdx], d.tickSize, d.events[i..end], e.tsNs);
    var st' := NextStep(d, st).0;
    NoRowsAfter(d.events, rank, i);
    forall k | st'.cursor <= k < |d.events| && d.events[k].payload.BookDelta?
      ensures var b := st'.books[d.events[k].symbolIdx]; b.lastAppliedTs < d.events[k].tsNs || b == NEW_BOOK
    {
      if d.events[k].symbolIdx == e.symbolIdx {
        assert KeyLe(e, d.events[k], rank);
      }
    }
  }

  lemma {:induction false} SkipGroup(d: Data, e: LoadedEvent, i: nat, j: nat)
    requires WellIndexed(d) && 0 < i <= j <= |d.events|
    requires SameGroup(e, d.events[i - 1]) && forall k :: i <= k < j ==> SameGroup(e, d.events[k])
    ensures Specified(d, i) == Specified(d, j)
    decreases j - i
  {
    if i < j {
      assert SameGroup(d.events[i - 1], d.events[i]);
      SkipGroup(d, e, i + 1, j);
    }
  }

  /** The cursor stands at the start, after a trade, or after a whole group. */
  predicate AtBoundary(d: Data, st: ReplayState) {
    0 < st.cursor < |d.events| && d.events[st.cursor].payload.BookDelta? ==> Opens(d.events, st.cursor)
  }

  lemma RealCons(ev: MarketEvent, evs: seq<MarketEvent>)
    ensures RealOnly([ev] + evs) == (if IsReal(ev) then [ev] else []) + RealOnly(evs)
  {
    assert ([ev] + evs)[1..] == evs;
  }

  /** Apart from heartbeats, the replay emits exactly what is specified: every trade once, in order, and
      one update per group of deltas, folded from an empty book by that group's rows alone. */
  lemma {:induction false} ReplayRefines(d: Data, st: ReplayState, rank: seq<nat>)
    requires Ready(d, st) && Sorted(d.events, rank) && BooksOlder(d, st) && AtBoundary(d, st)
    ensures RealOnly(Drain(d, st)) == Specified(d, st.cursor)
    decreases |d.events| - st.cursor, TimeLeft(d, st)
  {
    if st.cursor < |d.events| {
      hide NextStep, BooksOlder, AtBoundary, GroupUpdate, RealOnly, Specified, Sorted, WellIndexed;
      NextProgress(d, st);
      var (st', ev) := NextStep(d, st);
      NextSpecified(d, st, rank);
      RealCons(ev.value, Drain(d, st'));
      ReplayRefines(d, st', rank);
      assert [] + RealOnly(Drain(d, st')) == RealOnly(Drain(d, st'));
    } else {
      hide NextStep, BooksOlder;
    }
  }

  /** One emission: a heartbeat moves nothing, and anything else is the next thing specified. */
  lemma NextSpecified(d: Data, st: ReplayState, rank: seq<nat>)
    requires Ready(d, st) && Sorted(d.events, rank) && BooksOlder(d, st) && AtBoundary(d, st) && st.cursor < |d.events|
    ensures var (st', ev) := NextStep(d, st);
            && BooksOlder(d, st') && AtBoundary(d, st')
            && Specified(d, st.cursor) == (if IsReal(ev.value) then [ev.value] else []) + Specified(d, st'.cursor)
  {
    hide SnapshotOf, ApplyDeltaRow, ApplyRows, GroupUpdate, Sorted;
    var st' := NextStep(d, st).0;
    var e := d.events[st.cursor];
    if HeartbeatDue(d, st) {
      assert [] + Specified(d, st'.cursor) == Specified(d, st'.cursor);
    } else if e.payload.BookDelta? {
      NextGroup(d, st, rank);
      GroupTimes(d.events, st.cursor);
      SkipGroup(d, e, st.cursor + 1, st'.cursor);
    }
  }

  /** The same, from the beginning. */
  lemma ReplayFromStart(d: Data, rank: seq<nat>)
    requires WellIndexed(d) && Sorted(d.events, rank)
    ensures RealOnly(Drain(d, Start(d))) == Specified(d, 0)
  {
    ReplayRefines(d, Start(d), rank);
  }

  /** Snapshots show bids falling and asks rising, strictly. */
  lemma {:induction false} RowsKeyed(b: TickBook, tick: real, rows: seq<LoadedEvent>)
    requires Deltas(rows) && Keyed(b.bids, tick) && Keyed(b.asks, tick)
    ensures Keyed(ApplyRows(b, tick, rows).bids, tick) && Keyed(ApplyRows(b, tick, rows).asks, tick)
    decreases |rows|
  {
    if rows != [] {
      RowsKeyed(b, tick, rows[..|rows| - 1]);
    }
  }

  lemma GroupUpdateOrdered(d: Data, e: LoadedEvent)
    requires e.payload.BookDelta? && e.symbolIdx < |d.symbols| && d.tickSize > 0.0
    ensures var snap := GroupUpdate(d, e).snapshot;
            Rising(snap.asks) && forall i, j :: 0 <= i < j < |snap.bids| ==> snap.bids[i].price > snap.bids[j].price
  {
    var rows, b := GroupRows(d.events, e), NEW_BOOK.(lastAppliedTs := e.tsNs);
    GroupRowsAre(d.events, e);
    RowsKeyed(b, d.tickSize, rows);
    AscendingRises(ApplyRows(b, d.tickSize, rows).asks, d.tickSize);
    AscendingRises(ApplyRows(b, d.tickSize, rows).bids, d.tickSize);
  }

  /** The last size written on one side at one tick, if any row writes there. */
  function LastWritten(rows: seq<LoadedEvent>, bidSide: bool, ticks: int): Option<real>
    requires Deltas(rows)
    decreases |rows|
  {
    if rows == [] then None
    else
      var row := rows[|rows| - 1].payload;
      if (row.side == 0) == bidSide && row.priceTicks == ticks then Some(row.size)
      else LastWritten(rows[..|rows| - 1], bidSide, ticks)
  }

  /** The side shows exactly the ticks last written with a size other than zero, at that size and price. */
  ghost predicate SideShows(m: map<int, Level>, rows: seq<LoadedEvent>, bidSide: bool, tick: real)
    requires Deltas(rows)
  {
    forall k :: (k in m <==> LastWritten(rows, bidSide, k).Some? && LastWritten(rows, bidSide, k).value != 0.0)
                && (k in m ==> m[k] == Level(PriceAt(k, tick), LastWritten(rows, bidSide, k).value))
  }

  /** Folding a group from an empty book: on each side, the last row written at a tick decides. */
  lemma {:induction false} LastRowDecides(b: TickBook, tick: real, rows: seq<LoadedEvent>, ts: nat)
    requires Deltas(rows) && (forall k :: 0 <= k < |rows| ==> rows[k].tsNs == ts)
    requires b == NEW_BOOK.(lastAppliedTs := ts)
    ensures var b' := ApplyRows(b, tick, rows);
            b'.lastAppliedTs == ts && SideShows(b'.bids, rows, true, tick) && SideShows(b'.asks, rows, false, tick)
    decreases |rows|
  {
    if rows != [] {
      LastRowDecides(b, tick, rows[..|rows| - 1], ts);
    }
  }

  // ---------------------------------------------------------------------------------------------
  // Time

  /** Consecutive emissions: time does not go back, a heartbeat comes strictly before what follows it,
      and with heartbeats enabled no gap exceeds the interval. */
  predicate Paced(evs: seq<MarketEvent>, hb: nat) {
    forall k :: 0 <= k < |evs| - 1 ==>
      && EventTs(evs[k]) <= EventTs(evs[k + 1])
      && (evs[k].Heartbeat? ==> EventTs(evs[k]) < EventTs(evs[k + 1]))
      && (hb > 0 ==> EventTs(evs[k + 1]) <= EventTs(evs[k]) + hb)
  }

  /** One emission: where it stands in time against the last one and the next event. */
  lemma NextTimes(d: Data, st: ReplayState, rank: seq<nat>)
    requires Ready(d, st) && Sorted(d.events, rank) && st.cursor < |d.events|
    requires st.lastEmitted.Some? ==> st.lastEmitted.value <= d.events[st.cursor].tsNs
    ensures var (st', ev) := NextStep(d, st);
            && st'.lastEmitted == Some(EventTs(ev.value))
            && EventTs(ev.value) <= d.events[st.cursor].tsNs
            && (st'.cursor < |d.events| ==> EventTs(ev.value) <= d.events[st'.cursor].tsNs)
            && (ev.value.Heartbeat? ==>
                  HeartbeatNs(d) > 0 && st'.cursor == st.cursor && EventTs(ev.value) < d.events[st.cursor].tsNs)
            && (st.lastEmitted.Some? ==> EventTs(ev.value) >= st.lastEmitted.value)
            && (st.lastEmitted.Some? && HeartbeatNs(d) > 0
                ==> EventTs(ev.value) <= st.lastEmitted.value + HeartbeatNs(d))
            && (st.lastEmitted.Some? && st.lastEmitted.value < d.events[st.cursor].tsNs && HeartbeatNs(d) > 0 ==>
                  EventTs(ev.value) > st.lastEmitted.value)
  {
    hide Ascending, Descending, ApplyRows;
    var st' := NextStep(d, st).0;
    NextProgress(d, st);
    if st'.cursor < |d.events| && st'.cursor > st.cursor {
      assert KeyLe(d.events[st.cursor], d.events[st'.cursor], rank);
    }
  }

  /** A drain is paced, and starts no earlier than the last emission and within one interval of it. */
  lemma {:induction false} DrainPaced(d: Data, st: ReplayState, rank: seq<nat>)
    requires Ready(d, st) && Sorted(d.events, rank)
    requires st.lastEmitted.Some? && st.cursor < |d.events| ==> st.lastEmitted.value <= d.events[st.cursor].tsNs
    ensures var evs := Drain(d, st);
            && Paced(evs, HeartbeatNs(d))
            && (evs == [] <==> st.cursor == |d.events|)
            && (evs != [] ==>
                  && (st.lastEmitted.Some? ==> EventTs(evs[0]) >= st.lastEmitted.value)
                  && (st.lastEmitted.Some? && HeartbeatNs(d) > 0
                      ==> EventTs(evs[0]) <= st.lastEmitted.value + HeartbeatNs(d))
                  && !evs[|evs| - 1].Heartbeat?)
            && (evs != [] && st.lastEmitted.Some? && st.lastEmitted.value < d.events[st.cursor].tsNs
                && HeartbeatNs(d) > 0 ==>
                  EventTs(evs[0]) > st.lastEmitted.value)
    decreases |d.events| - st.cursor, TimeLeft(d, st)
  {
    if st.cursor < |d.events| {
      hide NextStep, Paced, Sorted, WellIndexed, HeartbeatNs;
      NextProgress(d, st);
      NextTimes(d, st, rank);
      var (st', ev) := NextStep(d, st);
      DrainPaced(d, st', rank);
      var rest := Drain(d, st');
      PacedCons(ev.value, rest, HeartbeatNs(d));
    } else {
      hide NextStep;
    }
  }

  lemma PacedCons(ev: MarketEvent, evs: seq<MarketEvent>, hb: nat)
    requires Paced(evs, hb)
    requires evs != [] ==> EventTs(ev) <= EventTs(evs[0]) && (ev.Heartbeat? ==> EventTs(ev) < EventTs(evs[0]))
                           && (hb > 0 ==> EventTs(evs[0]) <= EventTs(ev) + hb)
    ensures Paced([ev] + evs, hb)
  {
  }
}
