/** The synthetic tail that walks the price back to where the data began. */
module Retrace {
  import opened Decimals
  import opened Core
  import opened Replay
  import opened Survey

  const MAX_STEPS: nat := 20000
  const STEP_NS: nat := 1000000000
  const FAT_TRADE: real := 1000000000.0

  /** Tail rows sort after every real row of the same time. */
  const SRC_BASE: nat := 0xffff_ffff * 0x1_0000_0000

  function AbsInt(x: int): (r: nat)
    ensures r == x || r == -x
  {
    if x < 0 then -x else x
  }

  function MaxInt(x: int, y: int): int {
    if x < y then y else x
  }

  /** Ticks per step: the data's own cadence, but coarse enough for at most `MAX_STEPS` steps. */
  function StepTicks(medianMove: int, span: nat): (r: nat)
    ensures r >= 1 && r >= medianMove && r * MAX_STEPS > span
  {
    MaxInt(MaxInt(medianMove, 1), span / MAX_STEPS + 1)
  }

  /** One step towards the origin, clamped onto it. */
  function Advance(cur: int, origin: int, step: nat): int {
    if cur < origin then (if cur + step > origin then origin else cur + step)
    else if cur - step < origin then origin else cur - step
  }

  function QuoteRow(ts: nat, side: nat, ticks: int, seqNo: nat, row: nat): LoadedEvent {
    LoadedEvent(ts, 0, BookDelta(side, ticks, 1.0, seqNo), SRC_BASE + row)
  }

  /** A trade lifting asks on the way up, hitting bids on the way down. */
  function StepTrade(ts: nat, ticks: int, up: bool, tick: real, row: nat): LoadedEvent {
    LoadedEvent(ts, 0, TradeRow(PriceAt(ticks, tick), FAT_TRADE, if up then 0 else 1), SRC_BASE + row)
  }

  /** A snapshot one tick either side of the price, then a trade at it. */
  function StepRows(ts: nat, cur: int, up: bool, tick: real, seqNo: nat, row: nat): seq<LoadedEvent> {
    [QuoteRow(ts, 0, cur - 1, seqNo, row), QuoteRow(ts, 1, cur + 1, seqNo + 1, row + 1),
     StepTrade(ts + STEP_NS, cur, up, tick, row + 2)]
  }

  /** The prices the walk visits after `cur`. */
  function Walked(cur: int, origin: int, step: nat): seq<int>
    requires step >= 1
    decreases AbsInt(origin - cur)
  {
    if cur == origin then [] else [Advance(cur, origin, step)] + Walked(Advance(cur, origin, step), origin, step)
  }

  /** The rows of a walk through these prices. */
  function TailRows(prices: seq<int>, ts: nat, up: bool, tick: real, seqNo: nat, row: nat): seq<LoadedEvent> {
    if prices == [] then []
    else StepRows(ts, prices[0], up, tick, seqNo, row)
         + TailRows(prices[1..], ts + 2 * STEP_NS, up, tick, seqNo + 2, row + 3)
  }

  /** The tail, given the rounded last and first mids in ticks and the median mid move. */
  function Tail(events: seq<LoadedEvent>, endT: int, originT: int, medianMove: int, tick: real): seq<LoadedEvent> {
    TailRows(Walked(endT, originT, StepTicks(medianMove, AbsInt(originT - endT))), LastTs(events) + STEP_NS,
             originT > endT, tick, MaxSeq(events) + 1, 0)
  }

  // ---------------------------------------------------------------------------------------------
  // The usual move

  function InsertAscending(xs: seq<nat>, x: nat): (r: seq<nat>)
    ensures |r| == |xs| + 1
  {
    if xs == [] || x <= xs[0] then [x] + xs else [xs[0]] + InsertAscending(xs[1..], x)
  }

  function SortAscending(xs: seq<nat>): (r: seq<nat>)
    ensures |r| == |xs|
  {
    if xs == [] then [] else InsertAscending(SortAscending(xs[1..]), xs[0])
  }

  lemma {:induction false} InsertKeeps(xs: seq<nat>, x: nat)
    ensures multiset(InsertAscending(xs, x)) == multiset(xs) + multiset{x}
  {
    if xs != [] && x > xs[0] {
      InsertKeeps(xs[1..], x);
      assert xs == [xs[0]] + xs[1..];
    }
  }

  predicate Ascends(xs: seq<nat>) {
    forall i, j :: 0 <= i < j < |xs| ==> xs[i] <= xs[j]
  }

  lemma AscendsCons(x: nat, xs: seq<nat>)
    requires Ascends(xs) && forall y :: y in multiset(xs) ==> x <= y
    ensures Ascends([x] + xs)
  {
    assert forall j :: 0 <= j < |xs| ==> xs[j] in multiset(xs);
  }

  lemma AscendsTail(xs: seq<nat>)
    requires Ascends(xs) && xs != []
    ensures Ascends(xs[1..]) && forall y :: y in multiset(xs[1..]) ==> xs[0] <= y
  {
    assert forall y :: y in multiset(xs[1..]) ==> y in xs[1..];
  }

  lemma {:induction false} InsertSorts(xs: seq<nat>, x: nat)
    requires Ascends(xs)
    ensures Ascends(InsertAscending(xs, x))
  {
    hide Ascends;
    if xs == [] {
      AscendsCons(x, xs);
    } else {
      AscendsTail(xs);
      if x > xs[0] {
        InsertSorts(xs[1..], x);
        InsertKeeps(xs[1..], x);
        AscendsCons(xs[0], InsertAscending(xs[1..], x));
      } else {
        assert xs == [xs[0]] + xs[1..];
        AscendsCons(x, xs);
      }
    }
  }

  lemma {:induction false} SortSorts(xs: seq<nat>)
    ensures multiset(SortAscending(xs)) == multiset(xs)
    ensures Ascends(SortAscending(xs))
  {
    if xs != [] {
      hide InsertAscending, Ascends;
      SortSorts(xs[1..]);
      InsertSorts(SortAscending(xs[1..]), xs[0]);
      InsertKeeps(SortAscending(xs[1..]), xs[0]);
      assert xs == [xs[0]] + xs[1..];
    }
  }

  /** The upper median of the moves; one tick when there were none. */
  function MedianMove(moves: seq<nat>): nat {
    if moves == [] then 1 else SortAscending(moves)[|moves| / 2]
  }

  function CountIf(xs: seq<nat>, p: nat -> bool): nat {
    if xs == [] then 0 else (if p(xs[0]) then 1 else 0) + CountIf(xs[1..], p)
  }

  lemma {:induction false} InsertCounts(xs: seq<nat>, x: nat, p: nat -> bool)
    ensures CountIf(InsertAscending(xs, x), p) == CountIf(xs, p) + if p(x) then 1 else 0
  {
    if xs != [] && x > xs[0] {
      InsertCounts(xs[1..], x, p);
    }
  }

  lemma {:induction false} SortCounts(xs: seq<nat>, p: nat -> bool)
    ensures CountIf(SortAscending(xs), p) == CountIf(xs, p)
  {
    if xs != [] {
      hide InsertAscending;
      SortCounts(xs[1..], p);
      InsertCounts(SortAscending(xs[1..]), xs[0], p);
    }
  }

  lemma {:induction false} CountBelow(xs: seq<nat>, k: nat)
    requires k < |xs| && Ascends(xs)
    ensures CountIf(xs, (x: nat) => x < xs[k]) <= k
    ensures CountIf(xs, (x: nat) => x > xs[k]) <= |xs| - 1 - k
  {
    CountAt(xs, (x: nat) => x < xs[k], 0, k);
    CountAt(xs, (x: nat) => x > xs[k], k + 1, |xs|);
  }

  /** Only the positions from `lo` to `hi` can count. */
  lemma {:induction false} CountAt(xs: seq<nat>, p: nat -> bool, lo: nat, hi: nat)
    requires lo <= hi <= |xs| && forall i :: 0 <= i < |xs| && p(xs[i]) ==> lo <= i < hi
    ensures CountIf(xs, p) <= hi - lo
    decreases |xs|
  {
    if xs != [] {
      CountAt(xs[1..], p, if lo > 0 then lo - 1 else 0, if hi > 0 then hi - 1 else 0);
    }
  }

  /** The median is one of the moves; no more than half are smaller, and fewer than half larger. */
  lemma MedianIsMiddle(moves: seq<nat>)
    requires moves != []
    ensures MedianMove(moves) in moves
    ensures 2 * CountIf(moves, (x: nat) => x < MedianMove(moves)) <= |moves|
    ensures 2 * CountIf(moves, (x: nat) => x > MedianMove(moves)) < |moves|
  {
    hide SortAscending;
    SortSorts(moves);
    var sorted, k := SortAscending(moves), |moves| / 2;
    assert sorted[k] in multiset(sorted);
    CountBelow(sorted, k);
    var below, above := (x: nat) => x < sorted[k], (x: nat) => x > sorted[k];
    SortCounts(moves, below);
    SortCounts(moves, above);
    assert MedianMove(moves) == sorted[k];
    SameCount(moves, below, (x: nat) => x < MedianMove(moves));
    SameCount(moves, above, (x: nat) => x > MedianMove(moves));
    SameCount(sorted, below, (x: nat) => x < sorted[k]);
    SameCount(sorted, above, (x: nat) => x > sorted[k]);
  }

  lemma {:induction false} SameCount(xs: seq<nat>, p: nat -> bool, q: nat -> bool)
    requires forall x :: p(x) == q(x)
    ensures CountIf(xs, p) == CountIf(xs, q)
  {
    if xs != [] {
      SameCount(xs[1..], p, q);
    }
  }

  // ---------------------------------------------------------------------------------------------
  // The move that is not counted

  lemma {:induction false} AscendsUnique(xs: seq<nat>, ys: seq<nat>)
    requires Ascends(xs) && Ascends(ys) && multiset(xs) == multiset(ys)
    ensures xs == ys
    decreases |xs|
  {
    hide Ascends;
    assert |xs| == |multiset(xs)| && |ys| == |multiset(ys)|;
    if xs != [] {
      SameLeast(xs, ys);
      AscendsTail(xs);
      AscendsTail(ys);
      TailMultiset(xs);
      TailMultiset(ys);
      AscendsUnique(xs[1..], ys[1..]);
      assert xs == [xs[0]] + xs[1..] && ys == [ys[0]] + ys[1..];
    }
  }

  lemma SameLeast(xs: seq<nat>, ys: seq<nat>)
    requires Ascends(xs) && Ascends(ys) && multiset(xs) == multiset(ys) && xs != [] && ys != []
    ensures xs[0] == ys[0]
  {
    assert xs[0] in multiset(ys) && ys[0] in multiset(xs);
    var i :| 0 <= i < |ys| && ys[i] == xs[0];
    var j :| 0 <= j < |xs| && xs[j] == ys[0];
  }

  lemma SortSnoc(xs: seq<nat>, x: nat)
    ensures SortAscending(xs + [x]) == InsertAscending(SortAscending(xs), x)
  {
    hide SortAscending, InsertAscending, Ascends;
    SortSorts(xs);
    SortSorts(xs + [x]);
    InsertSorts(SortAscending(xs), x);
    InsertKeeps(SortAscending(xs), x);
    AscendsUnique(SortAscending(xs + [x]), InsertAscending(SortAscending(xs), x));
  }

  /** What stands at position `k` once `x` is inserted. */
  lemma {:induction false} InsertedAt(xs: seq<nat>, x: nat, k: nat)
    requires Ascends(xs) && k <= |xs|
    ensures InsertAscending(xs, x)[k]
            == if k < |xs| && xs[k] < x then xs[k] else if k == 0 || xs[k - 1] < x then x else xs[k - 1]
  {
    if xs != [] && x > xs[0] && k > 0 {
      InsertedAt(xs[1..], x, k - 1);
    }
  }

  /** One more move leaves the median of these sorted moves as it is. */
  predicate Unmoved(sorted: seq<nat>, move: nat) {
    var n, mid := |sorted|, |sorted| / 2;
    if n == 0 then move == 1
    else if n % 2 == 0 then move >= sorted[mid] || sorted[mid - 1] == sorted[mid]
    else move <= sorted[mid] || (mid + 1 < n && sorted[mid + 1] == sorted[mid])
  }

  lemma MedianUnmovedIff(moves: seq<nat>, move: nat)
    ensures MedianMove(moves + [move]) == MedianMove(moves) <==> Unmoved(SortAscending(moves), move)
  {
    hide SortAscending, InsertAscending, Unmoved, Ascends;
    SortSnoc(moves, move);
    SortSorts(moves);
    InsertedMiddle(SortAscending(moves), move);
  }

  /** The middle before and after an insertion into ascending moves. */
  lemma InsertedMiddle(sorted: seq<nat>, move: nat)
    requires Ascends(sorted)
    ensures InsertAscending(sorted, move)[(|sorted| + 1) / 2] == (if sorted == [] then 1 else sorted[|sorted| / 2])
            <==> Unmoved(sorted, move)
  {
    hide InsertAscending;
    var n, mid := |sorted|, |sorted| / 2;
    InsertedAt(sorted, move, (n + 1) / 2);
    if n > 0 && n % 2 == 0 {
      assert (n + 1) / 2 == mid && sorted[mid - 1] <= sorted[mid];
    } else if n > 0 {
      assert (n + 1) / 2 == mid + 1;
      assert mid + 1 < n ==> sorted[mid] <= sorted[mid + 1];
    }
  }

  /** The move into the snapshot still open at the end; none if either mid is missing. */
  function LastMove(events: seq<LoadedEvent>, tick: real): nat
    requires tick > 0.0
  {
    var (b, closed) := Closed(events, tick);
    if closed == [] || BookMid(b).None? then 0
    else Distance(ToTicks(BookMid(b).value, tick), ToTicks(closed[|closed| - 1], tick))
  }

  /** The step is documented to follow the median of the moves between consecutive mids.  It follows that
      of the moves counted, and the two medians agree if and only if the last move is zero or would not
      have moved the median. */
  lemma MedianOfAllIff(events: seq<LoadedEvent>, tick: real)
    requires tick > 0.0
    ensures var counted, all := Moves(Closed(events, tick).1, tick), Moves(SeenMids(events, tick), tick);
            var move := LastMove(events, tick);
            && all == counted + (if move > 0 then [move] else [])
            && (MedianMove(counted) == MedianMove(all) <==> move == 0 || Unmoved(SortAscending(counted), move))
  {
    hide Closed, BookMid, ToTicks, MedianMove, Unmoved, SortAscending;
    var (b, closed) := Closed(events, tick);
    var counted, move := Moves(closed, tick), LastMove(events, tick);
    assert counted + [] == counted;
    if closed != [] && BookMid(b).Some? {
      LastMoveNotCounted(events, tick);
      MedianUnmovedIff(counted, move);
    } else if BookMid(b).Some? {
      assert |SeenMids(events, tick)| == 1;
    }
  }

  /** Three snapshots at mids 10, 11 and 13: the step is one tick, though the median of the two moves
      between them is two. */
  function ThreeSnapshots(): seq<LoadedEvent> {
    Snap(1, 9, 11, 0) + Snap(2, 10, 12, 2) + Snap(3, 12, 14, 4)
  }

  function Snap(ts: nat, bid: int, ask: int, row: nat): seq<LoadedEvent> {
    [LoadedEvent(ts, 0, BookDelta(0, bid, 1.0, row), row), LoadedEvent(ts, 0, BookDelta(1, ask, 1.0, row + 1), row + 1)]
  }

  lemma OneLevel(k: int, l: Level)
    ensures Ascending(map[k := l]) == [l] && Descending(map[k := l]) == [l]
  {
    var m := map[k := l];
    assert k in m;
    var j := AscendingStep(m);
    assert j == k && m - {k} == map[] && Ascending(map[]) == [];
  }

  /** Two rows of a later time close what was open and leave one level a side. */
  lemma ClosedSnap(events: seq<LoadedEvent>, ts: nat, bid: int, ask: int, row: nat)
    requires Closed(events, 1.0).0.lastAppliedTs != ts && 0 < bid < ask
    ensures var (b, mids) := Closed(events, 1.0);
            var (b', mids') := Closed(events + Snap(ts, bid, ask, row), 1.0);
            && mids' == Appended(mids, BookMid(b)) && b'.lastAppliedTs == ts
            && BookMid(b') == Some((bid as real + ask as real) / 2.0)
  {
    hide BookMid, Closed;
    var rows := Snap(ts, bid, ask, row);
    var all := events + rows;
    ClosedSnoc(all, 1.0, |events|);
    ClosedSnoc(all, 1.0, |events| + 1);
    assert all[..|events|] == events && all[..|events| + 2] == all;
    var (b, mids) := Closed(events, 1.0);
    var lb, la := Level(PriceAt(bid, 1.0), 1.0), Level(PriceAt(ask, 1.0), 1.0);
    assert ApplyDeltaRow(b, 1.0, ts, rows[0].payload) == TickBook(map[bid := lb], map[], ts);
    assert Closed(all, 1.0).0 == TickBook(map[bid := lb], map[ask := la], ts);
    SnapMid(bid, ask, ts, lb, la);
  }

  lemma SnapMid(bid: int, ask: int, ts: nat, lb: Level, la: Level)
    requires lb.price == bid as real && la.price == ask as real && 0 < bid < ask
    ensures BookMid(TickBook(map[bid := lb], map[ask := la], ts)) == Some((bid as real + ask as real) / 2.0)
  {
    hide Ascending, Descending;
    OneLevel(bid, lb);
    OneLevel(ask, la);
  }

  lemma WholeTicks(n: int)
    ensures ToTicks(n as real, 1.0) == n
  {
  }

  lemma MedianLeavesLastMoveOut(symbol: Symbol)
    ensures var d := Data(ThreeSnapshots(), [symbol], 1.0, 0);
            && WellIndexed(d) && Sorted(d.events, [0])
            && var counted, all := Moves(Closed(d.events, 1.0).1, 1.0), Moves(SeenMids(d.events, 1.0), 1.0);
               && counted == [1] && all == [1, 2] && MedianMove(counted) == 1 && MedianMove(all) == 2
               && Endpoints(d) == Some((13, 10))
               && StepTicks(MedianMove(counted), 3) == 1 && StepTicks(MedianMove(all), 3) == 2
  {
    hide Closed, BookMid, ToTicks, ThreeSnapshots, Moves, MedianMove, Sorted;
    ThreeSnapshotsSorted(symbol);
    ThreeMids();
    SmallMedians();
    WholeTicks(10);
    WholeTicks(13);
  }

  lemma ThreeSnapshotsSorted(symbol: Symbol)
    ensures WellIndexed(Data(ThreeSnapshots(), [symbol], 1.0, 0)) && Sorted(ThreeSnapshots(), [0])
  {
    hide Snap, KeyLe;
    SnapSorted(1, 9, 11, 0);
    SnapSorted(2, 10, 12, 2);
    SnapSorted(3, 12, 14, 4);
    SortedJoin(Snap(1, 9, 11, 0), Snap(2, 10, 12, 2), [0]);
    SortedJoin(Snap(1, 9, 11, 0) + Snap(2, 10, 12, 2), Snap(3, 12, 14, 4), [0]);
  }

  lemma SnapSorted(ts: nat, bid: int, ask: int, row: nat)
    ensures forall i :: 0 <= i < |Snap(ts, bid, ask, row)| ==>
              Snap(ts, bid, ask, row)[i].symbolIdx == 0 && Snap(ts, bid, ask, row)[i].tsNs == ts
    ensures forall i, j :: 0 <= i < j < |Snap(ts, bid, ask, row)| ==>
              KeyLe(Snap(ts, bid, ask, row)[i], Snap(ts, bid, ask, row)[j], [0])
  {
  }

  lemma ThreeMids()
    ensures Closed(ThreeSnapshots(), 1.0).1 == [10.0, 11.0] && SeenMids(ThreeSnapshots(), 1.0) == [10.0, 11.0, 13.0]
    ensures Moves([10.0, 11.0], 1.0) == [1] && Moves([10.0, 11.0, 13.0], 1.0) == [1, 2]
  {
    hide Closed, BookMid, ToTicks, Snap;
    var e1 := Snap(1, 9, 11, 0);
    var e2 := e1 + Snap(2, 10, 12, 2);
    NothingSeen(1.0);
    NewBookHasNoMid();
    assert [] + e1 == e1;
    ClosedSnap([], 1, 9, 11, 0);
    ClosedSnap(e1, 2, 10, 12, 2);
    ClosedSnap(e2, 3, 12, 14, 4);
    WholeTicks(10);
    WholeTicks(11);
    WholeTicks(13);
    assert [10.0, 11.0][..1] == [10.0] && [10.0, 11.0, 13.0][..2] == [10.0, 11.0];
    assert Moves([10.0], 1.0) == [];
  }

  lemma SmallMedians()
    ensures MedianMove([1]) == 1 && MedianMove([1, 2]) == 2
  {
    assert [1][1..] == [] && [1] + [2] == [1, 2];
    SortSnoc([1], 2);
  }

  /** The prices the data gives the walk: none if no mid was seen, or if first and last are one price. */
  function Endpoints(d: Data): Option<(int, int)> {
    if d.tickSize <= 0.0 then None
    else
      var mids := SeenMids(d.events, d.tickSize);
      if mids == [] then None
      else
        var endT, originT := ToTicks(mids[|mids| - 1], d.tickSize), ToTicks(mids[0], d.tickSize);
        if endT == originT then None else Some((endT, originT))
  }

  /** The data with its tail, and where the real part ends. */
  function Extended(d: Data): (Data, Option<nat>) {
    match Endpoints(d)
    case None => (d, None)
    case Some((endT, originT)) =>
      var median := MedianMove(Moves(Closed(d.events, d.tickSize).1, d.tickSize));
      (d.(events := d.events + Tail(d.events, endT, originT, median, d.tickSize)), Some(LastTs(d.events)))
  }

  /** `with_retrace_tail`: one pass over the data, then the walk. */
  method WithRetraceTail(d: Data) returns (extended: Data, boundary: Option<nat>)
    ensures (extended, boundary) == Extended(d)
  {
    hide TailRows, Walked, StepTicks, LastTs, MaxSeq, HalfEven, MedianMove, SeenMids, Closed, Moves;
    if d.tickSize <= 0.0 || d.events == [] {
      NothingToSee(d);
      return d, None;
    }
    var first, last, moves, lastTs, maxSeq := Scan(d.events, d.tickSize);
    if first.None? || last.None? || first == last {
      return d, None;
    }
    var endT, originT := ToTicks(last.value, d.tickSize), ToTicks(first.value, d.tickSize);
    if endT == originT {
      return d, None;
    }
    var tail := Walk(endT, originT, StepTicks(MedianMove(moves), AbsInt(originT - endT)), d.tickSize, lastTs, maxSeq);
    return d.(events := d.events + tail), Some(lastTs);
  }

  lemma NothingToSee(d: Data)
    requires d.tickSize <= 0.0 || d.events == []
    ensures Extended(d) == (d, None)
  {
    if d.events == [] {
      NothingSeen(d.tickSize);
      NewBookHasNoMid();
    }
  }

  /** The rows of the walk from `endT` to `originT`, one step at a time. */
  method Walk(endT: int, originT: int, step: nat, tick: real, lastTs: nat, maxSeq: nat) returns (rows: seq<LoadedEvent>)
    requires step >= 1
    ensures rows == TailRows(Walked(endT, originT, step), lastTs + STEP_NS, originT > endT, tick, maxSeq + 1, 0)
  {
    hide TailRows, Walked, StepRows, Advance, AbsInt;
    var up := originT > endT;
    var cur := endT;
    var ts: nat, seqNo: nat, row: nat := lastTs + STEP_NS, maxSeq + 1, 0;
    rows := [];
    ghost var tail := TailRows(Walked(endT, originT, step), ts, up, tick, seqNo, row);
    while cur != originT
      invariant up ==> cur <= originT
      invariant !up ==> cur >= originT
      invariant rows + TailRows(Walked(cur, originT, step), ts, up, tick, seqNo, row) == tail
      decreases AbsInt(originT - cur)
    {
      ghost var next := Advance(cur, originT, step);
      OneStep(cur, originT, step, up);
      UnfoldTail(cur, originT, step, ts, up, tick, seqNo, row);
      ghost var rest := TailRows(Walked(next, originT, step), ts + 2 * STEP_NS, up, tick, seqNo + 2, row + 3);
      cur := if up then cur + step else cur - step;
      if (up && cur > originT) || (!up && cur < originT) {
        cur := originT;
      }
      assert cur == next;
      RowsMove(rows, StepRows(ts, cur, up, tick, seqNo, row), rest);
      rows := rows + StepRows(ts, cur, up, tick, seqNo, row);
      seqNo, row, ts := seqNo + 2, row + 3, ts + 2 * STEP_NS;
    }
    NothingWalked(originT, step, ts, up, tick, seqNo, row);
  }

  /** A step taken and then clamped, as the loop does it, is a step towards the origin. */
  lemma OneStep(cur: int, origin: int, step: nat, up: bool)
    requires step >= 1 && cur != origin && up == (cur < origin)
    ensures var raw := if up then cur + step else cur - step;
            Advance(cur, origin, step) == if (up && raw > origin) || (!up && raw < origin) then origin else raw
    ensures AbsInt(origin - Advance(cur, origin, step)) < AbsInt(origin - cur)
    ensures if up then Advance(cur, origin, step) <= origin else Advance(cur, origin, step) >= origin
  {
  }

  lemma UnfoldTail(cur: int, origin: int, step: nat, ts: nat, up: bool, tick: real, seqNo: nat, row: nat)
    requires step >= 1 && cur != origin
    ensures var next := Advance(cur, origin, step);
            TailRows(Walked(cur, origin, step), ts, up, tick, seqNo, row)
            == StepRows(ts, next, up, tick, seqNo, row)
               + TailRows(Walked(next, origin, step), ts + 2 * STEP_NS, up, tick, seqNo + 2, row + 3)
  {
    hide StepRows;
    var rest := Walked(Advance(cur, origin, step), origin, step);
    assert ([Advance(cur, origin, step)] + rest)[1..] == rest;
  }

  lemma NothingWalked(origin: int, step: nat, ts: nat, up: bool, tick: real, seqNo: nat, row: nat)
    requires step >= 1
    ensures TailRows(Walked(origin, origin, step), ts, up, tick, seqNo, row) == []
  {
  }

  lemma RowsMove(xs: seq<LoadedEvent>, ys: seq<LoadedEvent>, zs: seq<LoadedEvent>)
    ensures xs + (ys + zs) == (xs + ys) + zs
  {
  }

  // ---------------------------------------------------------------------------------------------
  // The walk

  /** The walk takes at most `n` steps when `n` of them span the distance, moves towards the origin at
      every one and never past it, and ends exactly there. */
  lemma {:induction false} WalkEnds(cur: int, origin: int, step: nat, n: nat)
    requires step >= 1 && AbsInt(origin - cur) <= n * step
    ensures var w := Walked(cur, origin, step);
            && |w| <= n
            && (cur != origin ==> w != [] && w[|w| - 1] == origin)
            && (forall i :: 0 <= i < |w| ==> if cur < origin then cur < w[i] <= origin else origin <= w[i] < cur)
            && (forall i, j :: 0 <= i < j < |w| ==> if cur < origin then w[i] < w[j] else w[i] > w[j])
    decreases AbsInt(origin - cur)
  {
    if cur != origin {
      var next := Advance(cur, origin, step);
      NextDistance(cur, origin, step, n);
      WalkEnds(next, origin, step, n - 1);
      assert next == origin ==> Walked(next, origin, step) == [];
    }
  }

  lemma NextDistance(cur: int, origin: int, step: nat, n: nat)
    requires step >= 1 && cur != origin && AbsInt(origin - cur) <= n * step
    ensures n >= 1 && AbsInt(origin - Advance(cur, origin, step)) <= (n - 1) * step
    ensures AbsInt(origin - Advance(cur, origin, step)) < AbsInt(origin - cur)
  {
    assert n == 0 ==> n * step == 0;
    assert (n - 1) * step == n * step - step;
    if n >= 1 {
      NonNegativeProduct(n - 1, step);
    }
  }

  lemma NonNegativeProduct(a: nat, b: nat)
    ensures a * b >= 0
  {
  }

  /** The retrace is bounded, monotone and exact. */
  lemma RetraceBounded(endT: int, originT: int, medianMove: int)
    requires endT != originT
    ensures var w := Walked(endT, originT, StepTicks(medianMove, AbsInt(originT - endT)));
            && 0 < |w| <= MAX_STEPS && w[|w| - 1] == originT
            && (forall i, j :: 0 <= i < j < |w| ==> if endT < originT then endT < w[i] < w[j] else w[j] < w[i] < endT)
  {
    var span := AbsInt(originT - endT);
    var step := StepTicks(medianMove, span);
    assert MAX_STEPS * step == step * MAX_STEPS;
    WalkEnds(endT, originT, step, MAX_STEPS);
  }

  // ---------------------------------------------------------------------------------------------
  // The rows

  /** Row `i` of the tail, by position: two quotes and a trade to a step, one second between snapshot and
      trade, and sequence numbers and source positions counting up. */
  lemma {:induction false} TailRowAt(prices: seq<int>, ts: nat, up: bool, tick: real, seqNo: nat, row: nat, i: nat)
    requires i < |prices|
    ensures var rows := TailRows(prices, ts, up, tick, seqNo, row);
            && |rows| == 3 * |prices|
            && rows[3 * i] == QuoteRow(ts + 2 * i * STEP_NS, 0, prices[i] - 1, seqNo + 2 * i, row + 3 * i)
            && rows[3 * i + 1] == QuoteRow(ts + 2 * i * STEP_NS, 1, prices[i] + 1, seqNo + 2 * i + 1, row + 3 * i + 1)
            && rows[3 * i + 2] == StepTrade(ts + (2 * i + 1) * STEP_NS, prices[i], up, tick, row + 3 * i + 2)
    decreases |prices|
  {
    hide QuoteRow, StepTrade;
    var head := StepRows(ts, prices[0], up, tick, seqNo, row);
    var tail := TailRows(prices[1..], ts + 2 * STEP_NS, up, tick, seqNo + 2, row + 3);
    assert TailRows(prices, ts, up, tick, seqNo, row) == head + tail;
    if |prices| == 1 {
      assert tail == [];
    } else {
      TailRowAt(prices[1..], ts + 2 * STEP_NS, up, tick, seqNo + 2, row + 3, if i == 0 then 0 else i - 1);
      hide TailRows;
      if i > 0 {
        assert (head + tail)[3 * i] == tail[3 * (i - 1)] && (head + tail)[3 * i + 1] == tail[3 * (i - 1) + 1];
        assert (head + tail)[3 * i + 2] == tail[3 * (i - 1) + 2];
      }
    }
  }

  /** The walk in closed form: whole steps from where it starts, as many as fit short of the origin, and then
      the origin. */
  lemma {:induction false} WalkedAt(cur: int, origin: int, step: nat, i: nat)
    requires step >= 1 && i < |Walked(cur, origin, step)|
    ensures var w := Walked(cur, origin, step);
            && w[i] == (if i == |w| - 1 then origin
                        else if cur < origin then cur + (i + 1) * step else cur - (i + 1) * step)
            && (|w| - 1) * step < AbsInt(origin - cur) <= |w| * step
    decreases AbsInt(origin - cur)
  {
    var next := Advance(cur, origin, step);
    var rest := Walked(next, origin, step);
    assert Walked(cur, origin, step) == [next] + rest;
    if next != origin {
      WalkedAt(next, origin, step, if i == 0 then 0 else i - 1);
      OneMore(i, step);
      OneMore(|rest|, step);
      OneMore(|rest| - 1, step);
    }
  }

  lemma OneMore(n: int, step: int)
    ensures (n + 1) * step == n * step + step
  {
  }

  /** The step is the least that is a tick, no less than the usual move, and brings the walk home in time. */
  lemma StepIsLeast(medianMove: int, span: nat, r: nat)
    ensures var step := StepTicks(medianMove, span);
            && step >= 1 && step >= medianMove && step * 20000 > span
            && (r >= 1 && r >= medianMove && r * 20000 > span ==> step <= r)
  {
  }

  lemma {:induction false} LastTsIs(events: seq<LoadedEvent>)
    ensures forall i :: 0 <= i < |events| ==> events[i].tsNs <= LastTs(events)
    ensures events != [] ==> exists i :: 0 <= i < |events| && events[i].tsNs == LastTs(events)
    decreases |events|
  {
    if events != [] {
      var init, last := events[..|events| - 1], events[|events| - 1];
      LastTsIs(init);
      assert LastTs(events) == if last.tsNs > LastTs(init) then last.tsNs else LastTs(init);
      if last.tsNs == LastTs(events) {
        assert events[|events| - 1].tsNs == LastTs(events);
      } else {
        assert init != [] by { assert LastTs([]) == 0; }
        var i :| 0 <= i < |init| && init[i].tsNs == LastTs(init);
        assert events[i] == init[i];
      }
    }
  }

  lemma {:induction false} MaxSeqBounds(events: seq<LoadedEvent>, i: nat)
    requires i < |events| && events[i].symbolIdx == 0 && events[i].payload.BookDelta?
    ensures events[i].payload.seqNo <= MaxSeq(events)
    decreases |events|
  {
    if i < |events| - 1 {
      MaxSeqBounds(events[..|events| - 1], i);
    }
  }

  /** Step `i` of the tail, spelled out: a bid and an ask of size 1 a tick below and above the price walked
      to, numbered on from the data, and a second later a trade of 10^9 at that price -- a buy exactly if the
      walk goes up -- all of the first symbol, and each step two seconds after the one before. */
  lemma TailSays(events: seq<LoadedEvent>, endT: int, originT: int, medianMove: int, tick: real, i: nat)
    requires i < |Walked(endT, originT, StepTicks(medianMove, AbsInt(originT - endT)))|
    ensures var w := Walked(endT, originT, StepTicks(medianMove, AbsInt(originT - endT)));
            var tail := Tail(events, endT, originT, medianMove, tick);
            && |tail| == 3 * |w|
            && var bid, ask, trade := tail[3 * i], tail[3 * i + 1], tail[3 * i + 2];
               && bid.symbolIdx == ask.symbolIdx == trade.symbolIdx == 0
               && bid.tsNs == ask.tsNs == LastTs(events) + 1000000000 + 2000000000 * i
               && trade.tsNs == bid.tsNs + 1000000000
               && bid.payload == BookDelta(0, w[i] - 1, 1.0, MaxSeq(events) + 1 + 2 * i)
               && ask.payload == BookDelta(1, w[i] + 1, 1.0, MaxSeq(events) + 2 + 2 * i)
               && trade.payload.TradeRow? && trade.payload.price == w[i] as real * tick
               && trade.payload.qty == 1000000000.0
               && (trade.payload.takerSide == 0 <==> endT < originT)
               && bid.src < ask.src < trade.src
  {
    hide Walked, TailRows, StepTicks;
    var w := Walked(endT, originT, StepTicks(medianMove, AbsInt(originT - endT)));
    TailRowAt(w, LastTs(events) + STEP_NS, originT > endT, tick, MaxSeq(events) + 1, 0, i);
  }

  lemma {:induction false} TsBound(events: seq<LoadedEvent>, i: nat)
    requires i < |events|
    ensures events[i].tsNs <= LastTs(events)
    decreases |events|
  {
    if i < |events| - 1 {
      TsBound(events[..|events| - 1], i);
    }
  }

  /** A time no earlier than `ts`, and the key order of two consecutive rows. */
  lemma {:induction false} TailSorted(prices: seq<int>, ts: nat, up: bool, tick: real, seqNo: nat, row: nat,
                                      rank: seq<nat>)
    requires |rank| > 0
    ensures RowsFrom(TailRows(prices, ts, up, tick, seqNo, row), ts, rank)
    decreases |prices|
  {
    if prices != [] {
      hide RowsFrom, StepRows;
      var head := StepRows(ts, prices[0], up, tick, seqNo, row);
      var tail := TailRows(prices[1..], ts + 2 * STEP_NS, up, tick, seqNo + 2, row + 3);
      TailSorted(prices[1..], ts + 2 * STEP_NS, up, tick, seqNo + 2, row + 3, rank);
      StepSorted(ts, prices[0], up, tick, seqNo, row, rank);
      RowsJoin(head, tail, ts, ts + 2 * STEP_NS, rank);
    } else {
      hide KeyLe;
    }
  }

  lemma RowsJoin(head: seq<LoadedEvent>, tail: seq<LoadedEvent>, ts: nat, later: nat, rank: seq<nat>)
    requires |rank| > 0 && RowsFrom(head, ts, rank) && RowsFrom(tail, later, rank) && ts <= later
    requires forall i :: 0 <= i < |head| ==> head[i].tsNs < later
    ensures RowsFrom(head + tail, ts, rank)
  {
    hide KeyLe;
    SortedJoin(head, tail, rank);
  }

  lemma StepSorted(ts: nat, cur: int, up: bool, tick: real, seqNo: nat, row: nat, rank: seq<nat>)
    requires |rank| > 0
    ensures var head := StepRows(ts, cur, up, tick, seqNo, row);
            RowsFrom(head, ts, rank) && forall i :: 0 <= i < |head| ==> head[i].tsNs < ts + 2 * STEP_NS
  {
  }

  /** Rows of the first symbol, sorted by the key, none before `ts`. */
  predicate RowsFrom(rows: seq<LoadedEvent>, ts: nat, rank: seq<nat>)
    requires |rank| > 0
  {
    && (forall i :: 0 <= i < |rows| ==> rows[i].symbolIdx == 0 && rows[i].tsNs >= ts)
    && (forall i, j :: 0 <= i < j < |rows| ==>
          rows[i].symbolIdx == 0 && rows[j].symbolIdx == 0 && KeyLe(rows[i], rows[j], rank))
  }

  lemma SortedJoin(xs: seq<LoadedEvent>, ys: seq<LoadedEvent>, rank: seq<nat>)
    requires forall i :: 0 <= i < |xs| ==> xs[i].symbolIdx < |rank|
    requires forall i :: 0 <= i < |ys| ==> ys[i].symbolIdx < |rank|
    requires forall i, j :: 0 <= i < j < |xs| ==> KeyLe(xs[i], xs[j], rank)
    requires forall i, j :: 0 <= i < j < |ys| ==> KeyLe(ys[i], ys[j], rank)
    requires forall i, j :: 0 <= i < |xs| && 0 <= j < |ys| ==> xs[i].tsNs < ys[j].tsNs
    ensures var zs := xs + ys;
            && (forall i :: 0 <= i < |zs| ==> zs[i].symbolIdx < |rank|)
            && (forall i, j :: 0 <= i < j < |zs| ==> KeyLe(zs[i], zs[j], rank))
  {
    hide KeyLe;
    var zs := xs + ys;
    forall i, j | 0 <= i < j < |zs|
      ensures KeyLe(zs[i], zs[j], rank)
    {
      if j < |xs| {
        assert KeyLe(xs[i], xs[j], rank);
      } else if i >= |xs| {
        assert KeyLe(ys[i - |xs|], ys[j - |xs|], rank);
      } else {
        EarlierLe(xs[i], ys[j - |xs|], rank);
      }
    }
  }

  lemma EarlierLe(e: LoadedEvent, f: LoadedEvent, rank: seq<nat>)
    requires e.symbolIdx < |rank| && f.symbolIdx < |rank| && e.tsNs < f.tsNs
    ensures KeyLe(e, f, rank)
  {
  }

  /** Every tail row is later than every real one, and the extended data is still sorted by the replay
      key, so the replay handles it like any other. */
  lemma ExtendedSorted(events: seq<LoadedEvent>, rank: seq<nat>, endT: int, originT: int, medianMove: int, tick: real)
    requires Sorted(events, rank) && |rank| > 0
    ensures var tail := Tail(events, endT, originT, medianMove, tick);
            && Sorted(events + tail, rank)
            && forall i, j :: 0 <= i < |events| && 0 <= j < |tail| ==> events[i].tsNs < tail[j].tsNs
  {
    hide Walked, TailRows, KeyLe, StepTicks;
    var tail := Tail(events, endT, originT, medianMove, tick);
    TailSorted(Walked(endT, originT, StepTicks(medianMove, AbsInt(originT - endT))), LastTs(events) + STEP_NS,
               originT > endT,
               tick, MaxSeq(events) + 1, 0, rank);
    forall i, j | 0 <= i < |events| && 0 <= j < |tail|
      ensures events[i].tsNs < tail[j].tsNs
    {
      TsBound(events, i);
    }
    SortedJoin(events, tail, rank);
  }

  /** The last row of the tail is a trade exactly at the origin. */
  lemma TailEndsAtOrigin(events: seq<LoadedEvent>, endT: int, originT: int, medianMove: int, tick: real)
    requires endT != originT
    ensures var tail := Tail(events, endT, originT, medianMove, tick);
            && 0 < |tail| <= 3 * MAX_STEPS
            && tail[|tail| - 1].payload.TradeRow? && tail[|tail| - 1].payload.price == PriceAt(originT, tick)
  {
    hide Walked, TailRows, StepTicks;
    var w := Walked(endT, originT, StepTicks(medianMove, AbsInt(originT - endT)));
    RetraceBounded(endT, originT, medianMove);
    TailRowAt(w, LastTs(events) + STEP_NS, originT > endT, tick, MaxSeq(events) + 1, 0, |w| - 1);
  }

  /** The trade prices of a tail: by whole steps from the end towards the origin, the last one at the origin. */
  lemma TailSteps(events: seq<LoadedEvent>, endT: int, originT: int, medianMove: int, tick: real, i: nat)
    requires endT != originT && 3 * i < |Tail(events, endT, originT, medianMove, tick)|
    ensures var tail := Tail(events, endT, originT, medianMove, tick);
            var step := StepTicks(medianMove, AbsInt(originT - endT));
            && 3 * i + 2 < |tail| && tail[3 * i + 2].payload.TradeRow?
            && tail[3 * i + 2].payload.price == PriceAt(if 3 * i + 3 == |tail| then originT
                                                        else if endT < originT then endT + (i + 1) * step
                                                        else endT - (i + 1) * step, tick)
  {
    hide Walked, TailRows, StepTicks;
    var w := Walked(endT, originT, StepTicks(medianMove, AbsInt(originT - endT)));
    RetraceBounded(endT, originT, medianMove);
    TailRowAt(w, LastTs(events) + STEP_NS, originT > endT, tick, MaxSeq(events) + 1, 0, 0);
    TailRowAt(w, LastTs(events) + STEP_NS, originT > endT, tick, MaxSeq(events) + 1, 0, i);
    WalkedAt(endT, originT, StepTicks(medianMove, AbsInt(originT - endT)), i);
  }

  /** The prices of a retrace, spelled out.  With the last and first mid seen in ticks, and the least step that
      is no less than the median of the moves counted and covers the distance in 20000: trade by trade the
      tail goes by that step from the last towards the first, and ends at the first. */
  lemma RetraceSteps(d: Data, i: nat)
    requires d.tickSize > 0.0 && Extended(d).1.Some? && 3 * i < |Extended(d).0.events| - |d.events|
    ensures var mids, tail := SeenMids(d.events, d.tickSize), Extended(d).0.events[|d.events|..];
            && mids != []
            && var from, to := ToTicks(mids[|mids| - 1], d.tickSize), ToTicks(mids[0], d.tickSize);
               var step := StepTicks(MedianMove(Moves(Closed(d.events, d.tickSize).1, d.tickSize)), AbsInt(to - from));
               && from != to && 3 * i + 2 < |tail| && tail[3 * i + 2].payload.TradeRow?
               && tail[3 * i + 2].payload.price
                  == PriceAt(if 3 * i + 3 == |tail| then to
                             else if from < to then from + (i + 1) * step else from - (i + 1) * step, d.tickSize)
  {
    hide Tail, StepTicks, SeenMids, MedianMove, Moves, Closed, HalfEven, PriceAt;
    var (from, to) := Endpoints(d).value;
    var median := MedianMove(Moves(Closed(d.events, d.tickSize).1, d.tickSize));
    assert Extended(d).0.events[|d.events|..] == Tail(d.events, from, to, median, d.tickSize);
    TailSteps(d.events, from, to, median, d.tickSize, i);
  }

  /** The retrace of sorted data: it appends a tail exactly when the first and the last mid that the replay
      would show for the first symbol are different prices in ticks; then the walk leaves from the last
      and its last trade is exactly at the first, every tail row comes after every real one, and the
      result is sorted, so it replays by the same rules. */
  lemma RetraceReturns(d: Data, rank: seq<nat>)
    requires WellIndexed(d) && Sorted(d.events, rank) && |rank| > 0 && d.tickSize > 0.0
    ensures var mids, (d', boundary) := ShownMids(d, 0), Extended(d);
            && (boundary.Some? <==> mids != [] && ToTicks(mids[0], d.tickSize) != ToTicks(mids[|mids| - 1], d.tickSize))
            && (boundary.None? ==> d' == d)
            && (boundary.Some? ==>
                  && |d.events| < |d'.events| <= |d.events| + 3 * MAX_STEPS && d'.events[..|d.events|] == d.events
                  && Sorted(d'.events, rank) && boundary == Some(LastTs(d.events))
                  && (forall i, j :: 0 <= i < |d.events| <= j < |d'.events| ==> d.events[i].tsNs < d'.events[j].tsNs)
                  && var lastRow := d'.events[|d'.events| - 1].payload;
                     lastRow.TradeRow? && lastRow.price == PriceAt(ToTicks(mids[0], d.tickSize), d.tickSize))
  {
    hide Sorted, Tail, SeenMids, ShownMids, MedianMove, Moves, Closed, HalfEven, LastTs;
    ScanSeesSnapshots(d, rank);
    match Endpoints(d) {
      case None =>
      case Some((endT, originT)) =>
        var median := MedianMove(Moves(Closed(d.events, d.tickSize).1, d.tickSize));
        ExtendedSorted(d.events, rank, endT, originT, median, d.tickSize);
        TailEndsAtOrigin(d.events, endT, originT, median, d.tickSize);
        var tail := Tail(d.events, endT, originT, median, d.tickSize);
        assert (d.events + tail)[..|d.events|] == d.events;
        assert forall j :: |d.events| <= j < |d.events + tail| ==> (d.events + tail)[j] == tail[j - |d.events|];
    }
  }
}
