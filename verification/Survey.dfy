/** What the retrace learns from the data before it walks: the mids of the recorded snapshots, in ticks,
    and how far the mid usually moves. */
module Survey {
  import opened Decimals
  import opened Core
  import opened Replay

  /** The mid of the touch, if both sides show a positive, uncrossed one. */
  function MidOf(bids: seq<Level>, asks: seq<Level>): Option<real> {
    if bids != [] && asks != [] && bids[0].price > 0.0 && asks[0].price > bids[0].price
    then Some((bids[0].price + asks[0].price) / 2.0) else None
  }

  /** Levels carry their price, so the top levels of the book are the touch. */
  function BookMid(b: TickBook): Option<real> {
    MidOf(Descending(b.bids), Ascending(b.asks))
  }

  function Listed(mid: Option<real>): seq<real> {
    if mid.Some? then [mid.value] else []
  }

  predicate IsFirstDelta(e: LoadedEvent) {
    e.symbolIdx == 0 && e.payload.BookDelta?
  }

  /** The book after these events, and the mids of the snapshots that later rows have closed. */
  function Closed(events: seq<LoadedEvent>, tick: real): (TickBook, seq<real>)
    decreases |events|
  {
    if events == [] then (NEW_BOOK, [])
    else ScanRow(Closed(events[..|events| - 1], tick), tick, events[|events| - 1])
  }

  /** A row with a new time closes the snapshot before it. */
  function ScanRow(seen: (TickBook, seq<real>), tick: real, e: LoadedEvent): (TickBook, seq<real>) {
    var (b, mids) := seen;
    if !IsFirstDelta(e) then seen
    else (ApplyDeltaRow(b, tick, e.tsNs, e.payload),
          if e.tsNs != b.lastAppliedTs then Appended(mids, BookMid(b)) else mids)
  }

  function Appended(mids: seq<real>, mid: Option<real>): seq<real> {
    if mid.Some? then mids + [mid.value] else mids
  }

  lemma ClosedSnoc(events: seq<LoadedEvent>, tick: real, k: nat)
    requires k < |events|
    ensures Closed(events[..k + 1], tick) == ScanRow(Closed(events[..k], tick), tick, events[k])
  {
    hide ScanRow;
    assert events[..k + 1][..k] == events[..k];
  }

  lemma AppendedIs(mids: seq<real>, mid: Option<real>)
    ensures Appended(mids, mid) == mids + Listed(mid)
  {
  }

  /** All mids seen: the closed ones, and that of the snapshot still open at the end. */
  function SeenMids(events: seq<LoadedEvent>, tick: real): seq<real> {
    Appended(Closed(events, tick).1, BookMid(Closed(events, tick).0))
  }

  function ToTicks(p: real, tick: real): int
    requires tick > 0.0
  {
    HalfEven(p / tick)
  }

  /** A price is counted in the nearest tick, and halfway between two in the even one. */
  lemma TicksNearest(p: real, tick: real)
    requires tick > 0.0
    ensures var n := ToTicks(p, tick) as real;
            && (n - 0.5) * tick <= p <= (n + 0.5) * tick
            && (p == (n - 0.5) * tick || p == (n + 0.5) * tick ==> ToTicks(p, tick) % 2 == 0)
  {
    var n := ToTicks(p, tick) as real;
    var low, high := n - 0.5, n + 0.5;
    QuotientBetween(p, tick, low, high);
  }

  lemma QuotientBetween(p: real, tick: real, low: real, high: real)
    requires tick > 0.0 && low <= p / tick <= high
    ensures low * tick <= p <= high * tick
    ensures (p == low * tick ==> p / tick == low) && (p == high * tick ==> p / tick == high)
  {
    var y := p / tick;
    QuotientBack(p, tick);
    MulMonotone(low, y, tick);
    MulMonotone(y, high, tick);
    if p == low * tick {
      SameQuotient(y, low, tick);
    }
    if p == high * tick {
      SameQuotient(y, high, tick);
    }
  }

  lemma QuotientBack(p: real, tick: real)
    requires tick > 0.0
    ensures p / tick * tick == p
  {
  }

  lemma SameQuotient(x: real, y: real, tick: real)
    requires tick > 0.0 && x * tick == y * tick
    ensures x == y
  {
    assert x * tick / tick == x && y * tick / tick == y;
  }

  function Distance(x: int, y: int): nat {
    if x < y then y - x else x - y
  }

  /** How far, in ticks, each mid is from the one before it, where it moved at all. */
  function Moves(mids: seq<real>, tick: real): seq<nat>
    requires tick > 0.0
    decreases |mids|
  {
    if |mids| < 2 then []
    else
      var move := Distance(ToTicks(mids[|mids| - 1], tick), ToTicks(mids[|mids| - 2], tick));
      Moves(mids[..|mids| - 1], tick) + if move > 0 then [move] else []
  }

  function Total(moves: seq<nat>): nat {
    if moves == [] then 0 else Total(moves[..|moves| - 1]) + moves[|moves| - 1]
  }

  lemma TotalSnoc(moves: seq<nat>, move: nat)
    ensures Total(moves + if move > 0 then [move] else []) == Total(moves) + move
  {
    assert (moves + [move])[..|moves|] == moves && moves + [] == moves;
  }

  /** The moves, none of them zero, cover the distance from the first mid to the last, and no more than that if
      the mids never turn back. */
  lemma {:induction false} MovesCover(mids: seq<real>, tick: real)
    requires tick > 0.0 && mids != []
    ensures forall move :: move in Moves(mids, tick) ==> move > 0
    ensures var from, to, total := ToTicks(mids[0], tick), ToTicks(mids[|mids| - 1], tick), Total(Moves(mids, tick));
            && total >= to - from && total >= from - to
            && ((forall i :: 0 < i < |mids| ==> mids[i - 1] <= mids[i]) ==> total == to - from)
            && ((forall i :: 0 < i < |mids| ==> mids[i - 1] >= mids[i]) ==> total == from - to)
    decreases |mids|
  {
    if |mids| > 1 {
      hide ToTicks;
      var rest := mids[..|mids| - 1];
      MovesCover(rest, tick);
      var x, y := mids[|mids| - 2], mids[|mids| - 1];
      TotalSnoc(Moves(rest, tick), Distance(ToTicks(y, tick), ToTicks(x, tick)));
      if x <= y {
        TicksRise(x, y, tick);
      }
      if y <= x {
        TicksRise(y, x, tick);
      }
    }
  }

  lemma TicksRise(x: real, y: real, tick: real)
    requires tick > 0.0 && x <= y
    ensures ToTicks(x, tick) <= ToTicks(y, tick)
  {
    assert x / tick <= y / tick;
    HalfEvenMonotone(x / tick, y / tick);
  }

  function First(mids: seq<real>): Option<real> {
    if mids == [] then None else Some(mids[0])
  }

  function Last(mids: seq<real>): Option<real> {
    if mids == [] then None else Some(mids[|mids| - 1])
  }

  /** One pass over the data: first and last mid, the moves between closed snapshots, the latest time and
      the highest sequence number of the first symbol's rows. */
  method Scan(events: seq<LoadedEvent>, tick: real)
    returns (first: Option<real>, last: Option<real>, moves: seq<nat>, lastTs: nat, maxSeq: nat)
    requires tick > 0.0
    ensures first == First(SeenMids(events, tick)) && last == Last(SeenMids(events, tick))
    ensures moves == Moves(Closed(events, tick).1, tick)
    ensures lastTs == LastTs(events) && maxSeq == MaxSeq(events)
  {
    hide ApplyDeltaRow, BookMid, ToTicks, Distance, Closed, Moves, LastTs, MaxSeq;
    NothingSeen(tick);
    var book := NEW_BOOK;
    var prevT: Option<int> := None;
    first, last, moves, lastTs, maxSeq := None, None, [], 0, 0;
    ghost var mids: seq<real> := [];
    var k := 0;
    while k < |events|
      invariant 0 <= k <= |events|
      invariant Closed(events[..k], tick) == (book, mids)
      invariant first == First(mids) && last == Last(mids) && moves == Moves(mids, tick)
      invariant prevT == if mids == [] then None else Some(ToTicks(mids[|mids| - 1], tick))
      invariant lastTs == LastTs(events[..k]) && maxSeq == MaxSeq(events[..k])
    {
      var e := events[k];
      ClosedSnoc(events, tick, k);
      LatestSnoc(events, k);
      lastTs := if e.tsNs > lastTs then e.tsNs else lastTs;
      if IsFirstDelta(e) {
        if e.tsNs != book.lastAppliedTs {
          var mid := BookMid(book);
          if mid.Some? {
            MovesSnoc(mids, mid.value, tick);
            first := if first.None? then mid else first;
            last := mid;
            var t := ToTicks(mid.value, tick);
            if prevT.Some? && Distance(t, prevT.value) > 0 {
              moves := moves + [Distance(t, prevT.value)];
            }
            prevT := Some(t);
            mids := mids + [mid.value];
          }
        }
        book := ApplyDeltaRow(book, tick, e.tsNs, e.payload);
        maxSeq := if e.payload.seqNo > maxSeq then e.payload.seqNo else maxSeq;
      }
      k := k + 1;
    }
    assert events[..|events|] == events;
    var mid := BookMid(book);
    if mid.Some? {
      first := if first.None? then mid else first;
      last := mid;
    }
  }

  /** The move into the snapshot still open at the end is not among the moves counted. */
  lemma LastMoveNotCounted(events: seq<LoadedEvent>, tick: real)
    requires tick > 0.0 && Closed(events, tick).1 != [] && BookMid(Closed(events, tick).0).Some?
    ensures var closed, mid := Closed(events, tick).1, BookMid(Closed(events, tick).0).value;
            var move := Distance(ToTicks(mid, tick), ToTicks(closed[|closed| - 1], tick));
            Moves(SeenMids(events, tick), tick) == Moves(closed, tick) + if move > 0 then [move] else []
  {
    hide Closed, BookMid, ToTicks, Distance;
    var closed, seen := Closed(events, tick).1, SeenMids(events, tick);
    assert seen[..|seen| - 1] == closed;
  }

  lemma MovesSnoc(mids: seq<real>, mid: real, tick: real)
    requires tick > 0.0
    ensures Moves(mids + [mid], tick)
            == if mids == [] then Moves(mids, tick)
               else
                 var move := Distance(ToTicks(mid, tick), ToTicks(mids[|mids| - 1], tick));
                 Moves(mids, tick) + if move > 0 then [move] else []
  {
    hide Distance, ToTicks;
    assert (mids + [mid])[..|mids|] == mids;
  }

  lemma LatestSnoc(events: seq<LoadedEvent>, k: nat)
    requires k < |events|
    ensures var e := events[k];
            && LastTs(events[..k + 1]) == (if e.tsNs > LastTs(events[..k]) then e.tsNs else LastTs(events[..k]))
            && MaxSeq(events[..k + 1])
               == if IsFirstDelta(e) && e.payload.seqNo > MaxSeq(events[..k]) then e.payload.seqNo
                 else MaxSeq(events[..k])
  {
    assert events[..k + 1][..k] == events[..k];
  }

  lemma NothingSeen(tick: real)
    ensures Closed([], tick) == (NEW_BOOK, []) && LastTs([]) == 0 && MaxSeq([]) == 0
    ensures tick > 0.0 ==> Moves([], tick) == []
  {
  }

  function LastTs(events: seq<LoadedEvent>): nat {
    if events == [] then 0
    else
      var t := LastTs(events[..|events| - 1]);
      if events[|events| - 1].tsNs > t then events[|events| - 1].tsNs else t
  }

  function MaxSeq(events: seq<LoadedEvent>): nat {
    if events == [] then 0
    else
      var n, e := MaxSeq(events[..|events| - 1]), events[|events| - 1];
      if IsFirstDelta(e) && e.payload.seqNo > n then e.payload.seqNo else n
  }

  // ---------------------------------------------------------------------------------------------
  // The pass sees what the replay shows

  /** The mids of the snapshots the replay emits for the first symbol, from row `i` on. */
  function ShownMids(d: Data, i: nat): seq<real>
    requires WellIndexed(d) && i <= |d.events|
    decreases |d.events| - i
  {
    if i == |d.events| then []
    else if IsFirstDelta(d.events[i]) && Opens(d.events, i) then
      var snap := GroupUpdate(d, d.events[i]).snapshot;
      Listed(MidOf(snap.bids, snap.asks)) + ShownMids(d, i + 1)
    else ShownMids(d, i + 1)
  }

  lemma {:induction false} SkipMids(d: Data, e: LoadedEvent, i: nat, j: nat)
    requires WellIndexed(d) && 0 < i <= j <= |d.events|
    requires SameGroup(e, d.events[i - 1]) && forall k :: i <= k < j ==> SameGroup(e, d.events[k])
    ensures ShownMids(d, i) == ShownMids(d, j)
    decreases j - i
  {
    if i < j {
      hide GroupUpdate;
      assert SameGroup(d.events[i - 1], d.events[i]);
      SkipMids(d, e, i + 1, j);
    }
  }

  /** The rows of one group close what was open, once, and fold into the book. */
  lemma {:induction false} ClosedRun(events: seq<LoadedEvent>, tick: real, i: nat, j: nat)
    requires i < j <= |events| && IsFirstDelta(events[i])
    requires forall k :: i <= k < j ==> SameGroup(events[i], events[k])
    ensures var (b, mids) := Closed(events[..i], tick);
            && Deltas(events[i..j])
            && Closed(events[..j], tick).0 == ApplyRows(b, tick, events[i..j])
            && Closed(events[..j], tick).0.lastAppliedTs == events[i].tsNs
            && Closed(events[..j], tick).1 == if events[i].tsNs != b.lastAppliedTs then Appended(mids, BookMid(b))
              else mids
    decreases j
  {
    hide BookMid, Closed, ApplyRows, ApplyDeltaRow, Appended;
    var (b, mids) := Closed(events[..i], tick);
    NoRows(b, tick, events, i);
    ClosedSnoc(events, tick, j - 1);
    if j == i + 1 {
      OneMoreRow(b, tick, events, events[i], i, i);
    } else {
      ClosedRun(events, tick, i, j - 1);
      OneMoreRow(b, tick, events, events[i], i, j - 1);
    }
    RowSets(Closed(events[..j - 1], tick).0, tick, events[j - 1]);
  }

  lemma RowSets(b: TickBook, tick: real, e: LoadedEvent)
    requires e.payload.BookDelta?
    ensures ApplyDeltaRow(b, tick, e.tsNs, e.payload).lastAppliedTs == e.tsNs
  {
  }

  /** The book is older than every first-symbol row still to come, or still new. */
  predicate Older(events: seq<LoadedEvent>, b: TickBook, i: nat) {
    b == NEW_BOOK || forall k :: i <= k < |events| && IsFirstDelta(events[k]) ==> b.lastAppliedTs < events[k].tsNs
  }

  lemma NewBookHasNoMid()
    ensures BookMid(NEW_BOOK) == None
  {
  }

  lemma {:induction false} ScanFrom(d: Data, rank: seq<nat>, i: nat)
    requires WellIndexed(d) && Sorted(d.events, rank) && i <= |d.events|
    requires Older(d.events, Closed(d.events[..i], d.tickSize).0, i)
    requires i < |d.events| && IsFirstDelta(d.events[i]) ==> Opens(d.events, i)
    ensures SeenMids(d.events, d.tickSize) == SeenMids(d.events[..i], d.tickSize) + ShownMids(d, i)
    decreases |d.events| - i
  {
    var events, tick := d.events, d.tickSize;
    if i == |events| {
      assert events[..i] == events;
    } else if !IsFirstDelta(events[i]) {
      hide BookMid, GroupUpdate, Sorted, Closed;
      ClosedSnoc(events, tick, i);
      ScanFrom(d, rank, i + 1);
    } else {
      hide BookMid, GroupUpdate, Sorted, Closed, Older, MidOf, ShownMids, SeenMids;
      var end := GroupEnd(events, events[i], i);
      GroupTimes(events, i);
      ScanGroup(d, rank, i);
      ScanFrom(d, rank, end);
    }
  }

  /** The same, for one group. */
  lemma ScanGroup(d: Data, rank: seq<nat>, i: nat)
    requires WellIndexed(d) && Sorted(d.events, rank) && i < |d.events| && IsFirstDelta(d.events[i])
             && Opens(d.events, i)
    requires Older(d.events, Closed(d.events[..i], d.tickSize).0, i)
    ensures var end := GroupEnd(d.events, d.events[i], i);
            && Older(d.events, Closed(d.events[..end], d.tickSize).0, end)
            && (end < |d.events| && IsFirstDelta(d.events[end]) ==> Opens(d.events, end))
            && SeenMids(d.events[..i], d.tickSize) + ShownMids(d, i)
              == SeenMids(d.events[..end], d.tickSize) + ShownMids(d, end)
  {
    hide BookMid, GroupUpdate, ApplyRows, Sorted, Closed, Older, MidOf, ShownMids, GroupEnd, Listed, Opens;
    ShownGroup(d, i);
    var events, tick, end := d.events, d.tickSize, GroupEnd(d.events, d.events[i], i);
    var (b, mids) := Closed(events[..i], tick);
    GroupTimes(events, i);
    ClosedRun(events, tick, i, end);
    GroupMid(d, rank, i, b);
    SkipMids(d, events[i], i + 1, end);
    var mid := BookMid(Closed(events[..end], tick).0);
    AppendedIs(SeenMids(events[..i], tick), mid);
    ThreeJoined(SeenMids(events[..i], tick), Listed(mid), ShownMids(d, end));
  }

  lemma ShownGroup(d: Data, i: nat)
    requires WellIndexed(d) && i < |d.events| && IsFirstDelta(d.events[i]) && Opens(d.events, i)
    ensures var snap := GroupUpdate(d, d.events[i]).snapshot;
            ShownMids(d, i) == Listed(MidOf(snap.bids, snap.asks)) + ShownMids(d, i + 1)
  {
    hide GroupUpdate, MidOf;
  }

  lemma ThreeJoined(xs: seq<real>, ys: seq<real>, zs: seq<real>)
    ensures (xs + ys) + zs == xs + (ys + zs)
  {
  }

  /** The book after the group that opens at row `i` shows the mid of the snapshot the replay emits. */
  lemma GroupMid(d: Data, rank: seq<nat>, i: nat, b: TickBook)
    requires WellIndexed(d) && Sorted(d.events, rank) && i < |d.events| && IsFirstDelta(d.events[i])
             && Opens(d.events, i)
    requires Older(d.events, b, i)
    ensures var end := GroupEnd(d.events, d.events[i], i);
            && Deltas(d.events[i..end])
            && var b', snap := ApplyRows(b, d.tickSize, d.events[i..end]), GroupUpdate(d, d.events[i]).snapshot;
               && BookMid(b') == MidOf(snap.bids, snap.asks)
               && (b'.lastAppliedTs == d.events[i].tsNs ==> Older(d.events, b', end))
    ensures BookMid(b) == None || b.lastAppliedTs != d.events[i].tsNs
    ensures var end := GroupEnd(d.events, d.events[i], i);
            end < |d.events| && IsFirstDelta(d.events[end]) ==> Opens(d.events, end)
  {
    hide ApplyRows, Ascending, Descending, ApplyDeltaRow, Sorted;
    var e, end := d.events[i], GroupEnd(d.events, d.events[i], i);
    GroupTimes(d.events, i);
    GroupIsRun(d.events, rank, i);
    RowsFromEmpty(b, d.tickSize, d.events[i..end], e.tsNs);
    NewBookHasNoMid();
    NoRowsAfter(d.events, rank, i);
    forall k | end <= k < |d.events| && IsFirstDelta(d.events[k])
      ensures e.tsNs < d.events[k].tsNs
    {
      Later(d.events, rank, i, k);
    }
  }

  lemma Later(events: seq<LoadedEvent>, rank: seq<nat>, i: nat, k: nat)
    requires Sorted(events, rank) && i < k < |events| && IsFirstDelta(events[i]) && IsFirstDelta(events[k])
    requires !SameGroup(events[i], events[k])
    ensures events[i].tsNs < events[k].tsNs
  {
    assert KeyLe(events[i], events[k], rank);
  }

  /** Over sorted data the pass sees exactly the mids of the snapshots the replay will show. */
  lemma ScanSeesSnapshots(d: Data, rank: seq<nat>)
    requires WellIndexed(d) && Sorted(d.events, rank)
    ensures SeenMids(d.events, d.tickSize) == ShownMids(d, 0)
  {
    NewBookHasNoMid();
    assert d.events[..0] == [];
    ScanFrom(d, rank, 0);
    assert [] + ShownMids(d, 0) == ShownMids(d, 0);
  }

  // ---------------------------------------------------------------------------------------------
  // The mid of a book

  lemma {:induction false} AscendingEnds(m: map<int, Level>, lo: int, hi: int)
    requires lo in m && hi in m && forall k :: k in m ==> lo <= k <= hi
    ensures Ascending(m) != [] && Ascending(m)[0] == m[lo] && Ascending(m)[|Ascending(m)| - 1] == m[hi]
    decreases |m|
  {
    hide Ascending;
    var k := AscendingStep(m);
    assert k == lo;
    var rest := m - {k};
    if rest == map[] {
      assert hi != k ==> hi in rest;
      NoneAscend();
    } else {
      assert hi in rest by { OnlyOne(m, lo, hi); }
      var j := AscendingStep(rest);
      AscendingEnds(rest, j, hi);
    }
  }

  lemma NoneAscend()
    ensures Ascending(map[]) == []
  {
  }

  lemma OnlyOne(m: map<int, Level>, lo: int, hi: int)
    requires lo in m && hi in m && (forall k :: k in m ==> lo <= k <= hi) && m - {lo} != map[]
    ensures hi in m - {lo}
  {
    if hi == lo {
      assert forall k :: k !in m - {lo};
    }
  }

  /** A book without bids or without asks has no mid.  Otherwise it is halfway between the highest bid and
      the lowest ask, if the bid is positive and below the ask. */
  lemma BookMidIs(b: TickBook, tick: real, bid: int, ask: int)
    requires tick > 0.0 && Keyed(b.bids, tick) && Keyed(b.asks, tick)
    ensures b.bids == map[] || b.asks == map[] ==> BookMid(b) == None
    ensures && bid in b.bids && (forall k :: k in b.bids ==> k <= bid)
            && ask in b.asks && (forall k :: k in b.asks ==> ask <= k) ==>
              BookMid(b) == if 0 < bid < ask then Some((bid + ask) as real * tick / 2.0) else None
  {
    hide Ascending, Descending;
    NoneAscend();
    if b.bids == map[] || b.asks == map[] {
      assert Descending(map[]) == [] by { NoDescent(); }
    } else if bid in b.bids && (forall k :: k in b.bids ==> k <= bid) && ask in b.asks
              && (forall k :: k in b.asks ==> ask <= k) {
      var lowBid := AscendingStep(b.bids);
      AscendingEnds(b.bids, lowBid, bid);
      var highAsk := Highest(b.asks);
      AscendingEnds(b.asks, ask, highAsk);
      DescendingHead(b.bids);
      TickPrices(bid, ask, tick);
    }
  }

  lemma NoDescent()
    ensures Descending(map[]) == []
  {
  }

  lemma DescendingHead(m: map<int, Level>)
    requires Ascending(m) != []
    ensures Descending(m) != [] && Descending(m)[0] == Ascending(m)[|Ascending(m)| - 1]
  {
    hide Ascending;
  }

  lemma Highest(m: map<int, Level>) returns (hi: int)
    requires m != map[]
    ensures hi in m && forall k :: k in m ==> k <= hi
    decreases |m|
  {
    hi := SomeElement(m.Keys);
    var rest := m - {hi};
    if rest != map[] {
      var h := Highest(rest);
      assert forall k :: k in m ==> k == hi || k in rest;
      hi := if h > hi then h else hi;
    } else {
      assert forall k :: k in m ==> k == hi || k in rest;
    }
  }

  lemma TickPrices(bid: int, ask: int, tick: real)
    requires tick > 0.0
    ensures PriceAt(bid, tick) > 0.0 <==> 0 < bid
    ensures PriceAt(ask, tick) > PriceAt(bid, tick) <==> bid < ask
    ensures (PriceAt(bid, tick) + PriceAt(ask, tick)) / 2.0 == (bid + ask) as real * tick / 2.0
  {
    if bid <= 0 {
      MulMonotone(bid as real, 0.0, tick);
    } else {
      TickOrder(0, bid, tick);
    }
    if bid < ask {
      TickOrder(bid, ask, tick);
    } else {
      MulMonotone(ask as real, bid as real, tick);
    }
  }
}
