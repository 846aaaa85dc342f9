/** The simulated venue as a transition system on values: what each step of the fill simulator does
    to its state, with the commitment read afresh from the resting orders every time.  The class
    `FillSim` is proved to follow it. */
module Venue {
  import opened Decimals
  import opened Core
  import opened Book

  datatype SimConfig = SimConfig(
    rounding: Rounding,
    submitLatencyMs: nat, cancelLatencyMs: nat, jitters: bool,
    makerBps: int, takerBps: nat,
    maxPositionNotional: Option<real>, leverage: real, maxPositionFrac: real,
    silentCancels: bool, maxOpenOrders: Option<nat>, queueDecays: bool, spot: bool)

  datatype Op =
    | PlaceOp(intent: QuoteIntent, overrideId: Option<QuoteId>)
    | ReplaceOp(id: QuoteId, newIntent: QuoteIntent)
    | CancelOp(cancelId: QuoteId)
    | CancelAllOp

  /** `submittedAt` is the time of the event on which the order was submitted; only the model keeps
      it, here and in `LiveQuote`. */
  datatype PendingOp = PendingOp(scheduledTs: nat, op: Op, submittedAt: nat)

  /** A resting order; `queueAhead` is the size at its level that trades reach first. */
  datatype LiveQuote = LiveQuote(
    id: QuoteId, symbol: Symbol, side: Side, price: real, size: real, queueAhead: real, ts: nat,
    submittedAt: nat)

  datatype Reason =
    | TooManyOrders | WouldCrossTouch
    | InsufficientCash | InsufficientAsset
    | MarginInsufficient | PositionCap

  datatype Rejection = Rejection(intent: QuoteIntent, reason: Reason)

  /** The simulator's state, without its caches. */
  datatype Sim = Sim(
    pending: seq<PendingOp>, live: seq<LiveQuote>, managers: set<QuoteId>,
    books: map<Symbol, BookState>, rejections: seq<Rejection>,
    units: map<Symbol, real>, wallet: real, cash: real, assets: real,
    lastTs: Option<nat>, nextId: QuoteId)

  // ---------------------------------------------------------------------------------------------
  // Gates

  /** What the resting orders of one symbol commit. */
  datatype Committed = Committed(bidNotional: real, askNotional: real, askSize: real)

  const NOTHING := Committed(0.0, 0.0, 0.0)

  function Commit(m: Rounding, c: Committed, q: LiveQuote): Committed {
    var notional := Notional(m, q.price, q.size);
    if q.side.Bid? then c.(bidNotional := Round(m, c.bidNotional + notional))
    else c.(askNotional := Round(m, c.askNotional + notional), askSize := c.askSize + q.size)
  }

  function Commitment(m: Rounding, live: seq<LiveQuote>, symbol: Symbol): Committed {
    if live == [] then NOTHING
    else
      var c, q := Commitment(m, live[..|live| - 1], symbol), live[|live| - 1];
      if q.symbol == symbol then Commit(m, c, q) else c
  }

  function Resting(live: seq<LiveQuote>, symbol: Symbol): nat {
    if live == [] then 0
    else Resting(live[1..], symbol) + if live[0].symbol == symbol then 1 else 0
  }

  function BookOf(books: map<Symbol, BookState>, symbol: Symbol): BookState {
    if symbol in books then books[symbol] else EMPTY_BOOK
  }

  predicate WouldCross(s: Sim, intent: QuoteIntent) {
    var book := BookOf(s.books, intent.symbol);
    match intent.side
    case Bid => book.bestAsk.Some? && intent.price >= book.bestAsk.value
    case Ask => book.bestBid.Some? && intent.price <= book.bestBid.value
  }

  function UnitsOf(s: Sim, symbol: Symbol): real {
    if symbol in s.units then s.units[symbol] else 0.0
  }

  /** Signed position times the book mid, or the known touch, or the intent's own price. */
  function PositionNotional(m: Rounding, s: Sim, symbol: Symbol, fallback: real): real {
    var book := BookOf(s.books, symbol);
    var mark := match (book.bestBid, book.bestAsk) {
      case (Some(b), Some(a)) => (b + a) / 2.0
      case (Some(p), None) => p
      case (None, Some(p)) => p
      case (None, None) => fallback
    };
    Notional(m, mark, UnitsOf(s, symbol))
  }

  /** The notional a bid reserves, with the maker fee a fill would charge. */
  function Reserved(m: Rounding, notional: real, makerBps: int): real {
    Round(m, notional * (1.0 + makerBps as real / 10000.0))
  }

  function SpotVerdict(cfg: SimConfig, s: Sim, intent: QuoteIntent, c: Committed): Option<Reason> {
    var m := cfg.rounding;
    match intent.side
    case Bid =>
      var reserved := Reserved(m, Notional(m, intent.price, intent.size), cfg.makerBps);
      if Round(m, c.bidNotional + reserved) > s.cash then Some(InsufficientCash) else None
    case Ask =>
      if c.askSize + intent.size > s.assets then Some(InsufficientAsset) else None
  }

  /** The tighter of the two position caps, if any. */
  function PositionLimit(cfg: SimConfig, s: Sim): Option<real> {
    var frac := if cfg.maxPositionFrac > 0.0 && s.wallet > 0.0
      then Some(Notional(cfg.rounding, s.wallet, cfg.maxPositionFrac)) else None;
    match (cfg.maxPositionNotional, frac)
    case (Some(a), Some(b)) => Some(Min(a, b))
    case (Some(a), None) => Some(a)
    case (None, b) => b
  }

  /** Gate 1 reserves margin for every resting order; gate 2 projects this order alone. */
  function FuturesVerdict(cfg: SimConfig, s: Sim, intent: QuoteIntent, c: Committed): Option<Reason> {
    var m := cfg.rounding;
    var pos := PositionNotional(m, s, intent.symbol, intent.price);
    var delta := Notional(m, intent.price, intent.size);
    var buyingPower := Notional(m, s.wallet, cfg.leverage);
    var bids := if intent.side.Bid? then Round(m, c.bidNotional + delta) else c.bidNotional;
    var asks := if intent.side.Ask? then Round(m, c.askNotional + delta) else c.askNotional;
    var projected := if intent.side.Bid? then pos + delta else pos - delta;
    var limit := PositionLimit(cfg, s);
    if cfg.leverage > 0.0 && s.wallet > 0.0 && (pos + bids > buyingPower || pos - asks < -buyingPower)
    then Some(MarginInsufficient)
    else if limit.Some? && (projected > limit.value || projected < -limit.value)
    then Some(PositionCap)
    else None
  }

  /** Why the venue refuses an intent, checked in its order: order cap, post-only, then balances or
      margin.  Immediate orders occupy no slot and reserve no commitment in spot mode. */
  function Verdict(cfg: SimConfig, s: Sim, intent: QuoteIntent): Option<Reason> {
    var immediate := intent.tif.Immediate();
    if cfg.maxOpenOrders.Some? && !immediate && Resting(s.live, intent.symbol) >= cfg.maxOpenOrders.value
    then Some(TooManyOrders)
    else if intent.tif.PostOnly? && WouldCross(s, intent) then Some(WouldCrossTouch)
    else if cfg.spot then
      SpotVerdict(cfg, s, intent, if immediate then NOTHING else Commitment(cfg.rounding, s.live, intent.symbol))
    else FuturesVerdict(cfg, s, intent, Commitment(cfg.rounding, s.live, intent.symbol))
  }

  // ---------------------------------------------------------------------------------------------
  // Placing

  /** Booking one fill: signed units always, cash and assets in spot mode, the fee out of cash. */
  function Settle(cfg: SimConfig, s: Sim, symbol: Symbol, side: Side, qty: real, notional: real, fee: real): Sim {
    var m := cfg.rounding;
    var s1 := s.(units := s.units[symbol := UnitsOf(s, symbol) + if side.Bid? then qty else -qty]);
    if !cfg.spot then s1
    else
      var moved := Round(m, if side.Bid? then s.cash - notional else s.cash + notional);
      s1.(cash := Round(m, moved - fee),
          assets := Round(m, if side.Bid? then s.assets + qty else s.assets - qty))
  }

  function RoundedCost(m: Rounding, consumed: seq<Level>): real {
    if consumed == [] then 0.0
    else Notional(m, consumed[0].price, consumed[0].size) + RoundedCost(m, consumed[1..])
  }

  /** Total cost over total quantity, rounded. */
  function AveragePrice(m: Rounding, notional: real, qty: real): real {
    if qty == 0.0 then 0.0 else Round(m, notional / qty)
  }

  /** An immediate order: walk the book, all or nothing for FOK, fill at the average price. */
  function Take(cfg: SimConfig, s: Sim, intent: QuoteIntent, ts: nat, submittedAt: nat): (Sim, Option<Fill>) {
    var m, book := cfg.rounding, BookOf(s.books, intent.symbol);
    var consumed := Consumed(book, intent.side, intent.size, intent.price);
    var qty := Quantity(consumed);
    var s1 := s.(books := s.books[intent.symbol := book]);
    if consumed == [] || (intent.tif.FOK? && qty < intent.size) then (s1, None)
    else
      var notional := RoundedCost(m, consumed);
      var fee := Round(m, Bps(notional, cfg.takerBps));
      var book' := DecrementAll(book, intent.side.Opposite(), consumed);
      var s2 := Settle(cfg, s1.(books := s.books[intent.symbol := book']), intent.symbol, intent.side, qty, notional,
                       fee);
      (s2.(nextId := s.nextId + 1),
       Some(Fill(s.nextId, AveragePrice(m, notional, qty), qty, intent.symbol.quote, fee, intent.side, ts,
                 qty >= intent.size, submittedAt)))
  }

  function Rest(s: Sim, intent: QuoteIntent, ts: nat, overrideId: Option<QuoteId>, submittedAt: nat): Sim {
    var ahead := BookOf(s.books, intent.symbol).LevelSize(intent.side, intent.price);
    var id := if overrideId.Some? then overrideId.value else s.nextId;
    var q := LiveQuote(id, intent.symbol, intent.side, intent.price, intent.size, ahead, ts, submittedAt);
    s.(live := s.live + [q], nextId := if overrideId.Some? then s.nextId else s.nextId + 1)
  }

  function Place(cfg: SimConfig, s: Sim, intent: QuoteIntent, ts: nat, overrideId: Option<QuoteId>,
                 submittedAt: nat): (Sim, Option<Fill>) {
    match Verdict(cfg, s, intent)
    case Some(reason) => (s.(rejections := s.rejections + [Rejection(intent, reason)]), None)
    case None =>
      if intent.tif.Immediate() then Take(cfg, s, intent, ts, submittedAt)
      else (Rest(s, intent, ts, overrideId, submittedAt), None)
  }

  // ---------------------------------------------------------------------------------------------
  // Pending operations

  /** A pending Place or Replace that carries venue id `id`. */
  predicate Carries(p: PendingOp, id: QuoteId) {
    match p.op
    case PlaceOp(_, o) => o == Some(id)
    case ReplaceOp(r, _) => r == id
    case CancelOp(_) => false
    case CancelAllOp => false
  }

  function Uncarried(id: QuoteId): PendingOp -> bool {
    (p: PendingOp) => !Carries(p, id)
  }

  function PurgePending(pending: seq<PendingOp>, id: QuoteId): seq<PendingOp> {
    Filter(pending, Uncarried(id))
  }

  function OtherThan(id: QuoteId): LiveQuote -> bool {
    (q: LiveQuote) => q.id != id
  }

  function OwnedBy(managers: set<QuoteId>): LiveQuote -> bool {
    (q: LiveQuote) => q.id in managers
  }

  function CancelId(s: Sim, id: QuoteId): Sim {
    s.(live := Filter(s.live, OtherThan(id)), pending := PurgePending(s.pending, id))
  }

  /** Index of the first resting order with this id, or the length if there is none. */
  function IndexOf(live: seq<LiveQuote>, id: QuoteId): (i: nat)
    ensures i <= |live|
    ensures i < |live| ==> live[i].id == id
    ensures forall j :: 0 <= j < i ==> live[j].id != id
  {
    if live == [] || live[0].id == id then 0 else 1 + IndexOf(live[1..], id)
  }

  function RemoveAt<T>(xs: seq<T>, i: nat): seq<T>
    requires i < |xs|
  {
    xs[..i] + xs[i + 1..]
  }

  /** A replace evicts the old order before the gates run, and puts it back if they refuse. */
  function Replace(cfg: SimConfig, s: Sim, id: QuoteId, intent: QuoteIntent, ts: nat, submittedAt: nat)
    : (Sim, Option<Fill>)
  {
    var i := IndexOf(s.live, id);
    var evicted := s.(live := if i < |s.live| then RemoveAt(s.live, i) else s.live,
                      pending := PurgePending(s.pending, id));
    var (s1, fill) := Place(cfg, evicted, intent, ts, Some(id), submittedAt);
    if fill.None? && |s1.rejections| > |s.rejections| && i < |s.live|
    then (s1.(live := s1.live + [s.live[i]]), None)
    else (s1, fill)
  }

  function Apply(cfg: SimConfig, s: Sim, p: PendingOp): (Sim, seq<Fill>) {
    match p.op
    case PlaceOp(intent, overrideId) =>
      var (s1, fill) := Place(cfg, s, intent, p.scheduledTs, overrideId, p.submittedAt);
      (s1, Listed(fill))
    case ReplaceOp(id, intent) =>
      var (s1, fill) := Replace(cfg, s, id, intent, p.scheduledTs, p.submittedAt);
      (s1, Listed(fill))
    case CancelOp(id) => (CancelId(s, id), [])
    case CancelAllOp => (s.(live := Filter(s.live, OwnedBy(s.managers))), [])
  }

  function Listed(fill: Option<Fill>): seq<Fill> {
    if fill.Some? then [fill.value] else []
  }

  function ApplyAll(cfg: SimConfig, s: Sim, ready: seq<PendingOp>): (Sim, seq<Fill>)
    decreases |ready|
  {
    if ready == [] then (s, [])
    else
      var (s1, f1) := Apply(cfg, s, ready[0]);
      var (s2, f2) := ApplyAll(cfg, s1, ready[1..]);
      (s2, f1 + f2)
  }

  /** How many operations at the front of the queue are due. */
  function DueCount(pending: seq<PendingOp>, now: nat): (k: nat)
    ensures k <= |pending|
    ensures forall i :: 0 <= i < k ==> pending[i].scheduledTs <= now
    ensures k < |pending| ==> pending[k].scheduledTs > now
  {
    if pending == [] || pending[0].scheduledTs > now then 0 else 1 + DueCount(pending[1..], now)
  }

  function ApplyPending(cfg: SimConfig, s: Sim, now: nat): (Sim, seq<Fill>) {
    var k := DueCount(s.pending, now);
    ApplyAll(cfg, s.(pending := s.pending[k..]), s.pending[..k])
  }

  // ---------------------------------------------------------------------------------------------
  // Submitting

  predicate Scheduled(pending: seq<PendingOp>) {
    forall i, j :: 0 <= i < j < |pending| ==> pending[i].scheduledTs <= pending[j].scheduledTs
  }

  /** Inserts after every operation due no later: one step of a stable sort. */
  function InsertBySchedule(pending: seq<PendingOp>, p: PendingOp): seq<PendingOp> {
    if pending == [] || pending[|pending| - 1].scheduledTs <= p.scheduledTs then pending + [p]
    else InsertBySchedule(pending[..|pending| - 1], p) + [pending[|pending| - 1]]
  }

  function SortBySchedule(pending: seq<PendingOp>): seq<PendingOp> {
    if pending == [] then []
    else InsertBySchedule(SortBySchedule(pending[..|pending| - 1]), pending[|pending| - 1])
  }

  /** Base latency plus the jitter drawn, in nanoseconds. */
  function LatencyNs(cfg: SimConfig, baseMs: nat, jitterMs: nat): nat {
    SatMul(SatAdd(baseMs, if cfg.jitters then jitterMs else 0), 1000000)
  }

  /** When an action takes effect, and as what; submits wait at least a nanosecond. */
  function ScheduledOp(cfg: SimConfig, action: Action, now: nat, jitterMs: nat): Option<PendingOp> {
    var submit := LatencyNs(cfg, cfg.submitLatencyMs, jitterMs);
    var at := SatAdd(now, if submit < 1 then 1 else submit);
    var cancelAt := SatAdd(now, LatencyNs(cfg, cfg.cancelLatencyMs, jitterMs));
    match action
    case Quote(intent) => Some(PendingOp(at, PlaceOp(intent, None), now))
    case Requote(id, intent) => Some(PendingOp(at, ReplaceOp(id, intent), now))
    case Cancel(id) => Some(PendingOp(cancelAt, CancelOp(id), now))
    case CancelAll => Some(PendingOp(cancelAt, CancelAllOp, now))
    case NoOp => None
  }

  function Submit(cfg: SimConfig, s: Sim, action: Action, now: nat, jitterMs: nat): Sim {
    match ScheduledOp(cfg, action, now, jitterMs)
    case None => s
    case Some(p) => s.(pending := SortBySchedule(s.pending + [p]))
  }

  /** A placement that already carries the venue's id. */
  function EnqueuedOp(cfg: SimConfig, intent: QuoteIntent, now: nat, venueId: QuoteId, jitterMs: nat): PendingOp {
    var submit := LatencyNs(cfg, cfg.submitLatencyMs, jitterMs);
    PendingOp(SatAdd(now, if submit < 1 then 1 else submit), PlaceOp(intent, Some(venueId)), now)
  }

  function Enqueue(cfg: SimConfig, s: Sim, intent: QuoteIntent, now: nat, venueId: QuoteId, jitterMs: nat): Sim {
    s.(pending := SortBySchedule(s.pending + [EnqueuedOp(cfg, intent, now, venueId, jitterMs)]))
  }

  // ---------------------------------------------------------------------------------------------
  // Queue decay and silent cancels

  /** What chance brings to one event: the decay factor and the indices silently cancelled. */
  datatype Noise = Noise(decay: real, dropped: set<nat>)

  /** Time since the previous event, zero if there was none. */
  function Elapsed(s: Sim, now: nat): nat {
    if s.lastTs.Some? && now > s.lastTs.value then now - s.lastTs.value else 0
  }

  /** The same orders in the same places, but for the queues ahead of them. */
  predicate SameButQueues(live: seq<LiveQuote>, live': seq<LiveQuote>) {
    && |live'| == |live|
    && forall i :: 0 <= i < |live| ==> live'[i] == live[i].(queueAhead := live'[i].queueAhead)
  }

  function Decayed(q: LiveQuote, factor: real): LiveQuote {
    if q.queueAhead > 0.0 then q.(queueAhead := q.queueAhead * factor) else q
  }

  function DecayAll(live: seq<LiveQuote>, factor: real): seq<LiveQuote> {
    seq(|live|, i requires 0 <= i < |live| => Decayed(live[i], factor))
  }

  function DecayQueues(cfg: SimConfig, s: Sim, now: nat, noise: Noise): Sim {
    if !cfg.queueDecays || Elapsed(s, now) == 0 || noise.decay >= 1.0 then s
    else s.(live := DecayAll(s.live, noise.decay))
  }

  function SilentCancels(cfg: SimConfig, s: Sim, now: nat, noise: Noise): Sim {
    var s' := s.(lastTs := Some(now));
    if !cfg.silentCancels || Elapsed(s, now) == 0 then s'
    else s'.(live := Without(s.live, noise.dropped))
  }

  // ---------------------------------------------------------------------------------------------
  // Book snapshots

  function LevelMap(levels: seq<Level>): map<real, real> {
    if levels == [] then map[]
    else LevelMap(levels[..|levels| - 1])[levels[|levels| - 1].price := levels[|levels| - 1].size]
  }

  function BookFrom(snap: Snapshot): BookState {
    BookState(LevelMap(snap.bids), LevelMap(snap.asks),
              if snap.bids == [] then None else Some(snap.bids[0].price),
              if snap.asks == [] then None else Some(snap.asks[0].price))
  }

  /** The order's price lies within the depth the snapshot shows. */
  predicate InWindow(snap: Snapshot, q: LiveQuote) {
    if q.side.Bid? then snap.bids != [] && q.price >= snap.bids[|snap.bids| - 1].price
    else snap.asks != [] && q.price <= snap.asks[|snap.asks| - 1].price
  }

  /** A level that shrank but is still there had cancels ahead of us in proportion. */
  function Attributed(q: LiveQuote, before: real, after: real): LiveQuote {
    if before <= 0.0 || after >= before || after <= 0.0 then q
    else q.(queueAhead := q.queueAhead * after / before)
  }

  function Reattributed(old_: BookState, snap: Snapshot, q: LiveQuote): LiveQuote {
    if q.symbol == snap.symbol && InWindow(snap, q)
    then Attributed(q, old_.LevelSize(q.side, q.price), BookFrom(snap).LevelSize(q.side, q.price))
    else q
  }

  function ReattributeAll(old_: BookState, snap: Snapshot, live: seq<LiveQuote>): seq<LiveQuote> {
    seq(|live|, i requires 0 <= i < |live| => Reattributed(old_, snap, live[i]))
  }

  function UpdateBook(s: Sim, snap: Snapshot): Sim {
    s.(live := ReattributeAll(BookOf(s.books, snap.symbol), snap, s.live),
       books := s.books[snap.symbol := BookFrom(snap)])
  }

  // ---------------------------------------------------------------------------------------------
  // Matching a public trade

  /** A resting bid is taken by a seller at or below it, a resting ask by a buyer at or above it. */
  predicate QuoteTakesTrade(side: Side, price: real, taker: Side, tradePrice: real) {
    match (side, taker)
    case (Bid, Ask) => tradePrice <= price
    case (Ask, Bid) => tradePrice >= price
    case _ => false
  }

  predicate IsEligible(q: LiveQuote, symbol: Symbol, taker: Side, tradePrice: real) {
    q.symbol == symbol && QuoteTakesTrade(q.side, q.price, taker, tradePrice)
  }

  /** Indices below `n` of the orders the trade may take, in insertion order. */
  function EligibleBelow(live: seq<LiveQuote>, n: nat, symbol: Symbol, taker: Side, tradePrice: real): (r: seq<nat>)
    requires n <= |live|
    ensures Indices(r, n)
  {
    if n == 0 then []
    else EligibleBelow(live, n - 1, symbol, taker, tradePrice)
         + if IsEligible(live[n - 1], symbol, taker, tradePrice) then [n - 1] else []
  }

  predicate Indices(idx: seq<nat>, n: nat) {
    forall k :: 0 <= k < |idx| ==> idx[k] < n
  }

  /** Inserts after every index ranked no worse: one step of a stable sort by price. */
  function InsertByPrice(live: seq<LiveQuote>, taker: Side, idx: seq<nat>, i: nat): (r: seq<nat>)
    requires Indices(idx, |live|) && i < |live|
    ensures Indices(r, |live|)
  {
    if idx == [] || Rank(taker, live[idx[|idx| - 1]].price) <= Rank(taker, live[i].price) then idx + [i]
    else InsertByPrice(live, taker, idx[..|idx| - 1], i) + [idx[|idx| - 1]]
  }

  function SortByPrice(live: seq<LiveQuote>, taker: Side, idx: seq<nat>): (r: seq<nat>)
    requires Indices(idx, |live|)
    ensures Indices(r, |live|)
  {
    if idx == [] then []
    else InsertByPrice(live, taker, SortByPrice(live, taker, idx[..|idx| - 1]), idx[|idx| - 1])
  }

  /** The eligible orders, best price first, earliest first within a price. */
  function Priority(live: seq<LiveQuote>, symbol: Symbol, taker: Side, tradePrice: real): (r: seq<nat>)
    ensures Indices(r, |live|)
  {
    SortByPrice(live, taker, EligibleBelow(live, |live|, symbol, taker, tradePrice))
  }

  /** What the trade does to the order at `index`: queue eaten first if the trade printed at its price
      (a trade through the price sweeps the queue away without being used up), then its own size.
      An order is not `reached` when the queue ahead used up the trade. */
  datatype Bite = Bite(index: nat, eaten: real, reached: bool, filled: real, quote: LiveQuote)

  function BiteOf(q: LiveQuote, index: nat, tradePrice: real, remaining: real): Bite {
    var at := tradePrice == q.price;
    var eaten := if at then Max(0.0, Min(q.queueAhead, remaining)) else 0.0;
    var q1 := if at then q.(queueAhead := q.queueAhead - eaten)
              else if q.queueAhead > 0.0 then q.(queueAhead := 0.0) else q;
    if eaten > 0.0 && remaining - eaten == 0.0 then Bite(index, eaten, false, 0.0, q1)
    else
      var filled := Min(q.size, remaining - eaten);
      Bite(index, eaten, true, filled, q1.(size := q.size - filled))
  }

  /** The bites a trade takes, in order of service, until it is used up. */
  function Bites(live: seq<LiveQuote>, tradePrice: real, remaining: real, order: seq<nat>): seq<Bite>
    requires Indices(order, |live|)
    decreases |order|
  {
    if order == [] || remaining <= 0.0 then []
    else
      var b := BiteOf(live[order[0]], order[0], tradePrice, remaining);
      if !b.reached then [b]
      else [b] + Bites(live, tradePrice, remaining - b.eaten - b.filled, order[1..])
  }

  function MakerFee(cfg: SimConfig, price: real, qty: real): real {
    var m := cfg.rounding;
    Round(m, Bps(Times(Round(m, price), Round(m, qty)), cfg.makerBps))
  }

  /** The fill of a bite; `quote` is the order as the bite left it. */
  function MakerFill(cfg: SimConfig, b: Bite, ts: nat): Fill {
    var q := b.quote;
    Fill(q.id, q.price, b.filled, q.symbol.quote, MakerFee(cfg, q.price, b.filled), q.side, ts, q.size <= 0.0,
         q.submittedAt)
  }

  function MakerFills(cfg: SimConfig, bites: seq<Bite>, ts: nat): seq<Fill> {
    if bites == [] then []
    else (if bites[0].reached then [MakerFill(cfg, bites[0], ts)] else []) + MakerFills(cfg, bites[1..], ts)
  }

  function LiveAfter(live: seq<LiveQuote>, bites: seq<Bite>): (r: seq<LiveQuote>)
    ensures |r| == |live|
    decreases |bites|
  {
    if bites == [] then live
    else LiveAfter(if bites[0].index < |live| then live[bites[0].index := bites[0].quote] else live, bites[1..])
  }

  /** Queue eaten at the order's own price leaves the book aggregate of that level. */
  function BookAfter(books: map<Symbol, BookState>, b: Bite): map<Symbol, BookState> {
    var q := b.quote;
    if b.eaten > 0.0 && q.symbol in books
    then books[q.symbol := books[q.symbol].DecrementLevel(q.side, q.price, b.eaten)]
    else books
  }

  /** Books and balances after one bite. */
  function SettleBite(cfg: SimConfig, s: Sim, b: Bite): Sim {
    var q, s1 := b.quote, s.(books := BookAfter(s.books, b));
    if !b.reached then s1
    else Settle(cfg, s1, q.symbol, q.side, b.filled, Notional(cfg.rounding, q.price, b.filled),
                MakerFee(cfg, q.price, b.filled))
  }

  function SettleBites(cfg: SimConfig, s: Sim, bites: seq<Bite>): Sim
    decreases |bites|
  {
    if bites == [] then s else SettleBites(cfg, SettleBite(cfg, s, bites[0]), bites[1..])
  }

  function Drained(bites: seq<Bite>): set<nat> {
    if bites == [] then {}
    else (if bites[0].reached && bites[0].quote.size == 0.0 then {bites[0].index} else {}) + Drained(bites[1..])
  }

  function TradeBites(s: Sim, symbol: Symbol, tradePrice: real, tradeSize: real, taker: Side): seq<Bite> {
    if tradePrice <= 0.0 || tradeSize <= 0.0 then []
    else Bites(s.live, tradePrice, tradeSize, Priority(s.live, symbol, taker, tradePrice))
  }

  function MatchTrade(cfg: SimConfig, s: Sim, symbol: Symbol, tradePrice: real, tradeSize: real, taker: Side, ts: nat)
    : (Sim, seq<Fill>)
  {
    var bites := TradeBites(s, symbol, tradePrice, tradeSize, taker);
    (SettleBites(cfg, s, bites).(live := Without(LiveAfter(s.live, bites), Drained(bites))), MakerFills(cfg, bites, ts))
  }

  // ---------------------------------------------------------------------------------------------
  // One market event

  function React(cfg: SimConfig, s: Sim, ev: MarketEvent): (Sim, seq<Fill>) {
    match ev
    case BookUpdate(snap) => (UpdateBook(s, snap), [])
    case Trade(symbol, price, size, side, ts) => MatchTrade(cfg, s, symbol, price, size, side, ts)
    case FillEvent(_) => (s, [])
    case Heartbeat(_) => (s, [])
  }

  function OnMarketEvent(cfg: SimConfig, s: Sim, ev: MarketEvent, now: nat, noise: Noise): (Sim, seq<Fill>) {
    var s1 := SilentCancels(cfg, DecayQueues(cfg, s, now, noise), now, noise);
    var (s2, f2) := ApplyPending(cfg, s1, now);
    var (s3, f3) := React(cfg, s2, ev);
    (s3, f2 + f3)
  }
}
