/** Exactly which orders the gates admit, in terms of what rests: the order cap, the post-only check, the spot
    balances, margin and the position cap; and what an admitted or refused order does. */
module Admission {
  import opened Decimals
  import opened Core
  import opened Book
  import opened Venue
  import opened Solvency

  // ---------------------------------------------------------------------------------------------
  // What rests, summed up

  function BidOn(m: Rounding, symbol: Symbol): LiveQuote -> real {
    (q: LiveQuote) => if q.symbol == symbol && q.side == Bid then Notional(m, q.price, q.size) else 0.0
  }

  function AskOn(m: Rounding, symbol: Symbol): LiveQuote -> real {
    (q: LiveQuote) => if q.symbol == symbol && q.side == Ask then Notional(m, q.price, q.size) else 0.0
  }

  function AskSizeOn(symbol: Symbol): LiveQuote -> real {
    (q: LiveQuote) => if q.symbol == symbol && q.side == Ask then q.size else 0.0
  }

  /** The commitment is the sum over the symbol's resting orders, however many are mixed in. */
  lemma {:induction false} CommitmentIsSum(m: Rounding, live: seq<LiveQuote>, symbol: Symbol)
    ensures var c := Commitment(m, live, symbol);
            && c.bidNotional == Sum(live, BidOn(m, symbol)) && OnGrid(m, c.bidNotional)
            && c.askNotional == Sum(live, AskOn(m, symbol)) && OnGrid(m, c.askNotional)
            && c.askSize == Sum(live, AskSizeOn(symbol))
    decreases |live|
  {
    hide Round, OnGrid, Sum, Notional;
    if live == [] {
      RoundZero(m);
      NothingSums(m, symbol);
    } else {
      var init, q := live[..|live| - 1], live[|live| - 1];
      assert live == init + [q];
      CommitmentIsSum(m, init, symbol);
      SumSnoc(init, q, BidOn(m, symbol));
      SumSnoc(init, q, AskOn(m, symbol));
      SumSnoc(init, q, AskSizeOn(symbol));
      NotionalGrid(m, q.price, q.size);
      RoundGridSum(m, Commitment(m, init, symbol).bidNotional, Notional(m, q.price, q.size));
      RoundGridSum(m, Commitment(m, init, symbol).askNotional, Notional(m, q.price, q.size));
    }
  }

  lemma NothingSums(m: Rounding, symbol: Symbol)
    ensures Sum([], BidOn(m, symbol)) == 0.0 && Sum([], AskOn(m, symbol)) == 0.0 && Sum([], AskSizeOn(symbol)) == 0.0
  {
  }

  function OnSymbol(symbol: Symbol): LiveQuote -> bool {
    (q: LiveQuote) => q.symbol == symbol
  }

  lemma {:induction false} RestingIsCount(live: seq<LiveQuote>, symbol: Symbol)
    ensures Resting(live, symbol) == |Filter(live, OnSymbol(symbol))|
  {
    if live != [] {
      RestingIsCount(live[1..], symbol);
    }
  }

  // ---------------------------------------------------------------------------------------------
  // The gates before the balances

  /** The symbol already rests as many orders as the cap allows, and this one would rest. */
  predicate AtCap(cfg: SimConfig, s: Sim, intent: QuoteIntent) {
    && cfg.maxOpenOrders.Some? && intent.tif != IOC && intent.tif != FOK
    && |Filter(s.live, OnSymbol(intent.symbol))| >= cfg.maxOpenOrders.value
  }

  /** The price is at the opposite touch or through it. */
  predicate AtTouch(s: Sim, intent: QuoteIntent) {
    && intent.symbol in s.books
    && var book := s.books[intent.symbol];
       match intent.side
       case Bid => book.bestAsk.Some? && intent.price >= book.bestAsk.value
       case Ask => book.bestBid.Some? && intent.price <= book.bestBid.value
  }

  /** Refused for the cap exactly at the cap; otherwise refused as crossing exactly if it is post-only and at
      the touch. */
  lemma CapAndTouch(cfg: SimConfig, s: Sim, intent: QuoteIntent)
    ensures Verdict(cfg, s, intent) == Some(TooManyOrders) <==> AtCap(cfg, s, intent)
    ensures Verdict(cfg, s, intent) == Some(WouldCrossTouch)
            <==> !AtCap(cfg, s, intent) && intent.tif == PostOnly && AtTouch(s, intent)
  {
    hide Round, Commitment, Resting, Filter, PositionNotional, PositionLimit, Reserved, Notional;
    RestingIsCount(s.live, intent.symbol);
  }

  /** Neither of the two. */
  predicate PastFirstGates(cfg: SimConfig, s: Sim, intent: QuoteIntent) {
    !AtCap(cfg, s, intent) && !(intent.tif == PostOnly && AtTouch(s, intent))
  }

  // ---------------------------------------------------------------------------------------------
  // Spot

  /** What resting bids, or asks, already claim: nothing against an immediate order. */
  function Claimed(m: Rounding, s: Sim, intent: QuoteIntent): real {
    if intent.tif == IOC || intent.tif == FOK then 0.0
    else if intent.side == Bid then Sum(s.live, BidOn(m, intent.symbol))
    else Sum(s.live, AskSizeOn(intent.symbol))
  }

  /** Past the first gates, a spot bid is refused exactly if what the symbol's bids claim and its own notional
      with fee exceed cash, an ask exactly if the asks' sizes and its own exceed holdings, and with these
      reasons; an immediate order is held against the bare balances. */
  lemma SpotExactly(cfg: SimConfig, s: Sim, intent: QuoteIntent)
    requires cfg.spot && PastFirstGates(cfg, s, intent)
    ensures var m := cfg.rounding;
            var reserve := Reserved(m, Notional(m, intent.price, intent.size), cfg.makerBps);
            Verdict(cfg, s, intent)
            == if intent.side == Bid && Claimed(m, s, intent) + reserve > s.cash
               then Some(InsufficientCash)
               else if intent.side == Ask && Claimed(m, s, intent) + intent.size > s.assets
               then Some(InsufficientAsset)
               else None
  {
    hide Round, OnGrid, Commitment, Resting, Filter, Sum, WouldCross, AtTouch, AtCap, Notional, Reserved, Verdict;
    var m := cfg.rounding;
    var reserve := Reserved(m, Notional(m, intent.price, intent.size), cfg.makerBps);
    CapAndTouch(cfg, s, intent);
    CommitmentIsSum(m, s.live, intent.symbol);
    SpotGateReads(cfg, s, intent);
    RoundZero(m);
    ReservedGrid(m, Notional(m, intent.price, intent.size), cfg.makerBps);
    if intent.side == Bid {
      RoundGridSum(m, Claimed(m, s, intent), reserve);
    }
  }

  lemma ReservedGrid(m: Rounding, notional: real, makerBps: int)
    ensures OnGrid(m, Reserved(m, notional, makerBps))
  {
    hide Round, OnGrid;
    RoundNear(m, notional * (1.0 + makerBps as real / 10000.0));
  }

  lemma SpotGateReads(cfg: SimConfig, s: Sim, intent: QuoteIntent)
    requires cfg.spot
    requires Verdict(cfg, s, intent) != Some(TooManyOrders) && Verdict(cfg, s, intent) != Some(WouldCrossTouch)
    ensures var c := if intent.tif == IOC || intent.tif == FOK then NOTHING
                     else Commitment(cfg.rounding, s.live, intent.symbol);
            Verdict(cfg, s, intent) == SpotVerdict(cfg, s, intent, c)
  {
    hide Round, Commitment, Resting, WouldCross, Reserved, Notional;
  }

  // ---------------------------------------------------------------------------------------------
  // Futures

  /** The mid if both touches are known, the one known, or the order's own price. */
  function MarkOf(s: Sim, intent: QuoteIntent): real {
    if intent.symbol !in s.books then intent.price
    else
      var book := s.books[intent.symbol];
      if book.bestBid.Some? && book.bestAsk.Some? then (book.bestBid.value + book.bestAsk.value) / 2.0
      else if book.bestBid.Some? then book.bestBid.value
      else if book.bestAsk.Some? then book.bestAsk.value
      else intent.price
  }

  /** The signed position at the mark. */
  function Exposure(m: Rounding, s: Sim, intent: QuoteIntent): real {
    Notional(m, MarkOf(s, intent), if intent.symbol in s.units then s.units[intent.symbol] else 0.0)
  }

  /** With this order resting, position plus all bids or position less all asks is beyond wallet times
      leverage; a wallet or leverage that is not set is not checked. */
  predicate Overexposed(cfg: SimConfig, s: Sim, intent: QuoteIntent) {
    var m, pos := cfg.rounding, Exposure(cfg.rounding, s, intent);
    var own, power := Notional(m, intent.price, intent.size), Notional(m, s.wallet, cfg.leverage);
    var bids, asks := Sum(s.live, BidOn(m, intent.symbol)), Sum(s.live, AskOn(m, intent.symbol));
    && cfg.leverage > 0.0 && s.wallet > 0.0
    && (|| pos + bids + (if intent.side == Bid then own else 0.0) > power
        || pos - asks - (if intent.side == Ask then own else 0.0) < -power)
  }

  /** This order alone, filled, takes the position past a cap: the fixed one, or the fraction of the wallet. */
  predicate OverCap(cfg: SimConfig, s: Sim, intent: QuoteIntent) {
    var m, pos := cfg.rounding, Exposure(cfg.rounding, s, intent);
    var own := Notional(m, intent.price, intent.size);
    var projected := if intent.side == Bid then pos + own else pos - own;
    || (cfg.maxPositionNotional.Some? && Beyond(projected, cfg.maxPositionNotional.value))
    || (cfg.maxPositionFrac > 0.0 && s.wallet > 0.0 && Beyond(projected, Notional(m, s.wallet, cfg.maxPositionFrac)))
  }

  predicate Beyond(x: real, limit: real) {
    x > limit || x < -limit
  }

  /** Past the first gates, a futures order is refused for margin exactly if it would be overexposed, and
      otherwise for the position cap exactly if it would be over a cap. */
  lemma FuturesExactly(cfg: SimConfig, s: Sim, intent: QuoteIntent)
    requires !cfg.spot && PastFirstGates(cfg, s, intent)
    ensures Verdict(cfg, s, intent)
            == if Overexposed(cfg, s, intent) then Some(MarginInsufficient)
               else if OverCap(cfg, s, intent) then Some(PositionCap)
               else None
  {
    hide Round, OnGrid, Commitment, Resting, Filter, Sum, WouldCross, AtTouch, AtCap, PositionNotional, PositionLimit,
      Notional, Exposure, Verdict;
    var m := cfg.rounding;
    CapAndTouch(cfg, s, intent);
    CommitmentIsSum(m, s.live, intent.symbol);
    ExposureIs(m, s, intent);
    NotionalGrid(m, intent.price, intent.size);
    RoundGridSum(m, Sum(s.live, BidOn(m, intent.symbol)), Notional(m, intent.price, intent.size));
    RoundGridSum(m, Sum(s.live, AskOn(m, intent.symbol)), Notional(m, intent.price, intent.size));
    FuturesGateReads(cfg, s, intent);
    var pos, own := Exposure(m, s, intent), Notional(m, intent.price, intent.size);
    LimitIs(cfg, s, if intent.side == Bid then pos + own else pos - own);
  }

  lemma ExposureIs(m: Rounding, s: Sim, intent: QuoteIntent)
    ensures PositionNotional(m, s, intent.symbol, intent.price) == Exposure(m, s, intent)
  {
    hide Notional;
  }

  lemma LimitIs(cfg: SimConfig, s: Sim, projected: real)
    ensures var limit, frac := PositionLimit(cfg, s), Notional(cfg.rounding, s.wallet, cfg.maxPositionFrac);
            limit.Some? && Beyond(projected, limit.value)
            <==> || (cfg.maxPositionNotional.Some? && Beyond(projected, cfg.maxPositionNotional.value))
                 || (cfg.maxPositionFrac > 0.0 && s.wallet > 0.0 && Beyond(projected, frac))
  {
    hide Notional;
  }

  lemma FuturesGateReads(cfg: SimConfig, s: Sim, intent: QuoteIntent)
    requires !cfg.spot
    requires Verdict(cfg, s, intent) != Some(TooManyOrders) && Verdict(cfg, s, intent) != Some(WouldCrossTouch)
    ensures Verdict(cfg, s, intent)
            == FuturesVerdict(cfg, s, intent, Commitment(cfg.rounding, s.live, intent.symbol))
  {
    hide Round, Commitment, Resting, WouldCross, PositionNotional, PositionLimit, Notional;
  }

  // ---------------------------------------------------------------------------------------------
  // What an order does

  /** A refused order is reported with its reason and changes nothing else; an admitted one that may rest
      rests last, whole, behind what the book shows at its price, under the id it brings or a fresh one. */
  lemma PlacedExactly(cfg: SimConfig, s: Sim, intent: QuoteIntent, ts: nat, overrideId: Option<QuoteId>,
                      submittedAt: nat)
    requires intent.tif != IOC && intent.tif != FOK
    ensures var (s', fill) := Place(cfg, s, intent, ts, overrideId, submittedAt);
            var id := if overrideId.Some? then overrideId.value else s.nextId;
            var levels := if intent.symbol !in s.books then map[]
                          else if intent.side == Bid then s.books[intent.symbol].bids else s.books[intent.symbol].asks;
            var ahead := if intent.price in levels then levels[intent.price] else 0.0;
            && fill == None
            && match Verdict(cfg, s, intent)
               case Some(reason) => s' == s.(rejections := s.rejections + [Rejection(intent, reason)])
               case None =>
                 s' == s.(nextId := if overrideId.Some? then s.nextId else s.nextId + 1,
                          live := s.live + [LiveQuote(id, intent.symbol, intent.side, intent.price, intent.size, ahead,
                                                      ts, submittedAt)])
  {
    hide Verdict;
  }

  /** A refused immediate order is reported with its reason and changes nothing else. */
  lemma ImmediateRefused(cfg: SimConfig, s: Sim, intent: QuoteIntent, ts: nat, overrideId: Option<QuoteId>,
                         submittedAt: nat)
    requires Verdict(cfg, s, intent).Some?
    ensures Place(cfg, s, intent, ts, overrideId, submittedAt)
            == (s.(rejections := s.rejections + [Rejection(intent, Verdict(cfg, s, intent).value)]), None)
  {
    hide Verdict;
  }

  /** An admitted replace that may rest puts the new order last in place of the first one under its id. */
  lemma ReplacedExactly(cfg: SimConfig, s: Sim, id: QuoteId, intent: QuoteIntent, ts: nat, submittedAt: nat)
    requires intent.tif != IOC && intent.tif != FOK
    requires |Replace(cfg, s, id, intent, ts, submittedAt).0.rejections| == |s.rejections|
    ensures var live' := Replace(cfg, s, id, intent, ts, submittedAt).0.live;
            && live' != []
            && (var q := live'[|live'| - 1];
                q.id == id && q.symbol == intent.symbol && q.side == intent.side && q.price == intent.price
                && q.size == intent.size)
            && ((forall k :: 0 <= k < |s.live| ==> s.live[k].id != id) ==> live'[..|live'| - 1] == s.live)
            && forall i :: 0 <= i < |s.live| && s.live[i].id == id && (forall k :: 0 <= k < i ==> s.live[k].id != id)
                 ==> live'[..|live'| - 1] == s.live[..i] + s.live[i + 1..]
  {
    hide Verdict, PurgePending;
    var k := IndexOf(s.live, id);
    var evicted := s.(live := if k < |s.live| then RemoveAt(s.live, k) else s.live,
                      pending := PurgePending(s.pending, id));
    PlacedExactly(cfg, evicted, intent, ts, Some(id), submittedAt);
  }
}
