/** The fill simulator as the object the engine drives: resting orders, queue, books and balances
    updated in place, with two caches.  Every method is proved to follow the venue of values, whose
    gates read the commitment afresh, so a gate that reads the cache decides as if it had rescanned. */
module FillSimulator {
  import opened Decimals
  import opened Core
  import opened Book
  import opened Venue
  import opened Matching
  import opened OpenQuotes
  import opened Reconciliation
  import opened Dropping

  /** The cached open-quote view, the fingerprint it was built from and the symbol it was built for. */
  datatype QuoteCache = QuoteCache(quotes: seq<OpenQuote>, sig: Option<seq<Folded>>, symbol: Option<Symbol>)

  class FillSim {
    const cfg: SimConfig
    var pending: seq<PendingOp>
    var liveQuotes: seq<LiveQuote>
    var managerIds: set<QuoteId>
    var bookState: map<Symbol, BookState>
    var pendingRejections: seq<Rejection>
    var positionUnits: map<Symbol, real>
    var currentWallet: real
    var spotCash: real
    var spotUnits: real
    var committed: map<Symbol, Committed>
    var committedDirty: bool
    var lastEventTs: Option<nat>
    var nextId: QuoteId
    var openCache: QuoteCache
    /** The state from which the cached view was built. */
    ghost var builtFrom: Sim

    function State(): Sim
      reads this
    {
      Sim(pending, liveQuotes, managerIds, bookState, pendingRejections, positionUnits, currentWallet, spotCash,
          spotUnits, lastEventTs, nextId)
    }

    /** Whenever it is not dirty, the cached commitment of every symbol is what a fresh scan gives. */
    ghost predicate Coherent()
      reads this
    {
      !committedDirty ==> CacheIs(cfg.rounding, committed, liveQuotes)
    }

    /** The cached view and fingerprint are those of the state it was built from. */
    ghost predicate ViewCoherent()
      reads this
    {
      openCache.sig.Some? ==>
        && openCache.symbol.Some?
        && openCache.sig.value == Signature(builtFrom, openCache.symbol.value)
        && openCache.quotes == View(builtFrom, openCache.symbol.value)
    }

    constructor (cfg: SimConfig)
      ensures this.cfg == cfg && Coherent() && ViewCoherent()
      ensures State() == Sim([], [], {}, map[], [], map[], 0.0, 0.0, 0.0, None, 1)
    {
      this.cfg := cfg;
      pending, liveQuotes, managerIds, bookState := [], [], {}, map[];
      pendingRejections, positionUnits := [], map[];
      currentWallet, spotCash, spotUnits := 0.0, 0.0, 0.0;
      committed, committedDirty := map[], true;
      lastEventTs, nextId := None, 1;
      openCache, builtFrom := QuoteCache([], None, None), EMPTY_VENUE;
    }

    method SetWallet(wallet: real)
      modifies this`currentWallet
      ensures State() == old(State()).(wallet := wallet)
    {
      currentWallet := wallet;
    }

    method SeedSpot(cash: real, units: real)
      modifies this`spotCash, this`spotUnits
      ensures State() == old(State()).(cash := cash, assets := units)
    {
      spotCash, spotUnits := cash, units;
    }

    method MarkManager(id: QuoteId)
      modifies this`managerIds
      ensures State() == old(State()).(managers := old(managerIds) + {id})
    {
      managerIds := managerIds + {id};
    }

    method UnmarkManager(id: QuoteId)
      modifies this`managerIds
      ensures State() == old(State()).(managers := old(managerIds) - {id})
    {
      managerIds := managerIds - {id};
    }

    method DrainRejections() returns (drained: seq<Rejection>)
      modifies this`pendingRejections
      ensures drained == old(pendingRejections) && State() == old(State()).(rejections := [])
    {
      drained := pendingRejections;
      pendingRejections := [];
    }

    // -------------------------------------------------------------------------------------------
    // The commitment cache

    /** Rescans the resting orders only when they changed since the last scan. */
    method CommittedFor(symbol: Symbol) returns (c: Committed)
      requires Coherent()
      modifies this`committed, this`committedDirty
      ensures Coherent() && c == Commitment(cfg.rounding, liveQuotes, symbol)
    {
      hide Commit;
      if committedDirty {
        committed := map[];
        var i := 0;
        while i < |liveQuotes|
          invariant 0 <= i <= |liveQuotes|
          invariant CacheIs(cfg.rounding, committed, liveQuotes[..i])
        {
          var q := liveQuotes[i];
          var e := if q.symbol in committed then committed[q.symbol] else NOTHING;
          CacheAdds(cfg.rounding, committed, liveQuotes, i);
          committed := committed[q.symbol := Commit(cfg.rounding, e, q)];
          i := i + 1;
        }
        assert liveQuotes[..|liveQuotes|] == liveQuotes;
        committedDirty := false;
      }
      c := if symbol in committed then committed[symbol] else NOTHING;
    }

    // -------------------------------------------------------------------------------------------
    // The open-quote cache

    method LiveQuotesFor(symbol: Symbol) returns (out: seq<OpenQuote>)
      ensures out == View(State(), symbol)
    {
      out := [];
      var i := 0;
      while i < |liveQuotes|
        invariant 0 <= i <= |liveQuotes|
        invariant out == LiveView(liveQuotes[..i], managerIds, symbol)
      {
        var q := liveQuotes[i];
        assert liveQuotes[..i + 1][..i] == liveQuotes[..i];
        if q.symbol == symbol && q.id !in managerIds {
          out := out + [ShowLive(q)];
        }
        i := i + 1;
      }
      assert liveQuotes[..|liveQuotes|] == liveQuotes;
      var j := 0;
      while j < |pending|
        invariant 0 <= j <= |pending|
        invariant out == LiveView(liveQuotes, managerIds, symbol) + PendingView(pending[..j], managerIds, symbol)
      {
        assert pending[..j + 1][..j] == pending[..j];
        out := out + ShowPending(pending[j], managerIds, symbol);
        j := j + 1;
      }
      assert pending[..|pending|] == pending;
    }

    method OpenQuotesSignature(symbol: Symbol) returns (sig: seq<Folded>)
      ensures sig == Signature(State(), symbol)
    {
      sig := [];
      var i := 0;
      while i < |liveQuotes|
        invariant 0 <= i <= |liveQuotes|
        invariant sig == FoldLive(liveQuotes[..i], symbol)
      {
        var q := liveQuotes[i];
        assert liveQuotes[..i + 1][..i] == liveQuotes[..i];
        if q.symbol == symbol {
          sig := sig + [Folded(q.id, q.side, q.price, q.size)];
        }
        i := i + 1;
      }
      assert liveQuotes[..|liveQuotes|] == liveQuotes;
      var j := 0;
      while j < |pending|
        invariant 0 <= j <= |pending|
        invariant sig == FoldLive(liveQuotes, symbol) + FoldPending(pending[..j], symbol)
      {
        assert pending[..j + 1][..j] == pending[..j];
        sig := sig + FoldOp(pending[j], symbol);
        j := j + 1;
      }
      assert pending[..|pending|] == pending;
    }

    /** The cached view, rebuilt when the fingerprint or the symbol changed; it is the view of the state it
        was built from, whatever steps and calls came in between.  It shows the right orders whenever the
        same ones are hidden now; so it does if no manager's order is in a replace then or now and no
        folded id joined or left the managers; and if all orders in flight are post-only points as well, it
        is the current view bit for bit. */
    method OpenQuotes(symbol: Symbol) returns (view: seq<OpenQuote>)
      requires ViewCoherent()
      modifies this`openCache, this`builtFrom
      ensures ViewCoherent() && openCache.symbol == Some(symbol) && view == openCache.quotes
      ensures view == View(builtFrom, symbol) && Signature(builtFrom, symbol) == Signature(State(), symbol)
      ensures Flags(builtFrom, symbol) == Flags(State(), symbol) ==> PlainAll(view) == PlainAll(View(State(), symbol))
      ensures MembersKept(builtFrom, State(), symbol) ==> PlainAll(view) == PlainAll(View(State(), symbol))
      ensures MembersKept(builtFrom, State(), symbol) && MakerPoints(builtFrom.pending, symbol)
              && MakerPoints(pending, symbol)
              ==> view == View(State(), symbol)
      ensures old(openCache).sig == Some(Signature(State(), symbol)) && old(openCache).symbol == Some(symbol)
              ==> openCache == old(openCache) && builtFrom == old(builtFrom)
      ensures old(openCache).sig != Some(Signature(State(), symbol)) || old(openCache).symbol != Some(symbol)
              ==> builtFrom == State()
    {
      hide View, Signature, Flags, PlainAll, MakerPoints, ManagersLeftAlone;
      var sig := OpenQuotesSignature(symbol);
      if openCache.sig != Some(sig) || openCache.symbol != Some(symbol) {
        var buf := LiveQuotesFor(symbol);
        openCache := QuoteCache(buf, Some(sig), Some(symbol));
        builtFrom := State();
      }
      view := openCache.quotes;
      FreshIffFlagsAgree(builtFrom, State(), symbol);
      if MembersKept(builtFrom, State(), symbol) {
        CacheFreshUnlessManagersMove(builtFrom, State(), symbol);
        if MakerPoints(builtFrom.pending, symbol) && MakerPoints(pending, symbol) {
          BitForBitForMakers(builtFrom, State(), symbol);
        }
      }
    }

    // -------------------------------------------------------------------------------------------
    // Submitting

    method OnAction(action: Action, now: nat, jitterMs: nat)
      requires Coherent()
      modifies this`pending
      ensures Coherent() && State() == Submit(cfg, old(State()), action, now, jitterMs)
    {
      var submit := LatencyNs(cfg, cfg.submitLatencyMs, jitterMs);
      var at := SatAdd(now, if submit < 1 then 1 else submit);
      var cancelAt := SatAdd(now, LatencyNs(cfg, cfg.cancelLatencyMs, jitterMs));
      var p: PendingOp;
      match action {
        case Quote(intent) => p := PendingOp(at, PlaceOp(intent, None), now);
        case Requote(id, intent) => p := PendingOp(at, ReplaceOp(id, intent), now);
        case Cancel(id) => p := PendingOp(cancelAt, CancelOp(id), now);
        case CancelAll => p := PendingOp(cancelAt, CancelAllOp, now);
        case NoOp => return;
      }
      pending := SortBySchedule(pending + [p]);
    }

    /** Live mode: a placement that already carries the venue's id. */
    method EnqueuePlaceWithId(intent: QuoteIntent, now: nat, venueId: QuoteId, jitterMs: nat)
      requires Coherent()
      modifies this`pending
      ensures Coherent() && State() == Enqueue(cfg, old(State()), intent, now, venueId, jitterMs)
    {
      var submit := LatencyNs(cfg, cfg.submitLatencyMs, jitterMs);
      var at := SatAdd(now, if submit < 1 then 1 else submit);
      pending := SortBySchedule(pending + [PendingOp(at, PlaceOp(intent, Some(venueId)), now)]);
    }

    // -------------------------------------------------------------------------------------------
    // Decay and silent cancels

    method DecayQueueAhead(now: nat, noise: Noise)
      requires Coherent()
      modifies this`liveQuotes
      ensures Coherent() && State() == DecayQueues(cfg, old(State()), now, noise)
    {
      if !cfg.queueDecays || |liveQuotes| == 0 {
        return;
      }
      if lastEventTs.None? || now <= lastEventTs.value {
        return;
      }
      if noise.decay >= 1.0 {
        return;
      }
      ghost var before := liveQuotes;
      var i := 0;
      while i < |liveQuotes|
        invariant 0 <= i <= |liveQuotes| == |before|
        invariant forall j :: 0 <= j < i ==> liveQuotes[j] == Decayed(before[j], noise.decay)
        invariant forall j :: i <= j < |before| ==> liveQuotes[j] == before[j]
      {
        if liveQuotes[i].queueAhead > 0.0 {
          liveQuotes := liveQuotes[i := liveQuotes[i].(queueAhead := liveQuotes[i].queueAhead * noise.decay)];
        }
        i := i + 1;
      }
      assert liveQuotes == DecayAll(before, noise.decay);
      CacheIgnoresQueues(cfg.rounding, committed, before, liveQuotes);
    }

    method SilentCancelTick(now: nat, noise: Noise)
      requires Coherent()
      modifies this`liveQuotes, this`lastEventTs, this`committedDirty
      ensures Coherent() && State() == SilentCancels(cfg, old(State()), now, noise)
    {
      if !cfg.silentCancels {
        lastEventTs := Some(now);
        return;
      }
      var elapsed := if lastEventTs.Some? && now > lastEventTs.value then now - lastEventTs.value else 0;
      lastEventTs := Some(now);
      if elapsed == 0 || |liveQuotes| == 0 {
        return;
      }
      liveQuotes := Without(liveQuotes, noise.dropped);
      committedDirty := true;
    }

    // -------------------------------------------------------------------------------------------
    // Placing

    /** The gates, in the venue's order; the commitment comes from the cache. */
    method Gate(intent: QuoteIntent) returns (reason: Option<Reason>)
      requires Coherent()
      modifies this`committed, this`committedDirty
      ensures Coherent() && State() == old(State()) && reason == Verdict(cfg, State(), intent)
    {
      hide SpotVerdict, FuturesVerdict, Commitment, Resting;
      var immediate := intent.tif.Immediate();
      if cfg.maxOpenOrders.Some? && !immediate {
        if Resting(liveQuotes, intent.symbol) >= cfg.maxOpenOrders.value {
          return Some(TooManyOrders);
        }
      }
      if intent.tif.PostOnly? && WouldCross(State(), intent) {
        return Some(WouldCrossTouch);
      }
      if cfg.spot {
        reason := SpotGate(intent);
      } else {
        reason := FuturesGate(intent);
      }
    }

    /** Cash covers a bid with its fee, holdings cover an ask; immediate orders reserve nothing. */
    method SpotGate(intent: QuoteIntent) returns (reason: Option<Reason>)
      requires Coherent()
      modifies this`committed, this`committedDirty
      ensures Coherent() && State() == old(State())
      ensures reason == SpotVerdict(cfg, State(), intent,
                                    if intent.tif.Immediate() then NOTHING
                                      else Commitment(cfg.rounding, liveQuotes, intent.symbol))
    {
      hide Round, Notional, Reserved;
      var m, c := cfg.rounding, NOTHING;
      if !intent.tif.Immediate() {
        c := CommittedFor(intent.symbol);
      }
      match intent.side {
        case Bid =>
          var reserved := Reserved(m, Notional(m, intent.price, intent.size), cfg.makerBps);
          if Round(m, c.bidNotional + reserved) > spotCash {
            return Some(InsufficientCash);
          }
        case Ask =>
          if c.askSize + intent.size > spotUnits {
            return Some(InsufficientAsset);
          }
      }
      return None;
    }

    /** Buying power first, then the position cap. */
    method FuturesGate(intent: QuoteIntent) returns (reason: Option<Reason>)
      requires Coherent()
      modifies this`committed, this`committedDirty
      ensures Coherent() && State() == old(State())
      ensures reason == FuturesVerdict(cfg, State(), intent, Commitment(cfg.rounding, liveQuotes, intent.symbol))
    {
      hide Round, Notional, PositionNotional, Commitment;
      var m := cfg.rounding;
      var pos := PositionNotional(m, State(), intent.symbol, intent.price);
      var delta := Notional(m, intent.price, intent.size);
      if cfg.leverage > 0.0 && currentWallet > 0.0 {
        var buyingPower := Notional(m, currentWallet, cfg.leverage);
        var c := CommittedFor(intent.symbol);
        var bids, asks := c.bidNotional, c.askNotional;
        if intent.side.Bid? {
          bids := Round(m, bids + delta);
        } else {
          asks := Round(m, asks + delta);
        }
        if pos + bids > buyingPower || pos - asks < -buyingPower {
          return Some(MarginInsufficient);
        }
      }
      var limit := PositionLimit(cfg, State());
      if limit.Some? {
        var projected := if intent.side.Bid? then pos + delta else pos - delta;
        if projected > limit.value || projected < -limit.value {
          return Some(PositionCap);
        }
      }
      return None;
    }

    /** Books one fill: position always, balances in spot mode. */
    method Book(symbol: Symbol, side: Side, qty: real, notional: real, fee: real)
      modifies this`positionUnits, this`spotCash, this`spotUnits
      ensures State() == Settle(cfg, old(State()), symbol, side, qty, notional, fee)
    {
      hide Round;
      var m := cfg.rounding;
      if symbol !in positionUnits {
        positionUnits := positionUnits[symbol := 0.0];
      }
      match side {
        case Bid => positionUnits := positionUnits[symbol := positionUnits[symbol] + qty];
        case Ask => positionUnits := positionUnits[symbol := positionUnits[symbol] - qty];
      }
      if cfg.spot {
        match side {
          case Bid =>
            spotCash := Round(m, spotCash - notional);
            spotUnits := Round(m, spotUnits + qty);
          case Ask =>
            spotCash := Round(m, spotCash + notional);
            spotUnits := Round(m, spotUnits - qty);
        }
        spotCash := Round(m, spotCash - fee);
      }
    }

    /** IOC and FOK: walk the book, fill at the average price, take the levels out. */
    method TakeNow(intent: QuoteIntent, ts: nat, submittedAt: nat) returns (fill: Option<Fill>)
      requires Coherent()
      modifies this`bookState, this`positionUnits, this`spotCash, this`spotUnits, this`nextId
      ensures Coherent() && (State(), fill) == Take(cfg, old(State()), intent, ts, submittedAt)
    {
      hide Round, Consumed, Bps, AveragePrice, RoundedCost, Settle, DecrementAll;
      if intent.symbol !in bookState {
        bookState := bookState[intent.symbol := EMPTY_BOOK];
      }
      var book := bookState[intent.symbol];
      assert bookState == old(bookState)[intent.symbol := BookOf(old(bookState), intent.symbol)];
      var consumed := WalkBookIoc(book, intent.side, intent.size, intent.price);
      if consumed == [] {
        return None;
      }
      var qty := Quantity(consumed);
      if intent.tif.FOK? && qty < intent.size {
        return None;
      }
      var notional := RoundedCost(cfg.rounding, consumed);
      var avg := AveragePrice(cfg.rounding, notional, qty);
      var fee := Round(cfg.rounding, Bps(notional, cfg.takerBps));
      var side := intent.side.Opposite();
      var taken := TakeLevels(book, side, consumed);
      bookState := bookState[intent.symbol := taken];
      assert bookState == old(bookState)[intent.symbol := taken];
      Book(intent.symbol, intent.side, qty, notional, fee);
      fill := Some(Fill(nextId, avg, qty, intent.symbol.quote, fee, intent.side, ts, qty >= intent.size, submittedAt));
      nextId := nextId + 1;
    }

    /** Takes each consumed level out of the book in turn. */
    static method TakeLevels(book: BookState, side: Side, consumed: seq<Level>) returns (taken: BookState)
      ensures taken == DecrementAll(book, side, consumed)
    {
      taken := book;
      var i := 0;
      while i < |consumed|
        invariant 0 <= i <= |consumed|
        invariant DecrementAll(taken, side, consumed[i..]) == DecrementAll(book, side, consumed)
      {
        assert consumed[i..][0] == consumed[i] && consumed[i..][1..] == consumed[i + 1..];
        taken := taken.DecrementLevel(side, consumed[i].price, consumed[i].size);
        i := i + 1;
      }
    }

    method PlaceOrReject(intent: QuoteIntent, ts: nat, overrideId: Option<QuoteId>, submittedAt: nat)
      returns (fill: Option<Fill>)
      requires Coherent()
      modifies this`pendingRejections, this`committed, this`committedDirty, this`bookState, this`positionUnits,
        this`spotCash, this`spotUnits, this`nextId, this`liveQuotes
      ensures Coherent() && (State(), fill) == Place(cfg, old(State()), intent, ts, overrideId, submittedAt)
    {
      hide Verdict, Take;
      var reason := Gate(intent);
      if reason.Some? {
        pendingRejections := pendingRejections + [Rejection(intent, reason.value)];
        return None;
      }
      if intent.tif.Immediate() {
        fill := TakeNow(intent, ts, submittedAt);
        return;
      }
      var ahead := BookOf(bookState, intent.symbol).LevelSize(intent.side, intent.price);
      var id := nextId;
      if overrideId.Some? {
        id := overrideId.value;
      } else {
        nextId := nextId + 1;
      }
      liveQuotes := liveQuotes + [LiveQuote(id, intent.symbol, intent.side, intent.price, intent.size, ahead, ts,
                                            submittedAt)];
      committedDirty := true;
      return None;
    }

    // -------------------------------------------------------------------------------------------
    // Cancels and replaces

    method PurgePendingId(id: QuoteId)
      modifies this`pending
      ensures pending == PurgePending(old(pending), id)
    {
      pending := Filter(pending, Uncarried(id));
    }

    method CancelQuote(id: QuoteId)
      modifies this`liveQuotes, this`committedDirty, this`pending
      ensures Coherent() && State() == CancelId(old(State()), id)
    {
      liveQuotes := Filter(liveQuotes, OtherThan(id));
      committedDirty := true;
      PurgePendingId(id);
    }

    /** Evict, gate, and put the order back if the gates refuse. */
    method ApplyReplace(id: QuoteId, intent: QuoteIntent, ts: nat, submittedAt: nat) returns (fill: Option<Fill>)
      requires Coherent()
      modifies this
      ensures Coherent() && (State(), fill) == Replace(cfg, old(State()), id, intent, ts, submittedAt)
      ensures openCache == old(openCache) && builtFrom == old(builtFrom)
    {
      hide Place;
      var i := IndexOf(liveQuotes, id);
      var restore := None;
      if i < |liveQuotes| {
        restore := Some(liveQuotes[i]);
        liveQuotes := RemoveAt(liveQuotes, i);
        committedDirty := true;
      }
      PurgePendingId(id);
      var rejectionsBefore := |pendingRejections|;
      fill := PlaceOrReject(intent, ts, Some(id), submittedAt);
      if fill.None? && |pendingRejections| > rejectionsBefore && restore.Some? {
        liveQuotes := liveQuotes + [restore.value];
        committedDirty := true;
      }
    }

    method ApplyOp(p: PendingOp) returns (fill: Option<Fill>)
      requires Coherent()
      modifies this
      ensures Coherent() && (State(), Listed(fill)) == Apply(cfg, old(State()), p)
      ensures openCache == old(openCache) && builtFrom == old(builtFrom)
    {
      hide Place, Replace, CancelId;
      fill := None;
      match p.op {
        case PlaceOp(intent, overrideId) =>
          fill := PlaceOrReject(intent, p.scheduledTs, overrideId, p.submittedAt);
        case ReplaceOp(id, intent) =>
          fill := ApplyReplace(id, intent, p.scheduledTs, p.submittedAt);
        case CancelOp(id) =>
          CancelQuote(id);
        case CancelAllOp =>
          liveQuotes := Filter(liveQuotes, OwnedBy(managerIds));
          committedDirty := true;
      }
    }

    /** Applies the operations due by `now`, in queue order. */
    method ApplyDue(now: nat) returns (fills: seq<Fill>)
      requires Coherent()
      modifies this
      ensures Coherent() && (State(), fills) == ApplyPending(cfg, old(State()), now)
      ensures openCache == old(openCache) && builtFrom == old(builtFrom)
    {
      hide Apply;
      var pivot := DueCount(pending, now);
      var ready := pending[..pivot];
      pending := pending[pivot..];
      fills := [];
      ghost var goal := ApplyAll(cfg, State(), ready);
      assert ready[0..] == ready && [] + goal.1 == goal.1;
      var i := 0;
      while i < |ready|
        invariant 0 <= i <= |ready|
        invariant Coherent() && openCache == old(openCache) && builtFrom == old(builtFrom)
        invariant goal.0 == ApplyAll(cfg, State(), ready[i..]).0
        invariant goal.1 == fills + ApplyAll(cfg, State(), ready[i..]).1
      {
        var p := ready[i];
        assert ready[i..][0] == p && ready[i..][1..] == ready[i + 1..];
        var fill := ApplyOp(p);
        AppendFills(fills, Listed(fill), ApplyAll(cfg, State(), ready[i + 1..]).1);
        fills := fills + Listed(fill);
        i := i + 1;
      }
      assert ready[i..] == [] && fills + [] == fills;
    }

    /** Live mode: the venue filled or cancelled this order. */
    method DropQuote(id: QuoteId)
      modifies this`liveQuotes, this`committedDirty, this`pending
      ensures Coherent() && State() == CancelId(old(State()), id)
    {
      CancelQuote(id);
    }

    /** Live mode: the venue cancelled all of the symbol's orders; the managers' survive. */
    method DropQuotesFor(symbol: Symbol)
      modifies this`liveQuotes, this`committedDirty, this`pending
      ensures Coherent() && State() == Dropped(old(State()), symbol)
    {
      liveQuotes := Filter(liveQuotes, Staying(symbol, managerIds));
      committedDirty := true;
      pending := Filter(pending, Surviving(symbol, managerIds));
    }

    /** Drops the symbol's orders that are not among `validIds`; the cache stays clean if none was. */
    method RetainQuotesFor(symbol: Symbol, validIds: set<QuoteId>) returns (removed: nat)
      requires Coherent()
      modifies this`liveQuotes, this`committedDirty
      ensures Coherent() && State() == old(State()).(live := Retained(old(liveQuotes), symbol, validIds))
      ensures removed == |old(liveQuotes)| - |liveQuotes|
    {
      var before := |liveQuotes|;
      FilterWhole(liveQuotes, Staying(symbol, validIds));
      liveQuotes := Filter(liveQuotes, Staying(symbol, validIds));
      removed := before - |liveQuotes|;
      if removed > 0 {
        committedDirty := true;
      }
    }

    /** Drops ghosts and imports the venue's orders that are missing. */
    method ReconcileQuotesFor(symbol: Symbol, orders: seq<OpenOrder>) returns (removed: nat, added: nat)
      requires Coherent()
      modifies this`liveQuotes, this`committedDirty
      ensures Coherent() && (State(), removed, added) == Reconciled(old(State()), symbol, orders)
    {
      hide Retained;
      removed := RetainQuotesFor(symbol, OrderIds(orders));
      var known := RestingIds(liveQuotes, symbol) + InFlightIds(pending, symbol);
      added := 0;
      ghost var kept, imports := liveQuotes, Imports(orders, symbol, known);
      assert orders[0..] == orders;
      var i := 0;
      while i < |orders|
        invariant 0 <= i <= |orders|
        invariant |liveQuotes| == |kept| + added && State() == old(State()).(live := liveQuotes)
        invariant liveQuotes + Imports(orders[i..], symbol, known) == kept + imports
      {
        var order := orders[i];
        assert orders[i..][0] == order && orders[i..][1..] == orders[i + 1..];
        if order.symbol == symbol && order.id !in known {
          ImportMoves(liveQuotes, Import(order), Imports(orders[i + 1..], symbol, known + {order.id}));
          liveQuotes := liveQuotes + [Import(order)];
          known := known + {order.id};
          added := added + 1;
        }
        i := i + 1;
      }
      assert liveQuotes == kept + imports;
      committedDirty := true;
    }

    // -------------------------------------------------------------------------------------------
    // Book snapshots

    method UpdateBookState(snapshot: Snapshot)
      requires Coherent()
      modifies this`bookState, this`liveQuotes
      ensures Coherent() && State() == UpdateBook(old(State()), snapshot)
    {
      hide Attributed, InWindow, LevelMap;
      var previous := BookOf(bookState, snapshot.symbol);
      var fresh_ := BookFrom(snapshot);
      ghost var before := liveQuotes;
      bookState := bookState[snapshot.symbol := fresh_];
      var i := 0;
      while i < |liveQuotes|
        invariant 0 <= i <= |liveQuotes| == |before|
        invariant forall j :: 0 <= j < i ==> liveQuotes[j] == Reattributed(previous, snapshot, before[j])
        invariant forall j :: i <= j < |before| ==> liveQuotes[j] == before[j]
        invariant bookState == old(bookState)[snapshot.symbol := fresh_]
      {
        var q := liveQuotes[i];
        if q.symbol == snapshot.symbol && InWindow(snapshot, q) {
          var prevAgg, newAgg := previous.LevelSize(q.side, q.price), fresh_.LevelSize(q.side, q.price);
          AttributedIs(q, prevAgg, newAgg);
          if prevAgg > 0.0 && newAgg < prevAgg && newAgg > 0.0 {
            liveQuotes := liveQuotes[i := q.(queueAhead := q.queueAhead * newAgg / prevAgg)];
          }
        }
        i := i + 1;
      }
      assert liveQuotes == ReattributeAll(previous, snapshot, before);
      SnapshotKeepsOrders(previous, snapshot, before);
      CacheIgnoresQueues(cfg.rounding, committed, before, liveQuotes);
    }

    // -------------------------------------------------------------------------------------------
    // Matching a public trade

    /** What the trade does to the order at index `i`: queue first, then the order itself. */
    method BiteQuote(i: nat, tradePrice: real, remaining: real) returns (b: Bite)
      requires i < |liveQuotes|
      modifies this`liveQuotes, this`bookState, this`positionUnits, this`spotCash, this`spotUnits, this`committedDirty
      ensures b == BiteOf(old(liveQuotes)[i], i, tradePrice, remaining)
      ensures State() == SettleBite(cfg, old(State()), b).(live := old(liveQuotes)[i := b.quote])
      ensures committedDirty == (old(committedDirty) || b.reached)
    {
      hide Round, Notional, MakerFee, Settle;
      var q, left, eaten := liveQuotes[i], remaining, 0.0;
      if tradePrice == q.price {
        var ate := Min(q.queueAhead, left);
        if ate > 0.0 {
          eaten := ate;
          q := q.(queueAhead := q.queueAhead - ate);
          left := left - ate;
          if q.symbol in bookState {
            bookState := bookState[q.symbol := bookState[q.symbol].DecrementLevel(q.side, q.price, ate)];
          }
          if left == 0.0 {
            liveQuotes := liveQuotes[i := q];
            return Bite(i, eaten, false, 0.0, q);
          }
        }
      } else if q.queueAhead > 0.0 {
        q := q.(queueAhead := 0.0);
      }
      var filled := Min(q.size, left);
      var fee := MakerFee(cfg, q.price, filled);
      Book(q.symbol, q.side, filled, Notional(cfg.rounding, q.price, filled), fee);
      q := q.(size := q.size - filled);
      liveQuotes := liveQuotes[i := q];
      committedDirty := true;
      return Bite(i, eaten, true, filled, q);
    }

    /** Serves the orders in turn until the trade is used up; the drained ones stay in place, listed. */
    method ServeOrders(order: seq<nat>, tradePrice: real, tradeSize: real, ts: nat)
      returns (out: seq<Fill>, drained: seq<nat>)
      requires Indices(order, |liveQuotes|) && NoRepeats(order)
      modifies this`liveQuotes, this`bookState, this`positionUnits, this`spotCash, this`spotUnits, this`committedDirty
      ensures Finished(cfg, old(State()), State(), Bites(old(liveQuotes), tradePrice, tradeSize, order), out, drained,
                       ts)
      ensures !committedDirty ==> !old(committedDirty) && drained == [] && SameButQueues(old(liveQuotes), liveQuotes)
    {
      hide BiteOf, SettleBite, MakerFill, SoFar, Finished, Bites;
      out, drained := [], [];
      ghost var s0, live0, done: seq<Bite> := State(), liveQuotes, [];
      ghost var bites := Bites(live0, tradePrice, tradeSize, order);
      SoFarStarts(cfg, s0, tradePrice, tradeSize, order, ts);
      var remaining, k := tradeSize, 0;
      while k < |order|
        invariant 0 <= k <= |order| && |liveQuotes| == |live0|
        invariant SoFar(cfg, s0, State(), tradePrice, remaining, order, k, bites, done, out, drained, ts)
        invariant !committedDirty ==> !old(committedDirty) && drained == [] && SameButQueues(live0, liveQuotes)
      {
        if remaining <= 0.0 {
          break;
        }
        var i := order[k];
        ghost var before := State();
        SoFarOriginal(cfg, s0, before, tradePrice, remaining, order, k, bites, done, out, drained, ts);
        var b := BiteQuote(i, tradePrice, remaining);
        BiteKeeps(live0[i], i, tradePrice, remaining);
        SoFarStep(cfg, s0, before, State(), tradePrice, remaining, order, k, bites, done, out, drained, ts, b);
        done := done + [b];
        if !b.reached {
          return;
        }
        out := out + [MakerFill(cfg, b, ts)];
        remaining := remaining - b.eaten - b.filled;
        if b.quote.size == 0.0 {
          drained := drained + [i];
        }
        k := k + 1;
      }
      SoFarEnds(cfg, s0, State(), tradePrice, remaining, order, k, bites, done, out, drained, ts);
    }

    /** Fills resting orders best price first, oldest first, until the trade is used up; then removes the
        drained ones, highest index first. */
    method MatchPublicTrade(symbol: Symbol, tradePrice: real, tradeSize: real, taker: Side, ts: nat)
      returns (out: seq<Fill>)
      requires Coherent()
      modifies this
      ensures Coherent() && (State(), out) == MatchTrade(cfg, old(State()), symbol, tradePrice, tradeSize, taker, ts)
      ensures openCache == old(openCache) && builtFrom == old(builtFrom)
    {
      hide Priority, Without, Finished, Bites, CacheIs, InOrder, IsEligible, SettleBites, LiveAfter, MakerFills,
        Drained;
      out := [];
      ghost var s0 := State();
      if tradePrice <= 0.0 || tradeSize <= 0.0 {
        NoBites(cfg, s0, ts);
        return;
      }
      var order := Priority(liveQuotes, symbol, taker, tradePrice);
      PriorityOrder(liveQuotes, symbol, taker, tradePrice);
      var drained;
      out, drained := ServeOrders(order, tradePrice, tradeSize, ts);
      FinishedMeans(cfg, s0, State(), TradeBites(s0, symbol, tradePrice, tradeSize, taker), out, drained, ts);
      CacheIgnoresQueuesIf(cfg.rounding, committed, s0.live, liveQuotes, !committedDirty);
      WithoutNothing(liveQuotes, 0);
      assert drained == [] ==> IndexSet(drained) == {};
      var kept := RemoveDrained(liveQuotes, drained);
      liveQuotes := kept;
    }

    /** One market event: decay, silent cancels, due operations, then the event itself. */
    method OnEvent(ev: MarketEvent, now: nat, noise: Noise) returns (fills: seq<Fill>)
      requires Coherent()
      modifies this
      ensures Coherent() && (State(), fills) == OnMarketEvent(cfg, old(State()), ev, now, noise)
      ensures openCache == old(openCache) && builtFrom == old(builtFrom)
    {
      hide DecayQueues, SilentCancels, ApplyPending, UpdateBook, MatchTrade;
      DecayQueueAhead(now, noise);
      SilentCancelTick(now, noise);
      fills := ApplyDue(now);
      match ev {
        case BookUpdate(snapshot) => UpdateBookState(snapshot);
        case Trade(symbol, price, size, side, ts) =>
          var more := MatchPublicTrade(symbol, price, size, side, ts);
          fills := fills + more;
        case FillEvent(_) =>
        case Heartbeat(_) =>
      }
      assert fills + [] == fills;
    }
  }

  // ---------------------------------------------------------------------------------------------
  // Lemmas about the caches

  ghost predicate CacheIs(m: Rounding, cache: map<Symbol, Committed>, live: seq<LiveQuote>) {
    forall sym :: (if sym in cache then cache[sym] else NOTHING) == Commitment(m, live, sym)
  }

  /** Folding one more order into the cached commitment keeps it a fresh scan. */
  lemma CacheAdds(m: Rounding, cache: map<Symbol, Committed>, live: seq<LiveQuote>, i: nat)
    requires i < |live| && CacheIs(m, cache, live[..i])
    ensures var q := live[i];
            var e := if q.symbol in cache then cache[q.symbol] else NOTHING;
            CacheIs(m, cache[q.symbol := Commit(m, e, q)], live[..i + 1])
  {
    hide Commit;
    assert live[..i + 1][..i] == live[..i];
  }

  lemma {:induction false} CommitmentIgnoresQueues(m: Rounding, live: seq<LiveQuote>, live': seq<LiveQuote>,
                                                   symbol: Symbol)
    requires SameButQueues(live, live')
    ensures Commitment(m, live', symbol) == Commitment(m, live, symbol)
    decreases |live|
  {
    hide Round, Notional;
    if live != [] {
      CommitmentIgnoresQueues(m, live[..|live| - 1], live'[..|live| - 1], symbol);
    }
  }

  lemma CacheIgnoresQueues(m: Rounding, cache: map<Symbol, Committed>, live: seq<LiveQuote>, live': seq<LiveQuote>)
    requires SameButQueues(live, live')
    ensures CacheIs(m, cache, live) ==> CacheIs(m, cache, live')
  {
    hide Commitment;
    forall sym
      ensures Commitment(m, live', sym) == Commitment(m, live, sym)
    {
      CommitmentIgnoresQueues(m, live, live', sym);
    }
  }

  lemma AttributedIs(q: LiveQuote, before: real, after: real)
    ensures Attributed(q, before, after)
            == if before > 0.0 && after < before && after > 0.0 then q.(queueAhead := q.queueAhead * after / before)
              else q
  {
  }

  lemma SnapshotKeepsOrders(previous: BookState, snap: Snapshot, live: seq<LiveQuote>)
    ensures SameButQueues(live, ReattributeAll(previous, snap, live))
  {
    hide LevelMap, InWindow;
  }

  lemma AppendFills(xs: seq<Fill>, ys: seq<Fill>, zs: seq<Fill>)
    ensures xs + (ys + zs) == (xs + ys) + zs
  {
  }

  lemma ImportMoves(live: seq<LiveQuote>, q: LiveQuote, rest: seq<LiveQuote>)
    ensures live + ([q] + rest) == (live + [q]) + rest
  {
  }

  /** Retaining everything retains the vector itself. */
  lemma {:induction false} FilterWhole(live: seq<LiveQuote>, keep: LiveQuote -> bool)
    ensures |Filter(live, keep)| == |live| ==> Filter(live, keep) == live
  {
    if live != [] {
      FilterWhole(live[1..], keep);
    }
  }

  // ---------------------------------------------------------------------------------------------
  // Lemmas about matching

  lemma CacheIgnoresQueuesIf(m: Rounding, cache: map<Symbol, Committed>, live: seq<LiveQuote>, live': seq<LiveQuote>,
                             clean: bool)
    requires clean ==> SameButQueues(live, live')
    ensures clean && CacheIs(m, cache, live) ==> CacheIs(m, cache, live')
  {
    if clean {
      CacheIgnoresQueues(m, cache, live, live');
    }
  }

  lemma NoBites(cfg: SimConfig, s: Sim, ts: nat)
    ensures SettleBites(cfg, s, []).(live := LiveAfter(s.live, [])) == s
    ensures MakerFills(cfg, [], ts) == [] && Drained([]) == {} && s.live == Without(s.live, {})
  {
    WithoutNothing(s.live, 0);
  }

  lemma {:induction false} WithoutNothing<T>(xs: seq<T>, base: nat)
    ensures Without(xs, {}, base) == xs
  {
    if xs != [] {
      WithoutNothing(xs[1..], base + 1);
    }
  }

  /** One more bite, on state, orders and fills. */
  lemma BiteStep(cfg: SimConfig, s: Sim, live: seq<LiveQuote>, done: seq<Bite>, b: Bite, ts: nat)
    requires b.index < |live|
    ensures LiveAfter(live, done + [b]) == LiveAfter(live, done)[b.index := b.quote]
    ensures SettleBites(cfg, s, done + [b]).(live := LiveAfter(live, done + [b]))
            == SettleBite(cfg, SettleBites(cfg, s, done).(live := LiveAfter(live, done)),
                          b).(live := LiveAfter(live, done)[b.index := b.quote])
    ensures MakerFills(cfg, done + [b], ts)
            == MakerFills(cfg, done, ts) + if b.reached then [MakerFill(cfg, b, ts)] else []
  {
    hide SettleBite, MakerFill;
    SettleSnoc(cfg, s, done, b);
    LiveSnoc(live, done, b);
    FillsSnoc(cfg, done, b, ts);
    SettleLive(cfg, SettleBites(cfg, s, done), LiveAfter(live, done), b);
  }

  lemma BiteKeeps(q: LiveQuote, i: nat, tradePrice: real, remaining: real)
    ensures var b := BiteOf(q, i, tradePrice, remaining);
            b.index == i && (!b.reached ==> b.quote == q.(queueAhead := b.quote.queueAhead))
  {
  }

  /** `drained` lists the drained indices, each once, all among those served. */
  ghost predicate DrainedList(drained: seq<nat>, done: seq<Bite>, served: seq<nat>, n: nat) {
    && (forall i :: i in drained <==> i in Drained(done))
    && (forall i :: i in drained ==> i < n && i in served)
    && NoRepeats(drained)
  }

  /** Halfway through a trade: `done` of the trade's `bites` taken, the rest still to come from the orders
      from the `k`-th on, which are as they were. */
  ghost predicate SoFar(cfg: SimConfig, s0: Sim, s: Sim, tradePrice: real, remaining: real, order: seq<nat>, k: nat,
                        bites: seq<Bite>, done: seq<Bite>, out: seq<Fill>, drained: seq<nat>, ts: nat)
  {
    && k <= |order| && Indices(order, |s0.live|) && NoRepeats(order) && |s.live| == |s0.live|
    && Indices(order[k..], |s0.live|)
    && bites == done + Bites(s0.live, tradePrice, remaining, order[k..])
    && s == SettleBites(cfg, s0, done).(live := LiveAfter(s0.live, done))
    && out == MakerFills(cfg, done, ts)
    && (forall j :: k <= j < |order| ==> s.live[order[j]] == s0.live[order[j]])
    && DrainedList(drained, done, order[..k], |s0.live|)
  }

  /** The whole trade matched, the drained orders still in place. */
  ghost predicate Finished(cfg: SimConfig, s0: Sim, s: Sim, bites: seq<Bite>, out: seq<Fill>, drained: seq<nat>,
                           ts: nat) {
    && s == SettleBites(cfg, s0, bites).(live := LiveAfter(s0.live, bites))
    && out == MakerFills(cfg, bites, ts)
    && NoRepeats(drained) && Indices(drained, |s0.live|) && IndexSet(drained) == Drained(bites)
  }

  lemma SoFarStarts(cfg: SimConfig, s0: Sim, tradePrice: real, tradeSize: real, order: seq<nat>, ts: nat)
    requires Indices(order, |s0.live|) && NoRepeats(order)
    ensures SoFar(cfg, s0, s0, tradePrice, tradeSize, order, 0, Bites(s0.live, tradePrice, tradeSize, order), [], [],
                  [], ts)
  {
    hide Bites;
    NoBites(cfg, s0, ts);
    assert order[0..] == order && [] + Bites(s0.live, tradePrice, tradeSize, order)
           == Bites(s0.live, tradePrice, tradeSize, order);
  }

  /** The order about to be served is still as it was. */
  lemma SoFarOriginal(cfg: SimConfig, s0: Sim, s: Sim, tradePrice: real, remaining: real, order: seq<nat>, k: nat,
                      bites: seq<Bite>, done: seq<Bite>, out: seq<Fill>, drained: seq<nat>, ts: nat)
    requires SoFar(cfg, s0, s, tradePrice, remaining, order, k, bites, done, out, drained, ts) && k < |order|
    ensures order[k] < |s.live| && s.live[order[k]] == s0.live[order[k]]
  {
    hide Bites, SettleBites, MakerFills, DrainedList, NoRepeats;
  }

  lemma SoFarStep(cfg: SimConfig, s0: Sim, s: Sim, s': Sim, tradePrice: real, remaining: real, order: seq<nat>, k: nat,
                  bites: seq<Bite>, done: seq<Bite>, out: seq<Fill>, drained: seq<nat>, ts: nat, b: Bite)
    requires SoFar(cfg, s0, s, tradePrice, remaining, order, k, bites, done, out, drained, ts)
    requires k < |order| && remaining > 0.0 && order[k] < |s0.live| && order[k] < |s.live|
    requires b == BiteOf(s0.live[order[k]], order[k], tradePrice, remaining) && b.index == order[k]
    requires s' == SettleBite(cfg, s, b).(live := s.live[order[k] := b.quote])
    ensures if b.reached
            then SoFar(cfg, s0, s', tradePrice, remaining - b.eaten - b.filled, order, k + 1, bites, done + [b],
                       out + [MakerFill(cfg, b, ts)], if b.quote.size == 0.0 then drained + [order[k]] else drained, ts)
            else Finished(cfg, s0, s', bites, out, drained, ts)
  {
    hide BiteOf, SettleBite, MakerFill, Bites, DrainedList, SettleBites, LiveAfter, MakerFills;
    BiteStep(cfg, s0, s0.live, done, b, ts);
    assert order[k..][0] == order[k] && order[k..][1..] == order[k + 1..];
    UnfoldBites(s0.live, tradePrice, remaining, order[k..]);
    assert (done + [b])[..|done + [b]| - 1] == done;
    DrainedGrows(drained, done + [b], order, k, |s0.live|);
    if b.reached {
      WalkBites(done, b, Bites(s0.live, tradePrice, remaining - b.eaten - b.filled, order[k + 1..]));
    } else {
      DrainedListMeans(drained, done + [b], order[..k], |s0.live|);
    }
  }

  lemma WalkBites(done: seq<Bite>, b: Bite, rest: seq<Bite>)
    ensures done + ([b] + rest) == (done + [b]) + rest
  {
  }

  lemma DrainedListMeans(drained: seq<nat>, done: seq<Bite>, served: seq<nat>, n: nat)
    requires DrainedList(drained, done, served, n)
    ensures NoRepeats(drained) && Indices(drained, n) && IndexSet(drained) == Drained(done)
  {
    assert forall k :: 0 <= k < |drained| ==> drained[k] in drained;
  }

  lemma SoFarEnds(cfg: SimConfig, s0: Sim, s: Sim, tradePrice: real, remaining: real, order: seq<nat>, k: nat,
                  bites: seq<Bite>, done: seq<Bite>, out: seq<Fill>, drained: seq<nat>, ts: nat)
    requires SoFar(cfg, s0, s, tradePrice, remaining, order, k, bites, done, out, drained, ts)
    requires k == |order| || remaining <= 0.0
    ensures Finished(cfg, s0, s, bites, out, drained, ts)
  {
    hide DrainedList, SettleBites, LiveAfter, MakerFills;
    DrainedListMeans(drained, done, order[..k], |s0.live|);
    assert done + [] == done;
  }

  lemma FinishedMeans(cfg: SimConfig, s0: Sim, s: Sim, bites: seq<Bite>, out: seq<Fill>, drained: seq<nat>, ts: nat)
    requires Finished(cfg, s0, s, bites, out, drained, ts)
    ensures s == SettleBites(cfg, s0, bites).(live := LiveAfter(s0.live, bites)) && |s.live| == |s0.live|
    ensures out == MakerFills(cfg, bites, ts)
    ensures NoRepeats(drained) && Indices(drained, |s.live|) && IndexSet(drained) == Drained(bites)
  {
  }

  lemma DrainedGrows(drained: seq<nat>, done: seq<Bite>, order: seq<nat>, k: nat, n: nat)
    requires done != [] && k < |order| && NoRepeats(order) && Indices(order, n)
    requires var init, b := done[..|done| - 1], done[|done| - 1];
             DrainedList(drained, init, order[..k], n) && b.index == order[k]
    ensures var b := done[|done| - 1];
            if b.reached && b.quote.size == 0.0 then DrainedList(drained + [order[k]], done, order[..k + 1], n)
            else DrainedList(drained, done, order[..k], n) && DrainedList(drained, done, order[..k + 1], n)
  {
    var init, b := done[..|done| - 1], done[|done| - 1];
    assert done == init + [b];
    DrainedSnoc(init, b);
    assert order[..k + 1] == order[..k] + [order[k]];
    assert order[k] !in order[..k];
  }

  /** Inserts into a descending list. */
  function InsertDescending(xs: seq<nat>, x: nat): seq<nat> {
    if xs == [] || x >= xs[0] then [x] + xs else [xs[0]] + InsertDescending(xs[1..], x)
  }

  function SortDescending(xs: seq<nat>): seq<nat> {
    if xs == [] then [] else InsertDescending(SortDescending(xs[1..]), xs[0])
  }

  predicate Descending(xs: seq<nat>) {
    forall a, b :: 0 <= a < b < |xs| ==> xs[a] > xs[b]
  }

  lemma {:induction false} InsertHolds(xs: seq<nat>, x: nat)
    ensures forall i :: i in InsertDescending(xs, x) <==> i in xs || i == x
  {
    if xs != [] && x < xs[0] {
      InsertHolds(xs[1..], x);
    }
  }

  lemma DescendingCons(x: nat, xs: seq<nat>)
    requires Descending(xs) && forall i :: i in xs ==> x > i
    ensures Descending([x] + xs)
  {
    assert forall b :: 0 <= b < |xs| ==> xs[b] in xs;
  }

  lemma DescendingTail(xs: seq<nat>)
    requires Descending(xs) && xs != []
    ensures Descending(xs[1..]) && forall i :: i in xs[1..] ==> xs[0] > i
  {
  }

  lemma {:induction false} InsertDescends(xs: seq<nat>, x: nat)
    requires Descending(xs) && x !in xs
    ensures Descending(InsertDescending(xs, x))
  {
    hide Descending;
    if xs == [] {
      DescendingCons(x, xs);
    } else {
      DescendingTail(xs);
      if x < xs[0] {
        InsertDescends(xs[1..], x);
        InsertHolds(xs[1..], x);
        DescendingCons(xs[0], InsertDescending(xs[1..], x));
      } else {
        assert forall i :: i in xs ==> i == xs[0] || i in xs[1..];
        DescendingCons(x, xs);
      }
    }
  }

  lemma {:induction false} SortDescends(xs: seq<nat>)
    requires NoRepeats(xs)
    ensures Descending(SortDescending(xs))
    ensures forall i :: i in SortDescending(xs) <==> i in xs
  {
    if xs != [] {
      SortDescends(xs[1..]);
      InsertDescends(SortDescending(xs[1..]), xs[0]);
      InsertHolds(SortDescending(xs[1..]), xs[0]);
    }
  }

  /** Removing an index below all those already gone removes that very order. */
  lemma {:induction false} WithoutRemove<T>(xs: seq<T>, gone: set<nat>, base: nat, i: nat)
    requires i < |xs| && forall g :: g in gone ==> g > base + i
    ensures i < |Without(xs, gone, base)|
    ensures RemoveAt(Without(xs, gone, base), i) == Without(xs, gone + {base + i}, base)
  {
    var rest := Without(xs[1..], gone, base + 1);
    assert base !in gone;
    assert Without(xs, gone, base) == [xs[0]] + rest;
    if i == 0 {
      WithoutIgnores(xs[1..], gone, base + 1, base);
      assert [] + Without(xs[1..], gone + {base}, base + 1) == Without(xs[1..], gone + {base}, base + 1);
      assert RemoveAt([xs[0]] + rest, 0) == rest;
    } else {
      WithoutRemove(xs[1..], gone, base + 1, i - 1);
      assert base + 1 + (i - 1) == base + i;
      assert RemoveAt([xs[0]] + rest, i) == [xs[0]] + RemoveAt(rest, i - 1);
    }
  }

  lemma {:induction false} WithoutIgnores<T>(xs: seq<T>, gone: set<nat>, base: nat, i: nat)
    requires i < base
    ensures Without(xs, gone + {i}, base) == Without(xs, gone, base)
  {
    if xs != [] {
      WithoutIgnores(xs[1..], gone, base + 1, i);
    }
  }

  function IndexSet(xs: seq<nat>): set<nat> {
    set x | x in xs
  }

  /** Index-based removal, highest index first, leaves the vector filtered in order. */
  method RemoveDrained(live: seq<LiveQuote>, drained: seq<nat>) returns (kept: seq<LiveQuote>)
    requires NoRepeats(drained) && Indices(drained, |live|)
    ensures kept == Without(live, IndexSet(drained))
  {
    hide Without;
    var sorted := SortDescending(drained);
    SortDescends(drained);
    kept := live;
    WithoutNothing(live, 0);
    ghost var gone: set<nat> := {};
    var k := 0;
    while k < |sorted|
      invariant 0 <= k <= |sorted|
      invariant gone == set j | 0 <= j < k :: sorted[j]
      invariant kept == Without(live, gone)
    {
      assert sorted[k] in sorted && sorted[k] in drained;
      WithoutRemove(live, gone, 0, sorted[k]);
      kept := RemoveAt(kept, sorted[k]);
      gone := gone + {sorted[k]};
      k := k + 1;
    }
    assert gone == IndexSet(drained);
  }
}
