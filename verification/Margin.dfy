/** What the futures gates promise: the exposure of everything resting, all filled, fits buying power. */
module Margin {
  import opened Decimals
  import opened Core
  import opened Venue

  /** The order an accepted intent would rest as. */
  function Rested(s: Sim, intent: QuoteIntent, ts: nat, overrideId: Option<QuoteId>, submittedAt: nat): seq<LiveQuote> {
    Rest(s, intent, ts, overrideId, submittedAt).live
  }

  /** Position plus every resting bid, and position less every resting ask, both within buying power. */
  predicate Backed(cfg: SimConfig, s: Sim, live: seq<LiveQuote>, symbol: Symbol, fallback: real) {
    var m := cfg.rounding;
    var pos, c, buyingPower := PositionNotional(m, s, symbol, fallback), Commitment(m, live, symbol),
      Notional(m, s.wallet, cfg.leverage);
    pos + c.bidNotional <= buyingPower && pos - c.askNotional >= -buyingPower
  }

  lemma CommitmentSnoc(m: Rounding, live: seq<LiveQuote>, q: LiveQuote)
    ensures Commitment(m, live + [q], q.symbol) == Commit(m, Commitment(m, live, q.symbol), q)
  {
    hide Commit;
    assert (live + [q])[..|live|] == live;
  }

  /** A resting order that passes the order cap and the post-only check is refused for margin exactly when
      resting it would leave exposure beyond buying power; so whatever is accepted leaves every resting
      order of the symbol backed, and whatever is refused leaves the orders as they were. */
  lemma MarginExactly(cfg: SimConfig, s: Sim, intent: QuoteIntent, ts: nat, overrideId: Option<QuoteId>,
                      submittedAt: nat)
    requires !cfg.spot && cfg.leverage > 0.0 && s.wallet > 0.0 && !intent.tif.Immediate()
    requires Verdict(cfg, s, intent) != Some(TooManyOrders) && Verdict(cfg, s, intent) != Some(WouldCrossTouch)
    ensures var live' := Rested(s, intent, ts, overrideId, submittedAt);
            var s' := Place(cfg, s, intent, ts, overrideId, submittedAt).0;
            && (Verdict(cfg, s, intent) == Some(MarginInsufficient)
                <==> !Backed(cfg, s, live', intent.symbol, intent.price))
            && (Verdict(cfg, s, intent) == None
                ==> s'.live == live' && Backed(cfg, s', s'.live, intent.symbol, intent.price))
            && (Verdict(cfg, s, intent) != None ==> s'.live == s.live)
  {
    hide Round, Notional, PositionNotional, Commitment, PositionLimit, WouldCross, Resting;
    CommitmentSnoc(cfg.rounding, s.live, Rested(s, intent, ts, overrideId, submittedAt)[|s.live|]);
    SamePosition(cfg.rounding, s, Place(cfg, s, intent, ts, overrideId, submittedAt).0, intent);
  }

  lemma SamePosition(m: Rounding, s: Sim, s': Sim, intent: QuoteIntent)
    ensures s'.books == s.books && s'.units == s.units
            ==> (PositionNotional(m, s', intent.symbol, intent.price)
                 == PositionNotional(m, s, intent.symbol, intent.price))
  {
    hide Notional;
  }
}
