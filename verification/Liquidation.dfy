/** Cross-margin forced liquidation: a closed-form price, checked against the margin inequality it
    is meant to solve, and composed with the account it closes. */
module Liquidation {
  import opened Decimals
  import opened Core
  import opened Pnl

  datatype LiquidationConfig = LiquidationConfig(
    leverage: real, maintMarginRate: real, closeFeeBps: nat)

  /** The liquidation price before rounding; `None` when flat, disabled or degenerate. */
  function RawLiqPrice(cfg: LiquidationConfig, size: real, entry: real, wallet: real): Option<real> {
    if size == 0.0 || cfg.leverage <= 0.0 then None
    else
      var s := Abs(size);
      var denom := if size > 0.0 then s * (1.0 - cfg.maintMarginRate) else s * (1.0 + cfg.maintMarginRate);
      if denom == 0.0 then None
      else
        var px := if size > 0.0 then (entry * s - wallet) / denom else (wallet + s * entry) / denom;
        if px <= 0.0 then None else Some(px)
  }

  function LiqPrice(m: Rounding, cfg: LiquidationConfig, size: real, entry: real, wallet: real): Option<real> {
    match RawLiqPrice(cfg, size, entry, wallet)
    case None => None
    case Some(px) => Some(Round(m, px))
  }

  /** A long is hit at or below its liquidation price, a short at or above it. */
  predicate Fires(m: Rounding, cfg: LiquidationConfig, a: Account, mark: real, wallet: real) {
    match LiqPrice(m, cfg, a.size, a.avgEntry, wallet)
    case None => false
    case Some(liq) => if a.size > 0.0 then mark <= liq else mark >= liq
  }

  /** The forced close: the whole position, on the opposite side, at the liquidation price. */
  function CloseFill(m: Rounding, cfg: LiquidationConfig, size: real, liq: real, feeAsset: string,
                     id: QuoteId, ts: nat): Fill {
    var notional := Notional(m, liq, Abs(size));
    Fill(id, liq, Abs(size), feeAsset, Round(m, Bps(notional, cfg.closeFeeBps)),
         if size > 0.0 then Ask else Bid, ts, true, ts)
  }

  class LiquidationModel {
    const mode: Rounding
    const cfg: LiquidationConfig
    var count: nat

    constructor (mode: Rounding, cfg: LiquidationConfig)
      ensures this.mode == mode && this.cfg == cfg && count == 0
    {
      this.mode, this.cfg, count := mode, cfg, 0;
    }

    method Check(a: Account, mark: real, wallet: real, feeAsset: string, id: QuoteId, ts: nat)
      returns (fill: Option<Fill>)
      modifies this`count
      ensures fill.Some? <==> Fires(mode, cfg, a, mark, wallet)
      ensures count == old(count) + if fill.Some? then 1 else 0
      ensures fill.Some? ==>
        fill.value == CloseFill(mode, cfg, a.size, LiqPrice(mode, cfg, a.size, a.avgEntry, wallet).value,
                                feeAsset, id, ts)
    {
      hide Round, Bps, Notional;
      var price := LiqPrice(mode, cfg, a.size, a.avgEntry, wallet);
      if price.None? {
        return None;
      }
      var liq := price.value;
      var long := a.size > 0.0;
      var triggered := if long then mark <= liq else mark >= liq;
      if !triggered {
        return None;
      }
      count := count + 1;
      var size := Abs(a.size);
      var closeSide := if long then Ask else Bid;
      var notional := Notional(mode, liq, size);
      var fee := Round(mode, Bps(notional, cfg.closeFeeBps));
      fill := Some(Fill(id, liq, size, feeAsset, fee, closeSide, ts, true, ts));
    }
  }

  /** Margin balance at or below maintenance margin. */
  predicate Underwater(wallet: real, a: Account, mark: real, mmr: real) {
    wallet + (mark - a.avgEntry) * a.size <= Abs(a.size) * mark * mmr
  }

  predicate Margined(cfg: LiquidationConfig) {
    cfg.leverage > 0.0 && 0.0 <= cfg.maintMarginRate < 1.0
  }

  function MaintenanceMargin(cfg: LiquidationConfig, size: real, price: real): real {
    Abs(size) * price * cfg.maintMarginRate
  }

  /** The position's size times one minus (long) or plus (short) the maintenance rate. */
  function Denominator(cfg: LiquidationConfig, size: real): real {
    if size > 0.0 then size * (1.0 - cfg.maintMarginRate) else -size * (1.0 + cfg.maintMarginRate)
  }

  /** The side of the margin inequality that grows with the price. */
  function Scaled(cfg: LiquidationConfig, size: real, price: real): real {
    price * Denominator(cfg, size)
  }

  function Numerator(a: Account, wallet: real): real {
    if a.size > 0.0 then a.avgEntry * a.size - wallet else wallet - a.size * a.avgEntry
  }

  lemma DenominatorPositive(cfg: LiquidationConfig, size: real)
    requires Margined(cfg) && size != 0.0
    ensures Denominator(cfg, size) > 0.0
  {
    if size > 0.0 {
      PositiveProduct(size, 1.0 - cfg.maintMarginRate);
    } else {
      PositiveProduct(-size, 1.0 + cfg.maintMarginRate);
    }
  }

  /** The margin inequality, solved for the mark. */
  lemma UnderwaterLinear(cfg: LiquidationConfig, a: Account, mark: real, wallet: real)
    requires a.size != 0.0
    ensures Underwater(wallet, a, mark, cfg.maintMarginRate) <==>
            if a.size > 0.0 then Scaled(cfg, a.size, mark) <= Numerator(a, wallet)
            else Scaled(cfg, a.size, mark) >= Numerator(a, wallet)
  {
    var mmr := cfg.maintMarginRate;
    if a.size > 0.0 {
      assert mark * (a.size * (1.0 - mmr)) == mark * a.size - a.size * mark * mmr;
    } else {
      assert mark * (-a.size * (1.0 + mmr)) == -(mark * a.size) - a.size * mark * mmr;
    }
    assert (mark - a.avgEntry) * a.size == mark * a.size - a.avgEntry * a.size;
  }

  /** The raw price times the denominator is the numerator; it is missing exactly when the numerator
      is not positive. */
  lemma RawPriceSolves(cfg: LiquidationConfig, a: Account, wallet: real)
    requires Margined(cfg) && a.size != 0.0
    ensures var px := RawLiqPrice(cfg, a.size, a.avgEntry, wallet);
            var d, n := Denominator(cfg, a.size), Numerator(a, wallet);
            && d > 0.0
            && (px.Some? <==> n > 0.0)
            && (px.Some? ==> px.value > 0.0 && Scaled(cfg, a.size, px.value) == n)
  {
    DenominatorPositive(cfg, a.size);
    var d, n := Denominator(cfg, a.size), Numerator(a, wallet);
    QuotientSign(n, d);
    if a.size < 0.0 {
      assert wallet + (-a.size) * a.avgEntry == n;
    }
  }

  lemma QuotientSign(n: real, d: real)
    requires d > 0.0
    ensures n / d * d == n && (n / d > 0.0 <==> n > 0.0)
  {
  }

  lemma CompareScaled(x: real, y: real, d: real)
    requires d > 0.0
    ensures x <= y <==> x * d <= y * d
  {
  }

  /** The margin inequality for a mark moved by `slack` towards firing, solved for the price. */
  predicate Reached(cfg: LiquidationConfig, a: Account, mark: real, slack: real, wallet: real) {
    if a.size > 0.0 then Scaled(cfg, a.size, mark - slack) <= Numerator(a, wallet)
    else Scaled(cfg, a.size, mark + slack) >= Numerator(a, wallet)
  }

  /** A long always has a price at which its margin runs out; a short has one if its wallet and entry
      value together are positive. */
  predicate Solvable(a: Account, wallet: real) {
    a.size > 0.0 || Numerator(a, wallet) > 0.0
  }

  /** Where the closed form gives a price, the check fires on every mark half a unit of price beyond the
      margin inequality, and on every grid mark at which margin balance is at or below maintenance
      margin; it never fires on a mark that misses the inequality by more than half a unit, nor where
      there is no price.  In exact arithmetic it fires on the inequality alone.  When neither wallet nor
      entry is negative, a price is missing exactly for a short with both of them zero. */
  lemma TriggerIsMarginInequality(m: Rounding, cfg: LiquidationConfig, a: Account, mark: real, wallet: real)
    requires Margined(cfg) && a.size != 0.0 && mark > 0.0
    ensures Underwater(wallet, a, mark, cfg.maintMarginRate) <==> Reached(cfg, a, mark, 0.0, wallet)
    ensures Fires(m, cfg, a, mark, wallet) ==> Solvable(a, wallet) && Reached(cfg, a, mark, HalfUlp(m), wallet)
    ensures Solvable(a, wallet) && Reached(cfg, a, mark, -HalfUlp(m), wallet) ==> Fires(m, cfg, a, mark, wallet)
    ensures OnGrid(m, mark) && Solvable(a, wallet) && Underwater(wallet, a, mark, cfg.maintMarginRate)
            ==> Fires(m, cfg, a, mark, wallet)
    ensures m.Exact? ==>
            (Fires(m, cfg, a, mark, wallet)
             <==> Solvable(a, wallet) && Underwater(wallet, a, mark, cfg.maintMarginRate))
    ensures wallet >= 0.0 && a.avgEntry >= 0.0 ==>
            (Solvable(a, wallet) <==> a.size > 0.0 || wallet > 0.0 || a.avgEntry > 0.0)
  {
    hide Round, OnGrid, HalfUlp, RawLiqPrice, Denominator, Numerator, Underwater, Scaled;
    UnderwaterLinear(cfg, a, mark, wallet);
    RawPriceSolves(cfg, a, wallet);
    var raw := RawLiqPrice(cfg, a.size, a.avgEntry, wallet);
    if raw.Some? {
      RoundedThreshold(m, cfg, a.size, mark, raw.value);
      ExactRound(m, raw.value);
    } else {
      ScaledOrder(cfg, a.size, 0.0, mark);
      ScaledOrder(cfg, a.size, 0.0, mark + HalfUlp(m));
    }
    ShortNumerator(a, wallet);
  }

  /** Without a position, or with leverage off, nothing is ever liquidated. */
  lemma NothingToLiquidate(m: Rounding, cfg: LiquidationConfig, a: Account, mark: real, wallet: real)
    requires a.size == 0.0 || cfg.leverage <= 0.0
    ensures !Fires(m, cfg, a, mark, wallet)
  {
  }

  lemma ScaledOrder(cfg: LiquidationConfig, size: real, x: real, y: real)
    requires Denominator(cfg, size) > 0.0
    ensures x <= y <==> Scaled(cfg, size, x) <= Scaled(cfg, size, y)
    ensures x < y ==> Scaled(cfg, size, x) < Scaled(cfg, size, y)
    ensures Scaled(cfg, size, 0.0) == 0.0
  {
    hide Denominator;
    CompareScaled(x, y, Denominator(cfg, size));
    CompareScaled(y, x, Denominator(cfg, size));
  }

  /** Comparing a mark with the rounded price, against comparing it with the price itself. */
  lemma RoundedThreshold(m: Rounding, cfg: LiquidationConfig, size: real, mark: real, px: real)
    requires Denominator(cfg, size) > 0.0
    ensures Scaled(cfg, size, mark - -HalfUlp(m)) <= Scaled(cfg, size, px) ==> mark <= Round(m, px)
    ensures Scaled(cfg, size, mark + -HalfUlp(m)) >= Scaled(cfg, size, px) ==> mark >= Round(m, px)
    ensures OnGrid(m, mark) && Scaled(cfg, size, mark) <= Scaled(cfg, size, px) ==> mark <= Round(m, px)
    ensures OnGrid(m, mark) && Scaled(cfg, size, mark) >= Scaled(cfg, size, px) ==> mark >= Round(m, px)
    ensures mark <= Round(m, px) ==> Scaled(cfg, size, mark - HalfUlp(m)) <= Scaled(cfg, size, px)
    ensures mark >= Round(m, px) ==> Scaled(cfg, size, mark + HalfUlp(m)) >= Scaled(cfg, size, px)
  {
    hide Round, OnGrid, HalfUlp, Denominator, Scaled;
    RoundNear(m, px);
    ScaledOrder(cfg, size, mark, px);
    ScaledOrder(cfg, size, px, mark);
    ScaledOrder(cfg, size, mark - HalfUlp(m), px);
    ScaledOrder(cfg, size, px, mark + HalfUlp(m));
    ScaledOrder(cfg, size, mark - -HalfUlp(m), px);
    ScaledOrder(cfg, size, px, mark + -HalfUlp(m));
    if OnGrid(m, mark) {
      RoundFixesGrid(m, mark);
      if mark <= px {
        RoundMonotone(m, mark, px);
      }
      if px <= mark {
        RoundMonotone(m, px, mark);
      }
    }
  }

  lemma ExactRound(m: Rounding, x: real)
    ensures m.Exact? ==> Round(m, x) == x && HalfUlp(m) == 0.0
  {
  }

  lemma PositiveProduct(x: real, y: real)
    requires x > 0.0 && y > 0.0
    ensures x * y > 0.0
  {
  }

  lemma ShortNumerator(a: Account, wallet: real)
    ensures a.size < 0.0 && wallet >= 0.0 && a.avgEntry >= 0.0 ==>
              (Numerator(a, wallet) > 0.0 <==> wallet > 0.0 || a.avgEntry > 0.0)
  {
    if a.size < 0.0 && a.avgEntry > 0.0 {
      PositiveProduct(-a.size, a.avgEntry);
    }
  }

  /** The exception is real: a short far under water that the model never closes. */
  lemma UnderwaterShortNeverFires(m: Rounding)
    ensures var cfg, a := LiquidationConfig(10.0, 0.0, 0), Account(-1.0, 100.0, 0.0, 0.0, 0.0);
            Underwater(-200.0, a, 50.0, cfg.maintMarginRate) && !Fires(m, cfg, a, 50.0, -200.0)
  {
    var a := Account(-1.0, 100.0, 0.0, 0.0, 0.0);
    assert (50.0 - a.avgEntry) * a.size == 50.0;
  }

  /** Nor does it take a negative wallet: one sale at a price that rounds to zero opens a short at entry
      zero, and with nothing in the wallet that short is never closed, at whatever mark. */
  lemma EmptyWalletShortNeverFires(cfg: LiquidationConfig, mark: real, id: QuoteId, ts: nat)
    requires Margined(cfg) && mark > 0.0
    ensures var sale := Fill(id, 0.000000001, 1.0, "USDT", 0.0, Ask, ts, true, ts);
            var a := AppliedAll(Dp8, FLAT, [sale]);
            && a == Account(-1.0, 0.0, 0.0, 0.0, 0.0)
            && Underwater(0.0, a, mark, cfg.maintMarginRate) && !Fires(Dp8, cfg, a, mark, 0.0)
  {
    var sale := Fill(id, 0.000000001, 1.0, "USDT", 0.0, Ask, ts, true, ts);
    var a := Account(-1.0, 0.0, 0.0, 0.0, 0.0);
    assert HalfEven(0.1) == 0 && HalfEven(-100000000.0) == -100000000 && HalfEven(0.0) == 0;
    assert Applied(Dp8, FLAT, sale) == a;
    assert [sale][..0] == [];
    assert AppliedAll(Dp8, FLAT, [sale]) == a;
    MulMonotone(0.0, cfg.maintMarginRate, mark);
    assert Abs(a.size) * mark * cfg.maintMarginRate == cfg.maintMarginRate * mark;
  }

  /** The wallet once the account has taken the close. */
  function WalletAfter(m: Rounding, a: Account, f: Fill, wallet: real): real {
    var a' := Applied(m, a, f);
    wallet + (a'.realized - a.realized) - (a'.fees - a.fees)
  }

  /** Applying the close leaves the account flat and the wallet holding exactly the maintenance margin
      of the closed position, less the fee, up to the rounding of the price and of the gain. */
  lemma CloseLeavesMaintenanceMargin(m: Rounding, cfg: LiquidationConfig, a: Account, mark: real,
                                     wallet: real, feeAsset: string, id: QuoteId, ts: nat)
    requires Margined(cfg) && OnBooks(m, a) && Fires(m, cfg, a, mark, wallet)
    ensures var liq := LiqPrice(m, cfg, a.size, a.avgEntry, wallet).value;
            var f := CloseFill(m, cfg, a.size, liq, feeAsset, id, ts);
            var a' := Applied(m, a, f);
            && a'.size == 0.0 && a'.avgEntry == 0.0
            && Abs(WalletAfter(m, a, f, wallet) - (MaintenanceMargin(cfg, a.size, liq) - f.fee))
               <= PriceTolerance(m, cfg, a.size) + HalfUlp(m)
  {
    hide Round, OnGrid, HalfUlp, RawLiqPrice, Denominator, Numerator, Applied, Gain, Bps, Notional, MaintenanceMargin,
      Slippage, Scaled, PriceTolerance;
    FiresOnPosition(m, cfg, a, mark, wallet);
    RawPriceSolves(cfg, a, wallet);
    var px := RawLiqPrice(cfg, a.size, a.avgEntry, wallet).value;
    var liq, d := Round(m, px), Denominator(cfg, a.size);
    var f := CloseFill(m, cfg, a.size, liq, feeAsset, id, ts);
    RoundNear(m, px);
    RoundFixesGrid(m, liq);
    CloseDelta(m, a, f);
    AppliedOnBooks(m, a, f);
    var gain := Gain(a.size, a.avgEntry, liq);
    RoundNear(m, gain);
    RoundNear(m, Bps(Notional(m, liq, Abs(a.size)), cfg.closeFeeBps));
    RoundFixesGrid(m, f.fee);
    GainAtPrice(cfg, a, wallet, px, liq);
    SlippageSmall(m, cfg, a.size, px);
  }

  /** What rounding the price of the close moves. */
  function Slippage(cfg: LiquidationConfig, size: real, px: real, liq: real): real {
    (if size > 0.0 then liq - px else px - liq) * Denominator(cfg, size)
  }

  /** Half a unit of price, on the whole position. */
  function PriceTolerance(m: Rounding, cfg: LiquidationConfig, size: real): real {
    HalfUlp(m) * Denominator(cfg, size)
  }

  lemma FiresOnPosition(m: Rounding, cfg: LiquidationConfig, a: Account, mark: real, wallet: real)
    requires Fires(m, cfg, a, mark, wallet)
    ensures a.size != 0.0
  {
    hide Round;
  }

  /** The closing fill's signed size is exactly minus the position. */
  lemma CloseDelta(m: Rounding, a: Account, f: Fill)
    requires OnBooks(m, a) && a.size != 0.0
    requires f.size == Abs(a.size) && f.side == if a.size > 0.0 then Ask else Bid
    ensures Delta(m, f) == -a.size && Closes(m, a, f)
  {
    hide Round, OnGrid;
    GridSum(m, a.size, a.size);
    RoundFixesGrid(m, -a.size);
  }

  lemma SlippageSmall(m: Rounding, cfg: LiquidationConfig, size: real, px: real)
    requires Denominator(cfg, size) > 0.0
    ensures Abs(Slippage(cfg, size, px, Round(m, px))) <= PriceTolerance(m, cfg, size)
  {
    hide Round, HalfUlp, Denominator;
    var liq := Round(m, px);
    RoundNear(m, px);
    ScaledError(if size > 0.0 then liq - px else px - liq, Denominator(cfg, size), HalfUlp(m));
  }

  lemma GainAtPrice(cfg: LiquidationConfig, a: Account, wallet: real, px: real, liq: real)
    requires a.size != 0.0 && Scaled(cfg, a.size, px) == Numerator(a, wallet)
    ensures wallet + Gain(a.size, a.avgEntry, liq)
            == MaintenanceMargin(cfg, a.size, liq) + Slippage(cfg, a.size, px, liq)
  {
    var s, mmr, d := Abs(a.size), cfg.maintMarginRate, Denominator(cfg, a.size);
    assert Gain(a.size, a.avgEntry, liq) == a.size * liq - a.avgEntry * a.size;
    assert liq * d == liq * s - s * liq * mmr || liq * d == liq * s + s * liq * mmr by {
      if a.size > 0.0 {
        assert liq * (s * (1.0 - mmr)) == liq * s - s * liq * mmr;
      } else {
        assert liq * (s * (1.0 + mmr)) == liq * s + s * liq * mmr;
      }
    }
    assert (liq - px) * d == liq * d - px * d;
    assert (px - liq) * d == px * d - liq * d;
  }

  /** In exact arithmetic the account stays solvent through its own liquidation exactly when the
      closing fee rate does not exceed the maintenance margin rate. */
  lemma CloseSolvent(cfg: LiquidationConfig, a: Account, mark: real, wallet: real, feeAsset: string,
                     id: QuoteId, ts: nat)
    requires Margined(cfg) && OnBooks(Exact, a) && Fires(Exact, cfg, a, mark, wallet)
    ensures var liq := LiqPrice(Exact, cfg, a.size, a.avgEntry, wallet).value;
            var f := CloseFill(Exact, cfg, a.size, liq, feeAsset, id, ts);
            WalletAfter(Exact, a, f, wallet) >= 0.0 <==> cfg.closeFeeBps as real / 10000.0 <= cfg.maintMarginRate
  {
    hide RawLiqPrice, Denominator, Numerator, Applied, WalletAfter;
    FiresOnPosition(Exact, cfg, a, mark, wallet);
    RawPriceSolves(cfg, a, wallet);
    CloseLeavesMaintenanceMargin(Exact, cfg, a, mark, wallet, feeAsset, id, ts);
    var liq := RawLiqPrice(cfg, a.size, a.avgEntry, wallet).value;
    FeeVersusMargin(Abs(a.size), liq, cfg.maintMarginRate, cfg.closeFeeBps as real);
  }

  /** Such a close exists: a long of 1 at 100 with 0.4 in the wallet is closed at 100, where 0.4 is its
      maintenance margin at 0.4%, and the fee of half a percent takes the wallet to -0.1. */
  lemma InsolventClose(m: Rounding, id: QuoteId, ts: nat)
    ensures var cfg, a := LiquidationConfig(10.0, 0.004, 50), Account(1.0, 100.0, 0.0, 0.0, 0.0);
            var f := CloseFill(m, cfg, 1.0, 100.0, "USDT", id, ts);
            && Margined(cfg) && OnBooks(m, a) && Fires(m, cfg, a, 100.0, 0.4)
            && LiqPrice(m, cfg, a.size, a.avgEntry, 0.4) == Some(100.0)
            && WalletAfter(m, a, f, 0.4) == -0.1
  {
    var cfg, a := LiquidationConfig(10.0, 0.004, 50), Account(1.0, 100.0, 0.0, 0.0, 0.0);
    var f := CloseFill(m, cfg, 1.0, 100.0, "USDT", id, ts);
    assert HalfEven(10000000000.0) == 10000000000 && HalfEven(50000000.0) == 50000000;
    assert HalfEven(100000000.0) == 100000000 && HalfEven(0.0) == 0 && HalfEven(-100000000.0) == -100000000;
    assert RawLiqPrice(cfg, 1.0, 100.0, 0.4) == Some(100.0);
    assert f.fee == 0.5;
    assert Applied(m, a, f).fees == 0.5;
  }

  lemma FeeVersusMargin(s: real, liq: real, mmr: real, bps: real)
    requires s > 0.0 && liq > 0.0
    ensures s * liq * mmr - liq * s * bps / 10000.0 >= 0.0 <==> bps / 10000.0 <= mmr
  {
    var k := s * liq;
    PositiveProduct(s, liq);
    assert s * liq * mmr == mmr * k && liq * s * bps / 10000.0 == bps / 10000.0 * k;
    CompareScaled(bps / 10000.0, mmr, k);
  }
}
