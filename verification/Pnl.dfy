/** Weighted-average-cost position accounting, and the plain cash-flow ledger it must agree with. */
module Pnl {
  import opened Decimals
  import opened Core

  /** The accounting state of one symbol. */
  datatype Account = Account(size: real, avgEntry: real, realized: real, fees: real, funding: real)

  const FLAT := Account(0.0, 0.0, 0.0, 0.0, 0.0)

  datatype PnLReport = PnLReport(realized: real, unrealized: real, fees: real, funding: real, net: real)

  function Sign(d: real): real {
    if d == 0.0 then 0.0 else if d < 0.0 then -1.0 else 1.0
  }

  function SideDelta(side: Side, size: real): real {
    if side.Bid? then size else -size
  }

  /** The signed position change of a fill, on the grid. */
  function Delta(m: Rounding, f: Fill): real {
    Round(m, SideDelta(f.side, f.size))
  }

  /** The size-weighted mean entry price after adding `d` at `fp`. */
  function Wacc(cur: real, entry: real, d: real, fp: real): real {
    if cur + d == 0.0 then 0.0 else (cur * entry + d * fp) / (cur + d)
  }

  /** Profit on closing the signed amount `closed`. */
  function Gain(closed: real, entry: real, exit: real): real {
    closed * (exit - entry)
  }

  /** The same mean, computed from unsigned sizes. */
  function UnsignedWacc(cur: real, entry: real, delta: real, fp: real, size: real): real {
    if size == 0.0 then 0.0 else (Abs(cur) * entry + Abs(delta) * fp) / Abs(size)
  }

  /** The same profit, computed from an unsigned closed size and the position's sign. */
  function UnsignedGain(closed: real, entry: real, exit: real, sign: real): real {
    closed * (exit - entry) * sign
  }

  /** What a fill does to the account, in signed quantities: an opposite fill closes the signed
      amount `closed` of the old position. */
  function Applied(m: Rounding, a: Account, f: Fill): Account {
    var d := Delta(m, f);
    var a' := a.(fees := Round(m, a.fees + Round(m, f.fee)));
    var cur, entry, fp := Round(m, a.size), Round(m, a.avgEntry), Round(m, f.price);
    var size := Round(m, cur + d);
    if d == 0.0 then a'
    else if cur == 0.0 then a'.(size := size, avgEntry := fp)
    else if (cur > 0.0) == (d > 0.0) then
      a'.(size := size, avgEntry := Round(m, Wacc(cur, entry, d, fp)))
    else
      var flips := Abs(d) > Abs(cur);
      var closed := if flips then cur else -d;
      a'.(size := size,
          realized := Round(m, a.realized + Round(m, Gain(closed, entry, fp))),
          avgEntry := if flips then fp else if size == 0.0 then 0.0 else a.avgEntry)
  }

  function AppliedAll(m: Rounding, a: Account, fills: seq<Fill>): Account
    decreases |fills|
  {
    if fills == [] then a
    else Applied(m, AppliedAll(m, a, fills[..|fills| - 1]), fills[|fills| - 1])
  }

  function Report(m: Rounding, a: Account, lastMid: real): PnLReport {
    var unrealized := Round(m, Gain(a.size, a.avgEntry, lastMid));
    PnLReport(a.realized, unrealized, a.fees, a.funding,
              a.realized + unrealized - a.fees + a.funding)
  }

  /** Every stored number is a multiple of 10^-8, and a flat account has no entry price. */
  predicate OnBooks(m: Rounding, a: Account) {
    && OnGrid(m, a.size) && OnGrid(m, a.avgEntry) && OnGrid(m, a.realized) && OnGrid(m, a.fees)
    && (a.size == 0.0 ==> a.avgEntry == 0.0)
  }

  /** Same sign as the position, so the fill adds to it. */
  predicate Adds(m: Rounding, a: Account, f: Fill) {
    var d := Delta(m, f);
    a.size != 0.0 && d != 0.0 && (a.size > 0.0) == (d > 0.0)
  }

  predicate Opens(m: Rounding, a: Account, f: Fill) {
    a.size == 0.0 && Delta(m, f) != 0.0
  }

  /** Opposite sign: the fill reduces the position, closes it or flips it. */
  predicate Closes(m: Rounding, a: Account, f: Fill) {
    var d := Delta(m, f);
    a.size != 0.0 && d != 0.0 && (a.size > 0.0) != (d > 0.0)
  }

  // ---------------------------------------------------------------------------------------------
  // The tracker

  class PositionTracker {
    const mode: Rounding
    var size: real
    var avgEntry: real
    var realizedPnl: real
    var feesPaid: real
    var fundingAccrued: real

    function View(): Account
      reads this
    {
      Account(size, avgEntry, realizedPnl, feesPaid, fundingAccrued)
    }

    constructor (mode: Rounding)
      ensures View() == FLAT && this.mode == mode
    {
      this.mode := mode;
      size, avgEntry, realizedPnl, feesPaid, fundingAccrued := 0.0, 0.0, 0.0, 0.0, 0.0;
    }

    constructor FromSnapshot(mode: Rounding, a: Account)
      ensures View() == a && this.mode == mode
    {
      this.mode := mode;
      size, avgEntry, realizedPnl, feesPaid, fundingAccrued :=
        a.size, a.avgEntry, a.realized, a.fees, a.funding;
    }

    method AccrueFunding(amount: real)
      modifies this`fundingAccrued
      ensures fundingAccrued == old(fundingAccrued) + amount
    {
      fundingAccrued := fundingAccrued + amount;
    }

    /** The four cases of weighted-average cost: open, add, reduce, flip. */
    method Apply(fill: Fill)
      modifies this
      ensures View() == Applied(mode, old(View()), fill)
    {
      hide Round, OnGrid, Wacc, Gain, UnsignedWacc, UnsignedGain;
      var delta := Round(mode, SideDelta(fill.side, fill.size));
      feesPaid := Round(mode, feesPaid + Round(mode, fill.fee));
      if delta == 0.0 {
        return;
      }
      var cur := Round(mode, size);
      var entry := Round(mode, avgEntry);
      var fp := Round(mode, fill.price);
      var newSize := Round(mode, cur + delta);
      RoundNear(mode, size);
      RoundNear(mode, SideDelta(fill.side, fill.size));
      RoundGridSum(mode, cur, delta);
      if cur == 0.0 {
        size, avgEntry := newSize, fp;
        return;
      }
      var curSign, deltaSign := Sign(cur), Sign(delta);
      if curSign == deltaSign {
        WaccSigns(cur, delta, entry, fp);
        avgEntry := Round(mode, UnsignedWacc(cur, entry, delta, fp, newSize));
        size := newSize;
        return;
      }
      var newSign := Sign(newSize);
      if newSize == 0.0 || newSign == curSign {
        var closed := Abs(delta);
        SignedClose(closed, curSign, entry, fp, -delta);
        realizedPnl := Round(mode, realizedPnl + Round(mode, UnsignedGain(closed, entry, fp, curSign)));
        size := newSize;
        if newSize == 0.0 {
          avgEntry := 0.0;
        }
      } else {
        var closed := Abs(cur);
        SignedClose(closed, curSign, entry, fp, cur);
        realizedPnl := Round(mode, realizedPnl + Round(mode, UnsignedGain(closed, entry, fp, curSign)));
        size, avgEntry := newSize, fp;
      }
    }

    method ForceReconcile(newSize: real, newAvg: real) returns (prevSize: real, prevAvg: real)
      modifies this`size, this`avgEntry
      ensures (prevSize, prevAvg) == (old(size), old(avgEntry))
      ensures View() == old(View()).(size := newSize, avgEntry := newAvg)
    {
      prevSize, prevAvg := size, avgEntry;
      size, avgEntry := newSize, newAvg;
    }
  }

  lemma WaccSigns(cur: real, delta: real, entry: real, fp: real)
    requires cur != 0.0 && delta != 0.0 && (cur > 0.0) == (delta > 0.0)
    ensures UnsignedWacc(cur, entry, delta, fp, cur + delta) == Wacc(cur, entry, delta, fp)
  {
    var n, d := cur * entry + delta * fp, cur + delta;
    if cur < 0.0 {
      assert Abs(cur) * entry + Abs(delta) * fp == -n && Abs(cur + delta) == -d;
      assert (-n) / (-d) == n / d;
    } else {
      assert Abs(cur) * entry + Abs(delta) * fp == n && Abs(cur + delta) == d;
    }
  }

  lemma SignedClose(closed: real, sign: real, entry: real, fp: real, signed: real)
    requires signed == closed * sign
    ensures UnsignedGain(closed, entry, fp, sign) == Gain(signed, entry, fp)
  {
  }

  // ---------------------------------------------------------------------------------------------
  // The cash-flow ledger

  /** Realised profit less the cost of what is still held. */
  function NetCash(a: Account): real {
    a.realized - a.size * a.avgEntry
  }

  /** The money one fill moves: out (negative) for a buy, in for a sell. */
  function Flow(m: Rounding, f: Fill): real {
    -Delta(m, f) * Round(m, f.price)
  }

  function CashFlow(m: Rounding, fills: seq<Fill>): real {
    if fills == [] then 0.0
    else CashFlow(m, fills[..|fills| - 1]) + Flow(m, fills[|fills| - 1])
  }

  /** How many half-units one fill can cost: the new size for an add, one for a close. */
  function Slip(m: Rounding, a: Account, f: Fill): (r: real)
    ensures r >= 0.0
  {
    if Adds(m, a, f) then Abs(a.size + Delta(m, f)) else if Closes(m, a, f) then 1.0 else 0.0
  }

  function Tolerance(m: Rounding, a: Account, f: Fill): real {
    HalfUlp(m) * Slip(m, a, f)
  }

  function TotalTolerance(m: Rounding, a: Account, fills: seq<Fill>): real
    decreases |fills|
  {
    if fills == [] then 0.0
    else
      var before := fills[..|fills| - 1];
      TotalTolerance(m, a, before) + Tolerance(m, AppliedAll(m, a, before), fills[|fills| - 1])
  }

  function TotalSlip(m: Rounding, a: Account, fills: seq<Fill>): real
    decreases |fills|
  {
    if fills == [] then 0.0
    else
      var before := fills[..|fills| - 1];
      TotalSlip(m, a, before) + Slip(m, AppliedAll(m, a, before), fills[|fills| - 1])
  }

  /** On the grid every sum in `Applied` is exact; only the mean price and the gain are rounded. */
  lemma AppliedOnBooks(m: Rounding, a: Account, f: Fill)
    requires OnBooks(m, a)
    ensures var d, fp, a' := Delta(m, f), Round(m, f.price), Applied(m, a, f);
            && OnBooks(m, a')
            && a'.size == a.size + d
            && a'.fees == a.fees + Round(m, f.fee)
            && (!Closes(m, a, f) ==> a'.realized == a.realized)
            && (Opens(m, a, f) ==> a'.avgEntry == fp)
            && (Adds(m, a, f) ==> a'.avgEntry == Round(m, Wacc(a.size, a.avgEntry, d, fp)))
            && (Closes(m, a, f) && Abs(d) > Abs(a.size) ==>
                  a'.avgEntry == fp && a'.realized == a.realized + Round(m, Gain(a.size, a.avgEntry, fp)))
            && (Closes(m, a, f) && Abs(d) <= Abs(a.size) ==>
                  && a'.avgEntry == (if a'.size == 0.0 then 0.0 else a.avgEntry)
                  && a'.realized == a.realized + Round(m, Gain(-d, a.avgEntry, fp)))
            && (d == 0.0 ==> a'.avgEntry == a.avgEntry)
  {
    hide Round, OnGrid, HalfUlp, Wacc, Gain;
    var d, fp := Delta(m, f), Round(m, f.price);
    RoundNear(m, SideDelta(f.side, f.size));
    RoundNear(m, f.price);
    RoundNear(m, f.fee);
    RoundNear(m, Wacc(a.size, a.avgEntry, d, fp));
    RoundGridSum(m, a.fees, Round(m, f.fee));
    RoundGridSum(m, a.size, d);
    RoundFixesGrid(m, a.size);
    RoundFixesGrid(m, a.avgEntry);
    RoundZero(m);
    var gain := Gain(if Abs(d) > Abs(a.size) then a.size else -d, a.avgEntry, fp);
    RoundNear(m, gain);
    RoundGridSum(m, a.realized, Round(m, gain));
  }

  /** One fill: the ledger moves by the cash flow up to the slip. */
  lemma LedgerStep(m: Rounding, a: Account, f: Fill)
    requires OnBooks(m, a)
    ensures Abs(NetCash(Applied(m, a, f)) - NetCash(a) - Flow(m, f)) <= Tolerance(m, a, f)
  {
    hide Round, OnGrid, HalfUlp, Wacc, Gain, Applied, Delta, NetCash, Flow, Tolerance;
    AppliedOnBooks(m, a, f);
    var d, fp, a' := Delta(m, f), Round(m, f.price), Applied(m, a, f);
    if Adds(m, a, f) {
      RoundNear(m, Wacc(a.size, a.avgEntry, d, fp));
      AddArithmetic(m, a, a', f);
    } else if Closes(m, a, f) {
      var flips := Abs(d) > Abs(a.size);
      var gain := Gain(if flips then a.size else -d, a.avgEntry, fp);
      RoundNear(m, gain);
      CloseArithmetic(m, a, a', f, gain, flips);
    } else {
      OpenArithmetic(m, a, a', f);
    }
  }

  lemma AddArithmetic(m: Rounding, a: Account, a': Account, f: Fill)
    requires Adds(m, a, f) && a'.size == a.size + Delta(m, f) && a'.realized == a.realized
    requires Abs(a'.avgEntry - Wacc(a.size, a.avgEntry, Delta(m, f), Round(m, f.price))) <= HalfUlp(m)
    ensures Abs(NetCash(a') - NetCash(a) - Flow(m, f)) <= Tolerance(m, a, f)
  {
    hide Round, HalfUlp, Delta, Wacc;
    var d, fp := Delta(m, f), Round(m, f.price);
    var mean := Wacc(a.size, a.avgEntry, d, fp);
    AddProducts(a.size, a.avgEntry, d, fp, a'.avgEntry, a'.size);
    ScaledError(mean - a'.avgEntry, a'.size, HalfUlp(m));
  }

  lemma ScaledError(x: real, y: real, eps: real)
    requires Abs(x) <= eps
    ensures Abs(x * y) <= eps * Abs(y)
  {
    AbsMul(x, y);
    MulMonotone(Abs(x), eps, Abs(y));
  }

  lemma AddProducts(size: real, entry: real, d: real, fp: real, avg: real, size': real)
    requires size' == size + d && size' != 0.0
    ensures size * entry + d * fp - size' * avg == (Wacc(size, entry, d, fp) - avg) * size'
  {
    var mean := Wacc(size, entry, d, fp);
    assert mean * size' == size * entry + d * fp;
    assert (mean - avg) * size' == mean * size' - avg * size';
  }

  lemma CloseArithmetic(m: Rounding, a: Account, a': Account, f: Fill, gain: real, flips: bool)
    requires Closes(m, a, f) && a'.size == a.size + Delta(m, f)
    requires Abs(a'.realized - a.realized - gain) <= HalfUlp(m)
    requires gain == Gain(if flips then a.size else -Delta(m, f), a.avgEntry, Round(m, f.price))
    requires flips ==> a'.avgEntry == Round(m, f.price)
    requires !flips ==> a'.avgEntry == if a'.size == 0.0 then 0.0 else a.avgEntry
    ensures Abs(NetCash(a') - NetCash(a) - Flow(m, f)) <= Tolerance(m, a, f)
  {
    hide Round, HalfUlp, Delta;
    var d, fp := Delta(m, f), Round(m, f.price);
    CloseProducts(a.size, a.avgEntry, d, fp, a'.avgEntry, flips);
    assert NetCash(a') - NetCash(a) - Flow(m, f) == a'.realized - a.realized - gain;
  }

  lemma CloseProducts(size: real, entry: real, d: real, fp: real, entry': real, flips: bool)
    requires flips ==> entry' == fp
    requires !flips ==> entry' == if size + d == 0.0 then 0.0 else entry
    ensures (size + d) * entry' - size * entry - d * fp == Gain(if flips then size else -d, entry, fp)
  {
    if flips {
      assert (size + d) * fp == size * fp + d * fp;
    } else {
      assert (size + d) * entry' == (size + d) * entry == size * entry + d * entry;
    }
  }

  lemma OpenArithmetic(m: Rounding, a: Account, a': Account, f: Fill)
    requires a'.size == a.size + Delta(m, f) && a'.realized == a.realized
    requires Opens(m, a, f) ==> a'.avgEntry == Round(m, f.price)
    requires Delta(m, f) == 0.0 ==> a'.avgEntry == a.avgEntry
    requires !Adds(m, a, f) && !Closes(m, a, f)
    ensures Abs(NetCash(a') - NetCash(a) - Flow(m, f)) <= Tolerance(m, a, f)
  {
    hide Round, HalfUlp, Delta;
  }

  /** The ledger bound, with the half-units of each fill added up one by one. */
  lemma {:induction false} LedgerFold(m: Rounding, a: Account, fills: seq<Fill>)
    requires OnBooks(m, a)
    ensures OnBooks(m, AppliedAll(m, a, fills))
    ensures Abs(NetCash(AppliedAll(m, a, fills)) - NetCash(a) - CashFlow(m, fills))
            <= TotalTolerance(m, a, fills)
    decreases |fills|
  {
    hide Round, OnGrid, HalfUlp, Applied, NetCash, Flow, Tolerance, Slip;
    if fills != [] {
      var before, last := fills[..|fills| - 1], fills[|fills| - 1];
      LedgerFold(m, a, before);
      AppliedOnBooks(m, AppliedAll(m, a, before), last);
      LedgerStep(m, AppliedAll(m, a, before), last);
    }
  }

  lemma {:induction false} ToleranceIsScaled(m: Rounding, a: Account, fills: seq<Fill>)
    ensures TotalTolerance(m, a, fills) == HalfUlp(m) * TotalSlip(m, a, fills)
    decreases |fills|
  {
    hide HalfUlp, Applied, Slip;
    if fills != [] {
      var before, last := fills[..|fills| - 1], fills[|fills| - 1];
      ToleranceIsScaled(m, a, before);
      Distribute(HalfUlp(m), TotalSlip(m, a, before), Slip(m, AppliedAll(m, a, before), last));
    }
  }

  /** Weighted-average cost agrees with the cash-flow ledger over every fill sequence: up to half a
      unit per close and half a unit per unit of size after each add, and exactly when rounding is
      the identity. */
  lemma LedgerAgrees(m: Rounding, a: Account, fills: seq<Fill>)
    requires OnBooks(m, a)
    ensures Abs(NetCash(AppliedAll(m, a, fills)) - NetCash(a) - CashFlow(m, fills))
            <= HalfUlp(m) * TotalSlip(m, a, fills)
    ensures m.Exact? ==> NetCash(AppliedAll(m, a, fills)) == NetCash(a) + CashFlow(m, fills)
  {
    hide Round, OnGrid, Applied, NetCash, Flow, Tolerance, Slip;
    LedgerFold(m, a, fills);
    ToleranceIsScaled(m, a, fills);
  }

  // ---------------------------------------------------------------------------------------------
  // The average entry price

  /** The rounded prices of the opening and adding fills since the account was last flat or last
      flipped, starting flat. */
  function EntryPrices(m: Rounding, fills: seq<Fill>): seq<real> {
    if fills == [] then []
    else
      var before, f := fills[..|fills| - 1], fills[|fills| - 1];
      var a, d, fp := AppliedAll(m, FLAT, before), Delta(m, f), Round(m, f.price);
      if Opens(m, a, f) then [fp]
      else if Adds(m, a, f) then EntryPrices(m, before) + [fp]
      else if Closes(m, a, f) && Abs(d) > Abs(a.size) then [fp]
      else if Closes(m, a, f) && Abs(d) == Abs(a.size) then []
      else EntryPrices(m, before)
  }

  predicate Between(prices: seq<real>, x: real) {
    exists i, j :: 0 <= i < |prices| && 0 <= j < |prices| && prices[i] <= x <= prices[j]
  }

  lemma FlatOnBooks(m: Rounding)
    ensures OnBooks(m, FLAT)
  {
    RoundZero(m);
  }

  /** The entry price of an open position lies between two of the prices that built it, whatever the
      rounding of the adds did. */
  lemma {:induction false} EntryInRange(m: Rounding, fills: seq<Fill>)
    ensures var a := AppliedAll(m, FLAT, fills);
            && OnBooks(m, a)
            && (a.size == 0.0 <==> EntryPrices(m, fills) == [])
            && (a.size != 0.0 ==> Between(EntryPrices(m, fills), a.avgEntry))
    ensures forall p :: p in EntryPrices(m, fills) ==> OnGrid(m, p) && exists f :: f in fills && p == Round(m, f.price)
    decreases |fills|
  {
    hide Round, OnGrid, Applied, Wacc;
    if fills == [] {
      FlatOnBooks(m);
    } else {
      var before, f := fills[..|fills| - 1], fills[|fills| - 1];
      var a, fp := AppliedAll(m, FLAT, before), Round(m, f.price);
      EntryInRange(m, before);
      AppliedOnBooks(m, a, f);
      RoundNear(m, f.price);
      assert f in fills && forall g :: g in before ==> g in fills;
      var old_, new_, a' := EntryPrices(m, before), EntryPrices(m, fills), Applied(m, a, f);
      if Adds(m, a, f) {
        var i, j :| 0 <= i < |old_| && 0 <= j < |old_| && old_[i] <= a.avgEntry <= old_[j];
        AddStaysBetween(m, a, f, old_[i], old_[j]);
        assert new_[i] == old_[i] && new_[j] == old_[j] && new_[|old_|] == fp;
      } else if Opens(m, a, f) || (Closes(m, a, f) && Abs(Delta(m, f)) > Abs(a.size)) {
        assert new_[0] == fp;
      }
    }
  }

  lemma AddStaysBetween(m: Rounding, a: Account, f: Fill, lo: real, hi: real)
    requires Adds(m, a, f) && lo <= a.avgEntry <= hi && OnGrid(m, lo) && OnGrid(m, hi)
    ensures var avg, fp := Round(m, Wacc(a.size, a.avgEntry, Delta(m, f), Round(m, f.price))), Round(m, f.price);
            Min(lo, fp) <= avg <= Max(hi, fp)
  {
    hide Round, OnGrid, Wacc, Delta;
    var d, fp := Delta(m, f), Round(m, f.price);
    var mean := Wacc(a.size, a.avgEntry, d, fp);
    MeanBetween(a.size, a.avgEntry, d, fp);
    RoundNear(m, f.price);
    RoundFixesGrid(m, Min(lo, fp));
    RoundFixesGrid(m, Max(hi, fp));
    RoundMonotone(m, Min(lo, fp), mean);
    RoundMonotone(m, mean, Max(hi, fp));
  }

  lemma MeanBetween(cur: real, entry: real, d: real, fp: real)
    requires cur != 0.0 && d != 0.0 && (cur > 0.0) == (d > 0.0)
    ensures Min(entry, fp) <= Wacc(cur, entry, d, fp) <= Max(entry, fp)
  {
    var n, w := cur * entry + d * fp, cur + d;
    if cur > 0.0 {
      PositiveMean(cur, entry, d, fp);
      DivBetween(n, w, Min(entry, fp), Max(entry, fp));
    } else {
      PositiveMean(-cur, entry, -d, fp);
      NegatedSum(cur, entry, d, fp);
      DivBetween(-n, -w, Min(entry, fp), Max(entry, fp));
      assert (-n) / (-w) == n / w;
    }
  }

  lemma NegatedSum(cur: real, entry: real, d: real, fp: real)
    ensures (-cur) * entry + (-d) * fp == -(cur * entry + d * fp) && (-cur) + (-d) == -(cur + d)
  {
  }

  lemma PositiveMean(u: real, x: real, v: real, y: real)
    requires u > 0.0 && v > 0.0
    ensures Min(x, y) * (u + v) <= u * x + v * y <= Max(x, y) * (u + v)
  {
    var lo, hi := Min(x, y), Max(x, y);
    MulMonotone(lo, x, u);
    MulMonotone(lo, y, v);
    MulMonotone(x, hi, u);
    MulMonotone(y, hi, v);
  }

  lemma DivBetween(n: real, w: real, lo: real, hi: real)
    requires w > 0.0 && lo * w <= n <= hi * w
    ensures lo <= n / w <= hi
  {
  }

  /** With prices that survive rounding, the entry price is zero exactly when the account is flat. */
  lemma ZeroEntryIffFlat(m: Rounding, fills: seq<Fill>)
    requires forall f :: f in fills ==> Round(m, f.price) > 0.0
    ensures AppliedAll(m, FLAT, fills).avgEntry == 0.0 <==> AppliedAll(m, FLAT, fills).size == 0.0
  {
    hide Round, OnGrid, Applied;
    EntryInRange(m, fills);
    var a, prices := AppliedAll(m, FLAT, fills), EntryPrices(m, fills);
    if a.size != 0.0 {
      var i, j :| 0 <= i < |prices| && 0 <= j < |prices| && prices[i] <= a.avgEntry <= prices[j];
      assert prices[i] in prices;
    }
  }

  /** An open position's entry is positive if all prices that built it are, and zero if all are zero. */
  lemma EntrySignOfPrices(m: Rounding, fills: seq<Fill>)
    requires AppliedAll(m, FLAT, fills).size != 0.0
    ensures (forall p :: p in EntryPrices(m, fills) ==> p > 0.0) ==> AppliedAll(m, FLAT, fills).avgEntry > 0.0
    ensures (forall p :: p in EntryPrices(m, fills) ==> p == 0.0) ==> AppliedAll(m, FLAT, fills).avgEntry == 0.0
  {
    hide AppliedAll, EntryPrices, OnBooks, Round;
    EntryInRange(m, fills);
    var prices, a := EntryPrices(m, fills), AppliedAll(m, FLAT, fills);
    var i, j :| 0 <= i < |prices| && 0 <= j < |prices| && prices[i] <= a.avgEntry <= prices[j];
    assert prices[i] in prices && prices[j] in prices;
  }

  /** It is not so for every positive price: an opening fill leaves a zero entry price under an open
      position exactly when its price rounds to zero, and 10^-9 does. */
  lemma OpeningEntryZero(m: Rounding, f: Fill)
    requires Delta(m, f) != 0.0
    ensures var a := Applied(m, FLAT, f);
            a.size != 0.0 && (a.avgEntry == 0.0 <==> Round(m, f.price) == 0.0)
    ensures Round(Dp8, 0.000000001) == 0.0
  {
    hide OnGrid, Wacc, Gain;
    FlatOnBooks(m);
    AppliedOnBooks(m, FLAT, f);
    assert HalfEven(0.1) == 0;
  }

  // ---------------------------------------------------------------------------------------------
  // Resuming, funding and forced reconciliation

  /** A tracker restored from a snapshot taken after some fills ends, after the rest, where one that saw
      them all without a break ends. */
  lemma {:induction false} ResumeContinues(m: Rounding, a: Account, before: seq<Fill>, after: seq<Fill>)
    ensures AppliedAll(m, AppliedAll(m, a, before), after) == AppliedAll(m, a, before + after)
    decreases |after|
  {
    hide Applied;
    if after == [] {
      assert before + after == before;
    } else {
      var init := after[..|after| - 1];
      assert (before + after)[..|before + after| - 1] == before + init;
      ResumeContinues(m, a, before, init);
    }
  }

  /** Funding goes straight to net profit and into nothing else, whenever it is accrued. */
  lemma {:induction false} FundingStandsApart(m: Rounding, a: Account, amount: real, fills: seq<Fill>, mark: real)
    ensures var paid, unpaid := AppliedAll(m, a.(funding := a.funding + amount), fills), AppliedAll(m, a, fills);
            && paid == unpaid.(funding := unpaid.funding + amount)
            && Report(m, paid, mark).net == Report(m, unpaid, mark).net + amount
    decreases |fills|
  {
    hide Round, Wacc, Gain, Delta;
    if fills != [] {
      FundingStandsApart(m, a, amount, fills[..|fills| - 1], mark);
    }
  }

  /** Same position, on the books. */
  predicate SamePosition(m: Rounding, a: Account, b: Account) {
    OnBooks(m, a) && OnBooks(m, b) && a.size == b.size && a.avgEntry == b.avgEntry
  }

  /** Two accounts with one position keep it, and keep their distance in profit and fees. */
  lemma ApplyAlike(m: Rounding, a: Account, b: Account, f: Fill)
    requires SamePosition(m, a, b)
    ensures var a', b' := Applied(m, a, f), Applied(m, b, f);
            && SamePosition(m, a', b')
            && b'.realized - a'.realized == b.realized - a.realized && b'.fees - a'.fees == b.fees - a.fees
  {
    hide Round, OnGrid, Wacc, Gain, Applied, Delta;
    AppliedOnBooks(m, a, f);
    AppliedOnBooks(m, b, f);
  }

  lemma {:induction false} ApplyAllAlike(m: Rounding, a: Account, b: Account, fills: seq<Fill>)
    requires SamePosition(m, a, b)
    ensures var a', b' := AppliedAll(m, a, fills), AppliedAll(m, b, fills);
            && SamePosition(m, a', b')
            && b'.realized - a'.realized == b.realized - a.realized && b'.fees - a'.fees == b.fees - a.fees
    decreases |fills|
  {
    if fills != [] {
      hide Applied, SamePosition;
      ApplyAllAlike(m, a, b, fills[..|fills| - 1]);
      ApplyAlike(m, AppliedAll(m, a, fills[..|fills| - 1]), AppliedAll(m, b, fills[..|fills| - 1]), fills[|fills| - 1]);
    }
  }

  /** Forcing the position that some lost fills led to: from then on size and entry are those of a tracker
      that saw the lost fills, and what these realized and cost in fees stays missing, no more and no
      less, whatever follows. */
  lemma LostFillsStayLost(m: Rounding, a: Account, lost: seq<Fill>, after: seq<Fill>)
    requires OnBooks(m, a)
    ensures var seen := AppliedAll(m, a, lost);
            var forced := a.(size := seen.size, avgEntry := seen.avgEntry);
            var x, y := AppliedAll(m, forced, after), AppliedAll(m, a, lost + after);
            && x.size == y.size && x.avgEntry == y.avgEntry
            && y.realized - x.realized == seen.realized - a.realized && y.fees - x.fees == seen.fees - a.fees
  {
    hide Applied, OnGrid;
    var seen := AppliedAll(m, a, lost);
    LedgerFold(m, a, lost);
    ResumeContinues(m, a, lost, after);
    ApplyAllAlike(m, a.(size := seen.size, avgEntry := seen.avgEntry), seen, after);
  }
}
