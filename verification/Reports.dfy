/** What the report at the end of a run says, line by line, of any sequence of fills. */
module Reports {
  import opened Decimals
  import opened Core
  import opened Pnl

  /** The fees of the fills, each rounded. */
  function FeeSum(m: Rounding, fills: seq<Fill>): real {
    if fills == [] then 0.0 else FeeSum(m, fills[..|fills| - 1]) + Round(m, fills[|fills| - 1].fee)
  }

  lemma {:induction false} FeesAreSummed(m: Rounding, fills: seq<Fill>)
    ensures var a := AppliedAll(m, FLAT, fills); OnBooks(m, a) && a.fees == FeeSum(m, fills) && a.funding == 0.0
    decreases |fills|
  {
    hide Round, OnGrid, Applied;
    if fills == [] {
      FlatOnBooks(m);
    } else {
      var before, f := fills[..|fills| - 1], fills[|fills| - 1];
      FeesAreSummed(m, before);
      AppliedOnBooks(m, AppliedAll(m, FLAT, before), f);
      SameFunding(m, AppliedAll(m, FLAT, before), f);
    }
  }

  lemma SameFunding(m: Rounding, a: Account, f: Fill)
    ensures Applied(m, a, f).funding == a.funding
  {
    hide Round, Wacc, Gain;
  }

  lemma UnrealizedMoves(m: Rounding, size: real, entry: real, mark: real, other: real)
    ensures Abs(Round(m, Gain(size, entry, mark)) - Round(m, Gain(size, entry, other)) - Times(size, mark - other))
            <= 2.0 * HalfUlp(m)
  {
    hide Round, HalfUlp;
    RoundNear(m, Gain(size, entry, mark));
    RoundNear(m, Gain(size, entry, other));
    assert Gain(size, entry, mark) - Gain(size, entry, other) == size * (mark - other);
  }

  lemma NoGain(m: Rounding, entry: real, mark: real)
    ensures Round(m, Gain(0.0, entry, mark)) == 0.0
  {
    hide Round;
    RoundZero(m);
    assert Gain(0.0, entry, mark) == 0.0;
  }

  lemma NoGainAtEntry(m: Rounding, size: real, entry: real)
    ensures Round(m, Gain(size, entry, entry)) == 0.0
  {
    hide Round;
    RoundZero(m);
    assert Gain(size, entry, entry) == 0.0;
  }

  /** Of the report of any fills, marked anywhere: realized profit, fees and funding do not depend on the
      mark; the fees are those of the fills and the funding is none; marked at the entry nothing is
      unrealized, and two marks differ in unrealized profit by the position times their difference, within
      a unit; and net is realized and unrealized less fees. */
  lemma ReportLines(m: Rounding, fills: seq<Fill>, mark: real, other: real)
    ensures var a := AppliedAll(m, FLAT, fills);
            var r, o, e := Report(m, a, mark), Report(m, a, other), Report(m, a, a.avgEntry);
            && r.realized == o.realized && r.fees == o.fees == FeeSum(m, fills) && r.funding == o.funding == 0.0
            && e.unrealized == 0.0
            && Abs(r.unrealized - o.unrealized - Times(a.size, mark - other)) <= 2.0 * HalfUlp(m)
            && r.net == r.realized + r.unrealized - r.fees
  {
    hide Round, HalfUlp, Gain, Applied, Times;
    FeesAreSummed(m, fills);
    var a := AppliedAll(m, FLAT, fills);
    NoGainAtEntry(m, a.size, a.avgEntry);
    UnrealizedMoves(m, a.size, a.avgEntry, mark, other);
  }

  /** Once the account is flat again the report shows nothing unrealized, and as realized the cash the fills
      moved: exactly in exact arithmetic, otherwise within the half-units of the fills. */
  lemma FlatReport(m: Rounding, fills: seq<Fill>, mark: real)
    requires AppliedAll(m, FLAT, fills).size == 0.0
    ensures var r := Report(m, AppliedAll(m, FLAT, fills), mark);
            && r.unrealized == 0.0
            && Abs(r.realized - CashFlow(m, fills)) <= HalfUlp(m) * TotalSlip(m, FLAT, fills)
            && (m.Exact? ==> r.realized == CashFlow(m, fills))
  {
    hide Round, HalfUlp, Gain, Applied, AppliedAll, CashFlow, TotalSlip;
    FlatOnBooks(m);
    LedgerAgrees(m, FLAT, fills);
    NoGain(m, AppliedAll(m, FLAT, fills).avgEntry, mark);
  }
}
