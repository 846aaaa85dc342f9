/** Decimal arithmetic of the engine.

    A `Decimal` is a real number.  The engine rounds explicitly to eight decimals, half to even.
    `Dp8` is that rounding; `Exact` is the idealisation in which rounding does nothing.  Every bound
    below is stated once, as a multiple of `HalfUlp(m)`, which is zero for `Exact`. */
module Decimals {

  datatype Rounding = Exact | Dp8

  /** Nearest integer, ties to the even one. */
  function HalfEven(y: real): (n: int)
    ensures -0.5 <= n as real - y <= 0.5
  {
    var f := y.Floor;
    var d := y - f as real;
    if d < 0.5 then f
    else if d > 0.5 then f + 1
    else if f % 2 == 0 then f
    else f + 1
  }

  function Round(m: Rounding, x: real): real {
    match m
    case Exact => x
    case Dp8 => HalfEven(x * 100000000.0) as real / 100000000.0
  }

  /** Half a unit in the eighth decimal, or nothing when arithmetic is exact. */
  function HalfUlp(m: Rounding): (r: real)
    ensures 0.0 <= r <= 0.5
  {
    match m
    case Exact => 0.0
    case Dp8 => 0.000000005
  }

  /** `x` is a multiple of 10^-8; every number is representable when arithmetic is exact. */
  predicate OnGrid(m: Rounding, x: real) {
    m.Dp8? ==> (x * 100000000.0).Floor as real == x * 100000000.0
  }

  function Abs(x: real): (r: real)
    ensures r >= 0.0 && (r == x || r == -x)
  {
    if x < 0.0 then -x else x
  }

  /** Price times size, rounded. */
  function Notional(m: Rounding, price: real, size: real): real {
    Round(m, price * size)
  }

  /** `bps` hundredths of a percent of `x`. */
  function Bps(x: real, bps: int): real {
    x * bps as real / 10000.0
  }

  function Min(x: real, y: real): real {
    if x <= y then x else y
  }

  function Max(x: real, y: real): real {
    if x <= y then y else x
  }

  /** Rounding moves a number by at most half a unit, onto the grid. */
  lemma RoundNear(m: Rounding, x: real)
    ensures Abs(Round(m, x) - x) <= HalfUlp(m)
    ensures OnGrid(m, Round(m, x))
  {
    if m.Dp8? {
      var n := HalfEven(x * 100000000.0);
      assert Round(m, x) * 100000000.0 == n as real;
    }
  }

  /** A number halfway between two multiples of 10^-8 goes to the even one. */
  lemma TieGoesToEven(x: real)
    requires x * 100000000.0 - (x * 100000000.0).Floor as real == 0.5
    ensures exists n: int :: Round(Dp8, x) * 100000000.0 == (2 * n) as real
  {
    var n := HalfEven(x * 100000000.0);
    assert n % 2 == 0;
    assert Round(Dp8, x) * 100000000.0 == n as real == (2 * (n / 2)) as real;
  }

  lemma RoundFixesGrid(m: Rounding, x: real)
    requires OnGrid(m, x)
    ensures Round(m, x) == x
  {
    if m.Dp8? {
      assert HalfEven(x * 100000000.0) == (x * 100000000.0).Floor;
    }
  }

  lemma RoundMonotone(m: Rounding, x: real, y: real)
    requires x <= y
    ensures Round(m, x) <= Round(m, y)
  {
    if m.Dp8? {
      HalfEvenMonotone(x * 100000000.0, y * 100000000.0);
    }
  }

  lemma HalfEvenMonotone(x: real, y: real)
    requires x <= y
    ensures HalfEven(x) <= HalfEven(y)
  {
    if x.Floor == y.Floor {
    } else {
      assert x.Floor + 1 <= y.Floor;
    }
  }

  /** Rounding is odd: half to even treats both signs alike. */
  lemma RoundNeg(m: Rounding, x: real)
    ensures Round(m, -x) == -Round(m, x)
  {
    if m.Dp8? {
      HalfEvenNeg(x * 100000000.0);
      assert (-x) * 100000000.0 == -(x * 100000000.0);
    }
  }

  lemma HalfEvenNeg(y: real)
    ensures HalfEven(-y) == -HalfEven(y)
  {
    var f := y.Floor;
    if y == f as real {
      assert (-y).Floor == -f;
    } else {
      assert (-y).Floor == -f - 1;
    }
  }

  lemma GridSum(m: Rounding, x: real, y: real)
    requires OnGrid(m, x) && OnGrid(m, y)
    ensures OnGrid(m, x + y) && OnGrid(m, x - y) && OnGrid(m, -x)
  {
    if m.Dp8? {
      var i, j := (x * 100000000.0).Floor, (y * 100000000.0).Floor;
      GridFromUnits(m, x + y, i + j);
      GridFromUnits(m, x - y, i - j);
      GridFromUnits(m, -x, -i);
    }
  }

  lemma GridFromUnits(m: Rounding, x: real, units: int)
    requires x * 100000000.0 == units as real
    ensures OnGrid(m, x)
  {
  }

  /** The rounded sum and difference of grid numbers are exact. */
  lemma RoundGridSum(m: Rounding, x: real, y: real)
    requires OnGrid(m, x) && OnGrid(m, y)
    ensures Round(m, x + y) == x + y && OnGrid(m, x + y)
    ensures Round(m, x - y) == x - y && OnGrid(m, x - y)
  {
    GridSum(m, x, y);
    RoundFixesGrid(m, x + y);
    RoundFixesGrid(m, x - y);
  }

  lemma RoundZero(m: Rounding)
    ensures Round(m, 0.0) == 0.0 && OnGrid(m, 0.0)
  {
    assert 0.0 * 100000000.0 == 0.0;
  }

  lemma RoundNonNegative(m: Rounding, x: real)
    requires x >= 0.0
    ensures Round(m, x) >= 0.0
  {
    RoundZero(m);
    RoundMonotone(m, 0.0, x);
  }

  /** A product that proofs about sums need not look into. */
  function Times(x: real, y: real): real {
    x * y
  }

  lemma MulMonotone(x: real, y: real, k: real)
    requires x <= y && k >= 0.0
    ensures x * k <= y * k
  {
  }

  lemma Distribute(k: real, x: real, y: real)
    ensures k * (x + y) == k * x + k * y
  {
  }

  lemma AbsMul(x: real, y: real)
    ensures Abs(x * y) == Abs(x) * Abs(y)
  {
  }
}
