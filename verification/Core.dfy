/** The engine's shared vocabulary: sides, orders, fills and market events. */
module Core {

  datatype Option<+T> = None | Some(value: T)

  datatype Side = Bid | Ask {
    function Opposite(): Side {
      if Bid? then Ask else Bid
    }
  }

  datatype MarketKind = Spot | Perp

  datatype Symbol = Symbol(base: string, quote: string, venue: string, kind: MarketKind)

  datatype TimeInForce = PostOnly | GTC | IOC | FOK {
    /** Fills or dies on arrival, so it never rests. */
    predicate Immediate() {
      IOC? || FOK?
    }
  }

  datatype QuoteKind = Point | Range(widthBps: nat)

  /** A 128-bit identifier; `NIL_ID` is the all-zero one. */
  type QuoteId = nat

  const NIL_ID: QuoteId := 0

  const U64_MAX: nat := 0xffff_ffff_ffff_ffff

  /** `saturating_add` on 64-bit unsigned integers. */
  function SatAdd(x: nat, y: nat): nat {
    if x + y <= U64_MAX then x + y else U64_MAX
  }

  /** `saturating_mul` on 64-bit unsigned integers. */
  function SatMul(x: nat, y: nat): nat {
    if x * y <= U64_MAX then x * y else U64_MAX
  }

  datatype QuoteIntent = QuoteIntent(
    symbol: Symbol, side: Side, price: real, size: real, tif: TimeInForce, kind: QuoteKind)

  datatype Level = Level(price: real, size: real)

  /** Bids are listed best (highest) first, asks best (lowest) first. */
  datatype Snapshot = Snapshot(symbol: Symbol, bids: seq<Level>, asks: seq<Level>, ts: nat)

  /** `submittedAt` is provenance that only the model records: the time of the event on which the
      order behind this fill was submitted. */
  datatype Fill = Fill(
    quoteId: QuoteId, price: real, size: real, feeAsset: string, fee: real, side: Side,
    ts: nat, isFull: bool, submittedAt: nat)

  datatype MarketEvent =
    | BookUpdate(snapshot: Snapshot)
    | Trade(symbol: Symbol, price: real, size: real, side: Side, ts: nat)
    | FillEvent(fill: Fill)
    | Heartbeat(hbTs: nat)

  datatype Action =
    | Quote(intent: QuoteIntent)
    | Requote(id: QuoteId, newIntent: QuoteIntent)
    | Cancel(cancelId: QuoteId)
    | CancelAll
    | NoOp

  function EventTs(e: MarketEvent): nat {
    match e
    case BookUpdate(s) => s.ts
    case Trade(_, _, _, _, ts) => ts
    case FillEvent(f) => f.ts
    case Heartbeat(ts) => ts
  }

  function Sum<T>(xs: seq<T>, f: T -> real): real {
    if xs == [] then 0.0 else f(xs[0]) + Sum(xs[1..], f)
  }

  lemma {:induction false} SumAppend<T>(xs: seq<T>, ys: seq<T>, f: T -> real)
    ensures Sum(xs + ys, f) == Sum(xs, f) + Sum(ys, f)
  {
    if xs == [] {
      assert xs + ys == ys;
    } else {
      assert (xs + ys)[0] == xs[0] && (xs + ys)[1..] == xs[1..] + ys;
      SumAppend(xs[1..], ys, f);
    }
  }

  lemma SumSplit<T>(xs: seq<T>, i: nat, f: T -> real)
    requires i < |xs|
    ensures Sum(xs, f) == Sum(xs[..i], f) + f(xs[i]) + Sum(xs[i + 1..], f)
  {
    assert xs == xs[..i] + xs[i..];
    SumAppend(xs[..i], xs[i..], f);
    assert xs[i..][1..] == xs[i + 1..];
  }

  lemma SumUpdate<T>(xs: seq<T>, i: nat, x: T, f: T -> real)
    requires i < |xs|
    ensures Sum(xs[i := x], f) == Sum(xs, f) - f(xs[i]) + f(x)
  {
    SumSplit(xs, i, f);
    SumSplit(xs[i := x], i, f);
    assert xs[i := x][..i] == xs[..i] && xs[i := x][i + 1..] == xs[i + 1..];
  }

  lemma SumRemove<T>(xs: seq<T>, i: nat, f: T -> real)
    requires i < |xs|
    ensures Sum(xs[..i] + xs[i + 1..], f) == Sum(xs, f) - f(xs[i])
  {
    SumSplit(xs, i, f);
    SumAppend(xs[..i], xs[i + 1..], f);
  }

  /** The elements whose index is not in `gone`, in order; `base` is the index of `xs[0]`. */
  function Without<T>(xs: seq<T>, gone: set<nat>, base: nat := 0): (ys: seq<T>)
    ensures |ys| <= |xs|
  {
    if xs == [] then []
    else (if base in gone then [] else [xs[0]]) + Without(xs[1..], gone, base + 1)
  }

  /** The elements satisfying `keep`, in order: a vector's `retain`. */
  function Filter<T(!new)>(xs: seq<T>, keep: T -> bool): (ys: seq<T>)
    ensures forall y :: y in ys <==> y in xs && keep(y)
    ensures |ys| <= |xs|
  {
    if xs == [] then []
    else (if keep(xs[0]) then [xs[0]] else []) + Filter(xs[1..], keep)
  }

  lemma {:induction false} FilterNone<T(!new)>(xs: seq<T>, keep: T -> bool)
    requires forall k :: 0 <= k < |xs| ==> !keep(xs[k])
    ensures Filter(xs, keep) == []
  {
    if xs != [] {
      FilterNone(xs[1..], keep);
    }
  }

  lemma {:induction false} FilterAll<T(!new)>(xs: seq<T>, keep: T -> bool)
    requires forall k :: 0 <= k < |xs| ==> keep(xs[k])
    ensures Filter(xs, keep) == xs
  {
    if xs != [] {
      FilterAll(xs[1..], keep);
    }
  }

  lemma {:induction false} FilterAppend<T(!new)>(xs: seq<T>, ys: seq<T>, keep: T -> bool)
    ensures Filter(xs + ys, keep) == Filter(xs, keep) + Filter(ys, keep)
  {
    if xs == [] {
      assert xs + ys == ys;
    } else {
      assert (xs + ys)[1..] == xs[1..] + ys;
      FilterAppend(xs[1..], ys, keep);
    }
  }

  lemma {:induction false} SumFilter<T(!new)>(xs: seq<T>, keep: T -> bool, f: T -> real)
    requires forall x :: x in xs ==> f(x) >= 0.0
    ensures Sum(Filter(xs, keep), f) <= Sum(xs, f)
  {
    if xs != [] {
      SumFilter(xs[1..], keep, f);
      assert xs[0] in xs;
      var rest := Filter(xs[1..], keep);
      if keep(xs[0]) {
        assert ([xs[0]] + rest)[1..] == rest;
      } else {
        assert [] + rest == rest;
      }
    }
  }

  lemma {:induction false} SumWithout<T>(xs: seq<T>, gone: set<nat>, base: nat, f: T -> real)
    requires forall x :: x in xs ==> f(x) >= 0.0
    ensures Sum(Without(xs, gone, base), f) <= Sum(xs, f)
  {
    if xs != [] {
      SumWithout(xs[1..], gone, base + 1, f);
      assert xs[0] in xs;
      var rest := Without(xs[1..], gone, base + 1);
      if base in gone {
        assert [] + rest == rest;
      } else {
        assert ([xs[0]] + rest)[1..] == rest;
      }
    }
  }

  lemma {:induction false} SumPointwise<T>(xs: seq<T>, ys: seq<T>, f: T -> real)
    requires |xs| == |ys| && forall i :: 0 <= i < |xs| ==> f(xs[i]) == f(ys[i])
    ensures Sum(xs, f) == Sum(ys, f)
  {
    if xs != [] {
      SumPointwise(xs[1..], ys[1..], f);
    }
  }

  lemma SumSnoc<T>(xs: seq<T>, x: T, f: T -> real)
    ensures Sum(xs + [x], f) == Sum(xs, f) + f(x)
  {
    SumAppend(xs, [x], f);
    assert [x][1..] == [];
  }

  lemma {:induction false} SumNonNegative<T>(xs: seq<T>, f: T -> real)
    requires forall x :: x in xs ==> f(x) >= 0.0
    ensures Sum(xs, f) >= 0.0
  {
    if xs != [] {
      assert xs[0] in xs;
      SumNonNegative(xs[1..], f);
    }
  }

  lemma SomeElement<T>(s: set<T>) returns (x: T)
    requires s != {}
    ensures x in s
  {
    x :| x in s;
  }

  lemma TailMultiset<T>(xs: seq<T>)
    requires xs != []
    ensures multiset(xs[1..]) == multiset(xs) - multiset{xs[0]}
  {
    assert xs == [xs[0]] + xs[1..];
  }
}
