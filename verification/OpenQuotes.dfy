/** The strategy's view of its open orders, the fingerprint that decides whether a cached copy of the
    view is still good, and exactly when that decision is right. */
module OpenQuotes {
  import opened Decimals
  import opened Core
  import opened Venue

  datatype OpenQuote = OpenQuote(id: QuoteId, intent: QuoteIntent)

  /** A resting order as the view shows it: post-only, a point, at its remaining size. */
  function ShowLive(q: LiveQuote): OpenQuote {
    OpenQuote(q.id, QuoteIntent(q.symbol, q.side, q.price, q.size, PostOnly, Point))
  }

  function LiveView(live: seq<LiveQuote>, managers: set<QuoteId>, symbol: Symbol): seq<OpenQuote> {
    if live == [] then []
    else
      var q := live[|live| - 1];
      LiveView(live[..|live| - 1], managers, symbol)
      + if q.symbol == symbol && q.id !in managers then [ShowLive(q)] else []
  }

  /** An in-flight order as the view shows it; a manager's placement is hidden, a replace never is. */
  function ShowPending(p: PendingOp, managers: set<QuoteId>, symbol: Symbol): seq<OpenQuote> {
    match p.op
    case PlaceOp(intent, o) =>
      if intent.symbol == symbol && !(o.Some? && o.value in managers)
      then [OpenQuote(if o.Some? then o.value else NIL_ID, intent)] else []
    case ReplaceOp(id, intent) => if intent.symbol == symbol then [OpenQuote(id, intent)] else []
    case _ => []
  }

  function PendingView(pending: seq<PendingOp>, managers: set<QuoteId>, symbol: Symbol): seq<OpenQuote> {
    if pending == [] then []
    else PendingView(pending[..|pending| - 1], managers, symbol) + ShowPending(pending[|pending| - 1], managers, symbol)
  }

  /** `live_quotes_for`: resting orders, then in-flight ones. */
  function View(s: Sim, symbol: Symbol): seq<OpenQuote> {
    LiveView(s.live, s.managers, symbol) + PendingView(s.pending, s.managers, symbol)
  }

  /** A resting order of the symbol that is no manager's, shown post-only at what is left of it. */
  predicate ShownResting(s: Sim, symbol: Symbol, o: OpenQuote, i: nat)
    requires i < |s.live|
  {
    var q := s.live[i];
    q.symbol == symbol && q.id !in s.managers
    && o == OpenQuote(q.id, QuoteIntent(symbol, q.side, q.price, q.size, PostOnly, Point))
  }

  /** An order of the symbol in flight, shown as asked for: a placement under the id it brings, if any, unless
      that is a manager's, and any replace. */
  predicate ShownInFlight(s: Sim, symbol: Symbol, o: OpenQuote, i: nat)
    requires i < |s.pending|
  {
    match s.pending[i].op
    case PlaceOp(intent, id) =>
      && intent.symbol == symbol && o.intent == intent
      && (if id.Some? then id.value !in s.managers && o.id == id.value else o.id == 0)
    case ReplaceOp(id, intent) => intent.symbol == symbol && o == OpenQuote(id, intent)
    case _ => false
  }

  /** The view shows just these, the resting ones first. */
  lemma ViewHolds(s: Sim, symbol: Symbol, o: OpenQuote)
    ensures View(s, symbol) == LiveView(s.live, s.managers, symbol) + PendingView(s.pending, s.managers, symbol)
    ensures o in LiveView(s.live, s.managers, symbol)
            <==> exists i :: 0 <= i < |s.live| && ShownResting(s, symbol, o, i)
    ensures o in PendingView(s.pending, s.managers, symbol)
            <==> exists i :: 0 <= i < |s.pending| && ShownInFlight(s, symbol, o, i)
  {
    LiveHolds(s, |s.live|, symbol, o);
    PendingHolds(s, |s.pending|, symbol, o);
    assert s.live[..|s.live|] == s.live && s.pending[..|s.pending|] == s.pending;
  }

  lemma {:induction false} LiveHolds(s: Sim, n: nat, symbol: Symbol, o: OpenQuote)
    requires n <= |s.live|
    ensures o in LiveView(s.live[..n], s.managers, symbol) <==> exists i :: 0 <= i < n && ShownResting(s, symbol, o, i)
  {
    if n > 0 {
      LiveHolds(s, n - 1, symbol, o);
      assert s.live[..n][..n - 1] == s.live[..n - 1] && s.live[..n][n - 1] == s.live[n - 1];
      assert o in LiveView(s.live[..n], s.managers, symbol)
             <==> o in LiveView(s.live[..n - 1], s.managers, symbol) || ShownResting(s, symbol, o, n - 1);
    }
  }

  lemma {:induction false} PendingHolds(s: Sim, n: nat, symbol: Symbol, o: OpenQuote)
    requires n <= |s.pending|
    ensures o in PendingView(s.pending[..n], s.managers, symbol)
            <==> exists i :: 0 <= i < n && ShownInFlight(s, symbol, o, i)
  {
    if n > 0 {
      PendingHolds(s, n - 1, symbol, o);
      assert s.pending[..n][..n - 1] == s.pending[..n - 1] && s.pending[..n][n - 1] == s.pending[n - 1];
      assert o in PendingView(s.pending[..n], s.managers, symbol)
             <==> o in PendingView(s.pending[..n - 1], s.managers, symbol) || ShownInFlight(s, symbol, o, n - 1);
    }
  }

  // ---------------------------------------------------------------------------------------------
  // The fingerprint

  /** What the fingerprint folds in for one order.  The two hashes together are taken to be injective
      on the sequence of these. */
  datatype Folded = Folded(id: QuoteId, side: Side, price: real, size: real)

  function FoldLive(live: seq<LiveQuote>, symbol: Symbol): seq<Folded> {
    if live == [] then []
    else
      var q := live[|live| - 1];
      FoldLive(live[..|live| - 1], symbol) + if q.symbol == symbol then [Folded(q.id, q.side, q.price, q.size)] else []
  }

  function FoldOp(p: PendingOp, symbol: Symbol): seq<Folded> {
    match p.op
    case PlaceOp(i, o) =>
      if i.symbol == symbol then [Folded(if o.Some? then o.value else NIL_ID, i.side, i.price, i.size)] else []
    case ReplaceOp(id, i) => if i.symbol == symbol then [Folded(id, i.side, i.price, i.size)] else []
    case _ => []
  }

  function FoldPending(pending: seq<PendingOp>, symbol: Symbol): seq<Folded> {
    if pending == [] then []
    else FoldPending(pending[..|pending| - 1], symbol) + FoldOp(pending[|pending| - 1], symbol)
  }

  /** Every resting and in-flight order of the symbol, the managers' included. */
  function Signature(s: Sim, symbol: Symbol): seq<Folded> {
    FoldLive(s.live, symbol) + FoldPending(s.pending, symbol)
  }

  // ---------------------------------------------------------------------------------------------
  // What the fingerprint does not see

  /** Which of the folded orders the view hides. */
  function LiveFlags(live: seq<LiveQuote>, managers: set<QuoteId>, symbol: Symbol): seq<bool> {
    if live == [] then []
    else
      var q := live[|live| - 1];
      LiveFlags(live[..|live| - 1], managers, symbol) + if q.symbol == symbol then [q.id in managers] else []
  }

  function OpFlags(p: PendingOp, managers: set<QuoteId>, symbol: Symbol): seq<bool> {
    match p.op
    case PlaceOp(i, o) => if i.symbol == symbol then [o.Some? && o.value in managers] else []
    case ReplaceOp(_, i) => if i.symbol == symbol then [false] else []
    case _ => []
  }

  function PendingFlags(pending: seq<PendingOp>, managers: set<QuoteId>, symbol: Symbol): seq<bool> {
    if pending == [] then []
    else PendingFlags(pending[..|pending| - 1], managers, symbol) + OpFlags(pending[|pending| - 1], managers, symbol)
  }

  function Flags(s: Sim, symbol: Symbol): seq<bool> {
    LiveFlags(s.live, s.managers, symbol) + PendingFlags(s.pending, s.managers, symbol)
  }

  /** The folded orders that are not hidden. */
  function Shown(folded: seq<Folded>, hidden: seq<bool>): seq<Folded>
    requires |folded| == |hidden|
  {
    if folded == [] then []
    else
      var n := |folded| - 1;
      Shown(folded[..n], hidden[..n]) + if hidden[n] then [] else [folded[n]]
  }

  /** An open quote without its time in force and shape, which the fingerprint leaves out. */
  function Plain(o: OpenQuote): Folded {
    Folded(o.id, o.intent.side, o.intent.price, o.intent.size)
  }

  function PlainAll(view: seq<OpenQuote>): (r: seq<Folded>)
    ensures |r| == |view|
  {
    if view == [] then [] else PlainAll(view[..|view| - 1]) + [Plain(view[|view| - 1])]
  }

  lemma {:induction false} PlainAppend(xs: seq<OpenQuote>, ys: seq<OpenQuote>)
    ensures PlainAll(xs + ys) == PlainAll(xs) + PlainAll(ys)
    decreases |ys|
  {
    if ys == [] {
      assert xs + ys == xs;
    } else {
      var n := |ys| - 1;
      assert (xs + ys)[..|xs + ys| - 1] == xs + ys[..n];
      PlainAppend(xs, ys[..n]);
    }
  }

  lemma {:induction false} ShownAppend(xs: seq<Folded>, hx: seq<bool>, ys: seq<Folded>, hy: seq<bool>)
    requires |xs| == |hx| && |ys| == |hy|
    ensures Shown(xs + ys, hx + hy) == Shown(xs, hx) + Shown(ys, hy)
    decreases |ys|
  {
    if ys == [] {
      assert xs + ys == xs && hx + hy == hx;
    } else {
      var n := |ys| - 1;
      assert (xs + ys)[..|xs + ys| - 1] == xs + ys[..n] && (hx + hy)[..|xs + ys| - 1] == hx + hy[..n];
      ShownAppend(xs, hx, ys[..n], hy[..n]);
    }
  }

  lemma ShownOne(f: Folded, hidden: bool)
    ensures Shown([f], [hidden]) == if hidden then [] else [f]
  {
    assert Shown([], []) == [];
    assert [f][..0] == [] && [hidden][..0] == [];
  }

  lemma {:induction false} LiveShown(live: seq<LiveQuote>, managers: set<QuoteId>, symbol: Symbol)
    ensures |FoldLive(live, symbol)| == |LiveFlags(live, managers, symbol)|
    ensures PlainAll(LiveView(live, managers, symbol))
            == Shown(FoldLive(live, symbol), LiveFlags(live, managers, symbol))
    decreases |live|
  {
    if live != [] {
      var init, q := live[..|live| - 1], live[|live| - 1];
      LiveShown(init, managers, symbol);
      if q.symbol == symbol {
        var f := Folded(q.id, q.side, q.price, q.size);
        ShownAppend(FoldLive(init, symbol), LiveFlags(init, managers, symbol), [f], [q.id in managers]);
        ShownOne(f, q.id in managers);
        PlainAppend(LiveView(init, managers, symbol), [ShowLive(q)]);
        PlainOne(ShowLive(q));
        assert q.id in managers ==> LiveView(init, managers, symbol) + [] == LiveView(init, managers, symbol);
      } else {
        assert LiveView(live, managers, symbol) == LiveView(init, managers, symbol);
        assert FoldLive(live, symbol) == FoldLive(init, symbol);
        assert LiveFlags(live, managers, symbol) == LiveFlags(init, managers, symbol);
      }
    }
  }

  lemma PlainOne(o: OpenQuote)
    ensures PlainAll([o]) == [Plain(o)]
  {
    assert [o][..0] == [];
  }

  lemma {:induction false} PendingShown(pending: seq<PendingOp>, managers: set<QuoteId>, symbol: Symbol)
    ensures |FoldPending(pending, symbol)| == |PendingFlags(pending, managers, symbol)|
    ensures PlainAll(PendingView(pending, managers, symbol))
            == Shown(FoldPending(pending, symbol), PendingFlags(pending, managers, symbol))
    decreases |pending|
  {
    if pending != [] {
      var init, p := pending[..|pending| - 1], pending[|pending| - 1];
      PendingShown(init, managers, symbol);
      ShownAppend(FoldPending(init, symbol), PendingFlags(init, managers, symbol), FoldOp(p, symbol),
                  OpFlags(p, managers, symbol));
      PlainAppend(PendingView(init, managers, symbol), ShowPending(p, managers, symbol));
      OpShown(p, managers, symbol);
    }
  }

  lemma OpShown(p: PendingOp, managers: set<QuoteId>, symbol: Symbol)
    ensures |FoldOp(p, symbol)| == |OpFlags(p, managers, symbol)|
    ensures PlainAll(ShowPending(p, managers, symbol)) == Shown(FoldOp(p, symbol), OpFlags(p, managers, symbol))
  {
    var view, folded, flags := ShowPending(p, managers, symbol), FoldOp(p, symbol), OpFlags(p, managers, symbol);
    if |folded| == 1 {
      ShownOne(folded[0], flags[0]);
      assert folded == [folded[0]] && flags == [flags[0]];
    }
    if |view| == 1 {
      PlainOne(view[0]);
      assert view == [view[0]];
    }
  }

  /** The view is the signature with the hidden orders left out. */
  lemma ViewIsShown(s: Sim, symbol: Symbol)
    ensures |Signature(s, symbol)| == |Flags(s, symbol)|
    ensures PlainAll(View(s, symbol)) == Shown(Signature(s, symbol), Flags(s, symbol))
  {
    LiveShown(s.live, s.managers, symbol);
    PendingShown(s.pending, s.managers, symbol);
    PlainAppend(LiveView(s.live, s.managers, symbol), PendingView(s.pending, s.managers, symbol));
    ShownAppend(FoldLive(s.live, symbol), LiveFlags(s.live, s.managers, symbol),
                FoldPending(s.pending, symbol), PendingFlags(s.pending, s.managers, symbol));
  }

  // ---------------------------------------------------------------------------------------------
  // When an equal fingerprint means an equal view

  predicate Distinct(folded: seq<Folded>) {
    forall i, j :: 0 <= i < j < |folded| ==> folded[i] != folded[j]
  }

  lemma {:induction false} ShownSubset(folded: seq<Folded>, hidden: seq<bool>)
    requires |folded| == |hidden|
    ensures forall f :: f in Shown(folded, hidden) ==> f in folded
    decreases |folded|
  {
    if folded != [] {
      var n := |folded| - 1;
      ShownSubset(folded[..n], hidden[..n]);
    }
  }

  lemma {:induction false} ShownInjective(folded: seq<Folded>, h1: seq<bool>, h2: seq<bool>)
    requires |folded| == |h1| == |h2| && Distinct(folded) && Shown(folded, h1) == Shown(folded, h2)
    ensures h1 == h2
    decreases |folded|
  {
    if folded != [] {
      var n := |folded| - 1;
      var init, last := folded[..n], folded[n];
      ShownSubset(init, h1[..n]);
      ShownSubset(init, h2[..n]);
      var s1, s2 := Shown(init, h1[..n]), Shown(init, h2[..n]);
      assert last !in s1 && last !in s2;
      assert Shown(folded, h1) == if h1[n] then s1 else s1 + [last];
      assert Shown(folded, h2) == if h2[n] then s2 else s2 + [last];
      assert last in Shown(folded, h1) <==> !h1[n];
      assert last in Shown(folded, h2) <==> !h2[n];
      if !h1[n] {
        assert (s1 + [last])[..|s1|] == s1 && (s2 + [last])[..|s2|] == s2;
      }
      ShownInjective(init, h1[..n], h2[..n]);
      assert h1 == h1[..n] + [h1[n]] && h2 == h2[..n] + [h2[n]];
    }
  }

  /** A cached view with an unchanged fingerprint shows the right orders, in the right order, if and
      only if the same ones are hidden -- exactly so when no two folded orders are alike. */
  lemma FreshIffFlagsAgree(then_: Sim, now: Sim, symbol: Symbol)
    requires Signature(then_, symbol) == Signature(now, symbol)
    ensures Flags(then_, symbol) == Flags(now, symbol) ==> PlainAll(View(then_, symbol)) == PlainAll(View(now, symbol))
    ensures Distinct(Signature(now, symbol)) && PlainAll(View(then_, symbol)) == PlainAll(View(now, symbol))
            ==> Flags(then_, symbol) == Flags(now, symbol)
  {
    ViewIsShown(then_, symbol);
    ViewIsShown(now, symbol);
    if Distinct(Signature(now, symbol)) && PlainAll(View(then_, symbol)) == PlainAll(View(now, symbol)) {
      ShownInjective(Signature(now, symbol), Flags(then_, symbol), Flags(now, symbol));
    }
  }

  /** No in-flight replace is of a manager's order, and the placeholder id is not a manager's. */
  predicate ManagersLeftAlone(s: Sim) {
    && NIL_ID !in s.managers
    && forall i :: 0 <= i < |s.pending| ==> (s.pending[i].op.ReplaceOp? ==> s.pending[i].op.id !in s.managers)
  }

  /** Whether each folded order's id is a manager's. */
  function Owned(folded: seq<Folded>, managers: set<QuoteId>): seq<bool> {
    seq(|folded|, i requires 0 <= i < |folded| => folded[i].id in managers)
  }

  lemma {:induction false} LiveOwned(live: seq<LiveQuote>, managers: set<QuoteId>, symbol: Symbol)
    ensures LiveFlags(live, managers, symbol) == Owned(FoldLive(live, symbol), managers)
    decreases |live|
  {
    if live != [] {
      LiveOwned(live[..|live| - 1], managers, symbol);
    }
  }

  lemma {:induction false} PendingOwned(s: Sim, n: nat, symbol: Symbol)
    requires ManagersLeftAlone(s) && n <= |s.pending|
    ensures PendingFlags(s.pending[..n], s.managers, symbol) == Owned(FoldPending(s.pending[..n], symbol), s.managers)
  {
    if n > 0 {
      PendingOwned(s, n - 1, symbol);
      assert s.pending[..n][..n - 1] == s.pending[..n - 1] && s.pending[..n][n - 1] == s.pending[n - 1];
    }
  }

  lemma FlagsAreOwned(s: Sim, symbol: Symbol)
    requires ManagersLeftAlone(s)
    ensures Flags(s, symbol) == Owned(Signature(s, symbol), s.managers)
  {
    LiveOwned(s.live, s.managers, symbol);
    PendingOwned(s, |s.pending|, symbol);
    assert s.pending[..|s.pending|] == s.pending;
  }

  /** Nobody replaces a manager's order, then or now, and no folded id joined or left the managers. */
  predicate MembersKept(then_: Sim, now: Sim, symbol: Symbol) {
    && ManagersLeftAlone(then_) && ManagersLeftAlone(now)
    && forall f :: f in Signature(now, symbol) ==> (f.id in then_.managers <==> f.id in now.managers)
  }

  /** As long as nobody replaces a manager's order, a cached view is right whenever the fingerprint is
      unchanged and no id in it has joined or left the managers. */
  lemma CacheFreshUnlessManagersMove(then_: Sim, now: Sim, symbol: Symbol)
    requires Signature(then_, symbol) == Signature(now, symbol)
    requires MembersKept(then_, now, symbol)
    ensures PlainAll(View(then_, symbol)) == PlainAll(View(now, symbol))
  {
    FlagsAreOwned(then_, symbol);
    FlagsAreOwned(now, symbol);
    FreshIffFlagsAgree(then_, now, symbol);
  }

  // ---------------------------------------------------------------------------------------------
  // When it is the view bit for bit

  lemma {:induction false} LiveShapes(live: seq<LiveQuote>, managers: set<QuoteId>, symbol: Symbol)
    ensures forall o :: o in LiveView(live, managers, symbol) ==>
              o.intent.symbol == symbol && o.intent.tif == PostOnly && o.intent.kind == Point
    decreases |live|
  {
    if live != [] {
      LiveShapes(live[..|live| - 1], managers, symbol);
    }
  }

  /** An order in flight of the symbol, if this is one, asks for just what a resting order is shown as. */
  predicate MakerPoint(p: PendingOp, symbol: Symbol) {
    match p.op
    case PlaceOp(i, _) => i.symbol == symbol ==> i.tif == PostOnly && i.kind == Point
    case ReplaceOp(_, i) => i.symbol == symbol ==> i.tif == PostOnly && i.kind == Point
    case _ => true
  }

  predicate MakerPoints(pending: seq<PendingOp>, symbol: Symbol) {
    forall i :: 0 <= i < |pending| ==> MakerPoint(pending[i], symbol)
  }

  lemma {:induction false} PendingShapes(pending: seq<PendingOp>, managers: set<QuoteId>, symbol: Symbol)
    ensures forall o :: o in PendingView(pending, managers, symbol) ==>
              && o.intent.symbol == symbol
              && (MakerPoints(pending, symbol) ==> o.intent.tif == PostOnly && o.intent.kind == Point)
    decreases |pending|
  {
    if pending != [] {
      var init, p := pending[..|pending| - 1], pending[|pending| - 1];
      PendingShapes(init, managers, symbol);
      assert MakerPoints(pending, symbol) ==> MakerPoints(init, symbol) && MakerPoint(p, symbol);
    }
  }

  lemma {:induction false} PlainAt(view: seq<OpenQuote>, i: nat)
    requires i < |view|
    ensures PlainAll(view)[i] == Plain(view[i])
    decreases |view|
  {
    if i < |view| - 1 {
      PlainAt(view[..|view| - 1], i);
    }
  }

  /** Entry by entry, the same time in force and shape. */
  predicate SameShapes(xs: seq<OpenQuote>, ys: seq<OpenQuote>) {
    |xs| == |ys|
    && forall i :: 0 <= i < |xs| ==> xs[i].intent.tif == ys[i].intent.tif && xs[i].intent.kind == ys[i].intent.kind
  }

  lemma ViewShapes(s: Sim, symbol: Symbol)
    ensures forall o :: o in View(s, symbol) ==>
              && o.intent.symbol == symbol
              && (MakerPoints(s.pending, symbol) ==> o.intent.tif == PostOnly && o.intent.kind == Point)
  {
    LiveShapes(s.live, s.managers, symbol);
    PendingShapes(s.pending, s.managers, symbol);
  }

  /** With the same orders shown, two views are equal exactly if the shapes agree entry by entry. */
  lemma EqualIffShapesAgree(then_: Sim, now: Sim, symbol: Symbol)
    requires PlainAll(View(then_, symbol)) == PlainAll(View(now, symbol))
    ensures View(then_, symbol) == View(now, symbol) <==> SameShapes(View(then_, symbol), View(now, symbol))
  {
    hide View, PlainAll;
    var xs, ys := View(then_, symbol), View(now, symbol);
    ViewShapes(then_, symbol);
    ViewShapes(now, symbol);
    assert |xs| == |PlainAll(xs)| && |ys| == |PlainAll(ys)|;
    if SameShapes(xs, ys) {
      forall i | 0 <= i < |xs|
        ensures xs[i] == ys[i]
      {
        PlainAt(xs, i);
        PlainAt(ys, i);
        assert xs[i] in xs && ys[i] in ys;
      }
    }
  }

  /** With the fingerprint unchanged and the same orders hidden, the cached view is bit for bit the
      current one exactly if time in force and shape agree entry by entry.  When no two folded orders are
      alike, both are needed: the views are equal exactly if the same orders are hidden and the shapes
      agree. */
  lemma BitForBitIff(then_: Sim, now: Sim, symbol: Symbol)
    requires Signature(then_, symbol) == Signature(now, symbol)
    ensures Flags(then_, symbol) == Flags(now, symbol) ==>
              (View(then_, symbol) == View(now, symbol) <==> SameShapes(View(then_, symbol), View(now, symbol)))
    ensures Distinct(Signature(now, symbol)) ==>
              (View(then_, symbol) == View(now, symbol) <==>
               Flags(then_, symbol) == Flags(now, symbol) && SameShapes(View(then_, symbol), View(now, symbol)))
  {
    hide View, Signature, Flags, PlainAll, Distinct;
    FreshIffFlagsAgree(then_, now, symbol);
    if PlainAll(View(then_, symbol)) == PlainAll(View(now, symbol)) {
      EqualIffShapesAgree(then_, now, symbol);
    }
  }

  /** What a caller can see to: if all it sends for the symbol is post-only points, and managers and their
      orders are left alone, an unchanged fingerprint means the very same view. */
  lemma BitForBitForMakers(then_: Sim, now: Sim, symbol: Symbol)
    requires Signature(then_, symbol) == Signature(now, symbol)
    requires MembersKept(then_, now, symbol)
    requires MakerPoints(then_.pending, symbol) && MakerPoints(now.pending, symbol)
    ensures View(then_, symbol) == View(now, symbol)
  {
    hide View, Signature, PlainAll, MakerPoints;
    CacheFreshUnlessManagersMove(then_, now, symbol);
    EqualIffShapesAgree(then_, now, symbol);
    ViewShapes(then_, symbol);
    ViewShapes(now, symbol);
    var xs, ys := View(then_, symbol), View(now, symbol);
    assert |xs| == |PlainAll(xs)| == |PlainAll(ys)| == |ys|;
    forall i | 0 <= i < |xs|
      ensures xs[i].intent.tif == ys[i].intent.tif && xs[i].intent.kind == ys[i].intent.kind
    {
      assert xs[i] in xs && ys[i] in ys;
    }
  }

  // ---------------------------------------------------------------------------------------------
  // Traces on which it is not

  /** Perpetual futures, no fees, no latency, no limits, silent cancels on. */
  const PLAIN_VENUE := SimConfig(Exact, 0, 0, false, 0, 0, None, 0.0, 0.0, true, None, false, false)

  const EMPTY_VENUE := Sim([], [], {}, map[], [], map[], 0.0, 0.0, 0.0, None, 1)

  lemma SortOne(p: PendingOp)
    ensures SortBySchedule([p]) == [p] && SortBySchedule([] + [p]) == [p]
  {
    assert [p][..0] == [] && [] + [p] == [p];
    assert SortBySchedule([]) == [];
  }

  /** On the plain venue an order that is due comes to rest. */
  lemma OneRests(s: Sim, p: PendingOp, now: nat)
    requires s.pending == [p] && s.live == [] && s.books == map[] && s.units == map[] && s.wallet == 0.0
             && s.lastTs == None
    requires p.op.PlaceOp? && !p.op.intent.tif.Immediate() && p.scheduledTs <= now
    ensures var (i, o) := (p.op.intent, p.op.overrideId);
            var q := LiveQuote(if o.Some? then o.value else s.nextId, i.symbol, i.side, i.price, i.size, 0.0,
                               p.scheduledTs, p.submittedAt);
            OnMarketEvent(PLAIN_VENUE, s, Heartbeat(now), now, Noise(1.0, {})).0
            == s.(pending := [], live := [q], lastTs := Some(now), nextId := if o.Some? then s.nextId else s.nextId + 1)
  {
    hide Round;
    var s1 := s.(lastTs := Some(now));
    assert SilentCancels(PLAIN_VENUE, DecayQueues(PLAIN_VENUE, s, now, Noise(1.0, {})), now, Noise(1.0, {})) == s1;
    assert DueCount([p], now) == 1;
    assert [p][..1] == [p] && [p][1..] == [];
    var s2 := s1.(pending := []);
    assert Verdict(PLAIN_VENUE, s2, p.op.intent) == None;
    assert ApplyAll(PLAIN_VENUE, Apply(PLAIN_VENUE, s2, p).0, []) == (Apply(PLAIN_VENUE, s2, p).0, []);
    assert ApplyAll(PLAIN_VENUE, s2, [p]).0 == Apply(PLAIN_VENUE, s2, p).0;
    assert [] + [LiveQuote(if p.op.overrideId.Some? then p.op.overrideId.value else s.nextId, p.op.intent.symbol,
                           p.op.intent.side, p.op.intent.price, p.op.intent.size, 0.0, p.scheduledTs, p.submittedAt)]
           == [LiveQuote(if p.op.overrideId.Some? then p.op.overrideId.value else s.nextId, p.op.intent.symbol,
                         p.op.intent.side, p.op.intent.price, p.op.intent.size, 0.0, p.scheduledTs, p.submittedAt)];
  }

  /** The venue as it stands when a manager's first order rests, at time 1. */
  function ManagerRests(intent: QuoteIntent): Sim {
    var placed := OnMarketEvent(PLAIN_VENUE, Submit(PLAIN_VENUE, EMPTY_VENUE, Quote(intent), 0, 0), Heartbeat(1), 1,
                                Noise(1.0, {})).0;
    placed.(managers := {1})
  }

  /** Then the order is replaced by itself and silently cancelled while the replace is in flight. */
  function ManagerReplaces(intent: QuoteIntent): Sim {
    OnMarketEvent(PLAIN_VENUE, Submit(PLAIN_VENUE, ManagerRests(intent), Requote(1, intent), 2, 0), Heartbeat(2), 2,
                  Noise(1.0, {0})).0
  }

  /** The cache can be stale though no manager came or went: on this run from an empty venue the
      fingerprint is the same before and after, the view is empty before and shows an order after. */
  lemma StaleAfterManagerReplace(symbol: Symbol)
    ensures var i := QuoteIntent(symbol, Bid, 1.0, 1.0, PostOnly, Point);
            var before, after := ManagerRests(i), ManagerReplaces(i);
            && before.managers == after.managers == {1}
            && Signature(before, symbol) == Signature(after, symbol)
            && View(before, symbol) == [] && View(after, symbol) == [OpenQuote(1, i)]
  {
    hide Verdict, Place, OnMarketEvent, Submit, SortBySchedule;
    var i := QuoteIntent(symbol, Bid, 1.0, 1.0, PostOnly, Point);
    var p, r := PendingOp(1, PlaceOp(i, None), 0), PendingOp(3, ReplaceOp(1, i), 2);
    var q := LiveQuote(1, symbol, Bid, 1.0, 1.0, 0.0, 1, 0);
    FirstSubmitted(EMPTY_VENUE, Quote(i), 0, p);
    OneRests(EMPTY_VENUE.(pending := [p]), p, 1);
    var before := ManagerRests(i);
    assert before == Sim([], [q], {1}, map[], [], map[], 0.0, 0.0, 0.0, Some(1), 2);
    FirstSubmitted(before, Requote(1, i), 2, r);
    OneVanishes(before.(pending := [r]), q, r, 2);
    assert ManagerReplaces(i) == before.(pending := [r], live := [], lastTs := Some(2));
    SingleOrders(q, r, {1}, symbol);
  }

  lemma FirstSubmitted(s: Sim, a: Action, now: nat, p: PendingOp)
    requires s.pending == [] && now < 100 && ScheduledOp(PLAIN_VENUE, a, now, 0) == Some(p)
    ensures Submit(PLAIN_VENUE, s, a, now, 0) == s.(pending := [p])
  {
    SortOne(p);
  }

  lemma OneVanishes(s: Sim, q: LiveQuote, r: PendingOp, now: nat)
    requires s.live == [q] && s.pending == [r] && r.scheduledTs > now && s.lastTs.Some? && s.lastTs.value < now
    ensures OnMarketEvent(PLAIN_VENUE, s, Heartbeat(now), now, Noise(1.0, {0})).0 == s.(live := [], lastTs := Some(now))
  {
    hide Apply, ReattributeAll, BookFrom, MatchTrade, DecayAll;
    assert Without([q], {0}) == [] by { assert [q][1..] == []; }
    assert DueCount([r], now) == 0;
    assert [r][..0] == [] && [r][0..] == [r];
  }

  /** The venue with a placement in flight that carries its id, and after it has come to rest. */
  function InFlight(intent: QuoteIntent, id: QuoteId): Sim {
    Enqueue(PLAIN_VENUE, EMPTY_VENUE, intent, 0, id, 0)
  }

  function AtRest(intent: QuoteIntent, id: QuoteId): Sim {
    OnMarketEvent(PLAIN_VENUE, InFlight(intent, id), Heartbeat(1), 1, Noise(1.0, {})).0
  }

  /** Nor is a fresh cache bit for bit the view: on this run an order in flight keeps its own time in
      force, and its resting self, which the fingerprint cannot tell apart, is shown as post-only. */
  lemma TimeInForceNotFolded(symbol: Symbol, id: QuoteId)
    ensures var i := QuoteIntent(symbol, Bid, 1.0, 1.0, GTC, Point);
            var before, after := InFlight(i, id), AtRest(i, id);
            && Signature(before, symbol) == Signature(after, symbol) && Flags(before, symbol) == Flags(after, symbol)
            && View(before, symbol) == [OpenQuote(id, i)] && View(after, symbol) == [OpenQuote(id, i.(tif := PostOnly))]
  {
    hide Verdict, Place, OnMarketEvent, SortBySchedule;
    var i := QuoteIntent(symbol, Bid, 1.0, 1.0, GTC, Point);
    var p, q := PendingOp(1, PlaceOp(i, Some(id)), 0), LiveQuote(id, symbol, Bid, 1.0, 1.0, 0.0, 1, 0);
    SortOne(p);
    assert InFlight(i, id) == EMPTY_VENUE.(pending := [p]);
    OneRests(EMPTY_VENUE.(pending := [p]), p, 1);
    assert AtRest(i, id) == EMPTY_VENUE.(pending := [], live := [q], lastTs := Some(1));
    SingleOrders(q, p, {}, symbol);
  }

  /** View and fingerprint of one resting order, of one in-flight order, and of none. */
  lemma SingleOrders(q: LiveQuote, p: PendingOp, managers: set<QuoteId>, symbol: Symbol)
    ensures LiveView([], managers, symbol) == [] && FoldLive([], symbol) == []
    ensures PendingView([], managers, symbol) == [] && FoldPending([], symbol) == []
    ensures LiveView([q], managers, symbol) == if q.symbol == symbol && q.id !in managers then [ShowLive(q)] else []
    ensures FoldLive([q], symbol) == if q.symbol == symbol then [Folded(q.id, q.side, q.price, q.size)] else []
    ensures PendingView([p], managers, symbol) == ShowPending(p, managers, symbol)
    ensures FoldPending([p], symbol) == FoldOp(p, symbol)
    ensures LiveFlags([], managers, symbol) == [] && PendingFlags([], managers, symbol) == []
    ensures LiveFlags([q], managers, symbol) == if q.symbol == symbol then [q.id in managers] else []
    ensures PendingFlags([p], managers, symbol) == OpFlags(p, managers, symbol)
  {
    assert [q][..0] == [] && [p][..0] == [];
  }
}
