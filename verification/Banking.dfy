/** The dashboard's account totals as bots rotate out: profit moves between live views, banked views,
    the retired totals and the saved session, and none of it is lost or counted twice. */
module Banking {
  import opened Core

  datatype PaperReport = PaperReport(
    realized: real, unrealized: real, fees: real, funding: real, net: real, events: nat, fills: nat)

  datatype BotStatus = Starting | Running | Crashed(reason: string) | Restarting(delay: string) | Rotated

  datatype BotView = BotView(
    symbol: string, strategy: string, status: BotStatus, snapshot: Option<PaperReport>, banked: bool)

  /** Totals of bots that have left; event and fill counts saturate at 64 bits. */
  datatype RetiredTotals = RetiredTotals(
    realized: real, unrealized: real, fees: real, funding: real, net: real, events: nat, fills: nat, count: nat)

  const NONE_RETIRED := RetiredTotals(0.0, 0.0, 0.0, 0.0, 0.0, 0, 0, 0)

  /** The account summary: grand totals, and the line for departed bots. */
  datatype Aggregate = Aggregate(
    realized: real, unrealized: real, fees: real, funding: real, net: real, events: nat, fills: nat,
    retiredNet: real, retiredCount: nat)
  {
    /** The grand totals, leaving out the departed line. */
    function Totals(): (real, real, real, real, real, nat, nat) {
      (realized, unrealized, fees, funding, net, events, fills)
    }
  }

  datatype SessionBot = SessionBot(symbol: string, strategy: string, tag: string)

  datatype Session = Session(retired: RetiredTotals, roster: seq<SessionBot>)

  function Tag(s: BotStatus): string {
    match s
    case Starting => "starting"
    case Running => "on"
    case Crashed(_) => "off"
    case Restarting(_) => "restarting"
    case Rotated => "off"
  }

  function Fold(t: RetiredTotals, r: PaperReport): RetiredTotals {
    RetiredTotals(t.realized + r.realized, t.unrealized + r.unrealized, t.fees + r.fees, t.funding + r.funding,
                  t.net + r.net, SatAdd(t.events, r.events), SatAdd(t.fills, r.fills), t.count + 1)
  }

  /** A view whose profit is not yet in the retired totals. */
  predicate Counts(v: BotView) {
    v.snapshot.Some? && !v.banked
  }

  // ---------------------------------------------------------------------------------------------
  // The dashboard

  /** Bots, tab order and retired totals. */
  datatype Board = Board(inner: map<string, BotView>, order: seq<string>, retired: RetiredTotals)

  predicate NoneTwice(order: seq<string>) {
    forall i, j :: 0 <= i < j < |order| ==> order[i] != order[j]
  }

  /** The tab order lists exactly the bots in the map, each once. */
  ghost predicate InStep(b: Board) {
    NoneTwice(b.order) && (forall s :: s in b.order <==> s in b.inner)
  }

  function Inserted(b: Board, symbol: string, v: BotView): Board {
    b.(inner := b.inner[symbol := v], order := if symbol in b.order then b.order else b.order + [symbol])
  }

  function StatusSet(b: Board, symbol: string, status: BotStatus): Board {
    if symbol in b.inner then b.(inner := b.inner[symbol := b.inner[symbol].(status := status)]) else b
  }

  function OtherSymbols(symbol: string): string -> bool {
    (s: string) => s != symbol
  }

  function WithoutSymbol(order: seq<string>, symbol: string): seq<string> {
    Filter(order, OtherSymbols(symbol))
  }

  function Removed(b: Board, symbol: string): Board {
    Board(b.inner - {symbol}, WithoutSymbol(b.order, symbol),
          if symbol in b.inner && Counts(b.inner[symbol]) then Fold(b.retired, b.inner[symbol].snapshot.value)
            else b.retired)
  }

  function Banked(b: Board, symbol: string): Board {
    if symbol !in b.inner || b.inner[symbol].banked then b
    else
      var v := b.inner[symbol];
      b.(inner := b.inner[symbol := v.(banked := true)],
         retired := if v.snapshot.Some? then Fold(b.retired, v.snapshot.value) else b.retired)
  }

  function InOrder(inner: map<string, BotView>, order: seq<string>): seq<BotView> {
    if order == [] then []
    else InOrder(inner, order[..|order| - 1])
         + if order[|order| - 1] in inner then [inner[order[|order| - 1]]] else []
  }

  /** Lexicographic comparison of strings. */
  predicate StringLe(a: string, b: string) {
    a == [] || (b != [] && (a[0] < b[0] || (a[0] == b[0] && StringLe(a[1..], b[1..]))))
  }

  /** Running bots first, then by symbol. */
  predicate TabLe(a: BotView, b: BotView) {
    if a.status.Running? == b.status.Running? then StringLe(a.symbol, b.symbol) else a.status.Running?
  }

  function InsertByTab(views: seq<BotView>, v: BotView): seq<BotView> {
    if views == [] || TabLe(views[|views| - 1], v) then views + [v]
    else InsertByTab(views[..|views| - 1], v) + [views[|views| - 1]]
  }

  function SortByTab(views: seq<BotView>): seq<BotView> {
    if views == [] then [] else InsertByTab(SortByTab(views[..|views| - 1]), views[|views| - 1])
  }

  function Views(b: Board): seq<BotView> {
    SortByTab(InOrder(b.inner, b.order))
  }

  function Seed(t: RetiredTotals): Aggregate {
    Aggregate(t.realized, t.unrealized, t.fees, t.funding, t.net, SatAdd(0, t.events), SatAdd(0, t.fills), t.net,
              t.count)
  }

  function AddView(a: Aggregate, v: BotView): Aggregate {
    if !Counts(v) then a
    else
      var r := v.snapshot.value;
      Aggregate(a.realized + r.realized, a.unrealized + r.unrealized, a.fees + r.fees, a.funding + r.funding,
                a.net + r.net, SatAdd(a.events, r.events), SatAdd(a.fills, r.fills),
                if v.status.Rotated? then a.retiredNet + r.net else a.retiredNet,
                if v.status.Rotated? then a.retiredCount + 1 else a.retiredCount)
  }

  function Computed(views: seq<BotView>, retired: RetiredTotals): Aggregate {
    if views == [] then Seed(retired) else AddView(Computed(views[..|views| - 1], retired), views[|views| - 1])
  }

  function Saved(views: seq<BotView>, retired: RetiredTotals): Session {
    if views == [] then Session(retired, [])
    else
      var s, v := Saved(views[..|views| - 1], retired), views[|views| - 1];
      if !v.status.Rotated? then s.(roster := s.roster + [SessionBot(v.symbol, v.strategy, Tag(v.status))])
      else if Counts(v) then s.(retired := Fold(s.retired, v.snapshot.value)) else s
  }

  class SharedBotState {
    var inner: map<string, BotView>
    var order: seq<string>
    var retired: RetiredTotals

    function State(): Board
      reads this
    {
      Board(inner, order, retired)
    }

    constructor ()
      ensures State() == Board(map[], [], NONE_RETIRED) && InStep(State())
    {
      inner, order, retired := map[], [], NONE_RETIRED;
    }

    method Insert(symbol: string, view: BotView)
      modifies this
      ensures State() == Inserted(old(State()), symbol, view)
    {
      inner := inner[symbol := view];
      if symbol !in order {
        order := order + [symbol];
      }
    }

    /** Drops a bot, folding its profit into the retired totals unless that was done at rotation. */
    method Remove(symbol: string)
      modifies this
      ensures State() == Removed(old(State()), symbol)
    {
      if symbol in inner {
        var view := inner[symbol];
        inner := inner - {symbol};
        if !view.banked && view.snapshot.Some? {
          retired := Fold(retired, view.snapshot.value);
        }
      } else {
        assert inner - {symbol} == inner;
      }
      order := WithoutSymbol(order, symbol);
    }

    /** Folds a rotated bot's profit into the retired totals for good; the view stays, marked banked. */
    method BankRotated(symbol: string)
      modifies this
      ensures State() == Banked(old(State()), symbol)
    {
      if symbol in inner && !inner[symbol].banked {
        var v := inner[symbol];
        if v.snapshot.Some? {
          retired := Fold(retired, v.snapshot.value);
        }
        inner := inner[symbol := v.(banked := true)];
      }
    }

    method SetStatus(symbol: string, status: BotStatus)
      modifies this`inner
      ensures State() == StatusSet(old(State()), symbol, status)
    {
      if symbol in inner {
        inner := inner[symbol := inner[symbol].(status := status)];
      }
    }

    /** The session to persist: rotated bots in the retired totals, the others on the roster. */
    method SessionState() returns (s: Session)
      ensures s == Saved(Views(State()), retired)
    {
      var views := Views(State());
      var totals, roster, i := retired, [], 0;
      while i < |views|
        invariant 0 <= i <= |views|
        invariant Session(totals, roster) == Saved(views[..i], retired)
      {
        var v := views[i];
        assert views[..i + 1][..i] == views[..i];
        if v.status.Rotated? {
          if !v.banked && v.snapshot.Some? {
            totals := Fold(totals, v.snapshot.value);
          }
        } else {
          roster := roster + [SessionBot(v.symbol, v.strategy, Tag(v.status))];
        }
        i := i + 1;
      }
      assert views[..|views|] == views;
      s := Session(totals, roster);
    }

    method RestoreSession(s: Session) returns (symbols: seq<string>)
      modifies this`retired
      ensures State() == old(State()).(retired := s.retired)
      ensures |symbols| == |s.roster| && forall i :: 0 <= i < |symbols| ==> symbols[i] == s.roster[i].symbol
    {
      retired := s.retired;
      symbols := seq(|s.roster|, i requires 0 <= i < |s.roster| => s.roster[i].symbol);
    }

    /** The account summary over the views. */
    method Compute() returns (a: Aggregate)
      ensures a == Computed(Views(State()), retired)
    {
      var views := Views(State());
      a := Seed(retired);
      var i := 0;
      while i < |views|
        invariant 0 <= i <= |views| && a == Computed(views[..i], retired)
      {
        assert views[..i + 1][..i] == views[..i];
        a := AddView(a, views[i]);
        i := i + 1;
      }
      assert views[..|views|] == views;
    }
  }

  // ---------------------------------------------------------------------------------------------
  // What the views hold

  /** Profit and counts held by some views; the counts here are exact. */
  datatype Held = Held(realized: real, unrealized: real, fees: real, funding: real, net: real, events: nat,
                       fills: nat) {
    function Plus(h: Held): Held {
      Held(realized + h.realized, unrealized + h.unrealized, fees + h.fees, funding + h.funding, net + h.net,
           events + h.events, fills + h.fills)
    }
  }

  const HELD_NOTHING := Held(0.0, 0.0, 0.0, 0.0, 0.0, 0, 0)

  function HeldBy(v: BotView): Held {
    if !Counts(v) then HELD_NOTHING
    else
      var r := v.snapshot.value;
      Held(r.realized, r.unrealized, r.fees, r.funding, r.net, r.events, r.fills)
  }

  function HeldByAll(views: seq<BotView>): Held {
    if views == [] then HELD_NOTHING else HeldByAll(views[..|views| - 1]).Plus(HeldBy(views[|views| - 1]))
  }

  function Cap64(n: nat): nat {
    if n <= U64_MAX then n else U64_MAX
  }

  /** The grand totals as retired plus held, with the counts saturated once at the end. */
  function Shown(t: RetiredTotals, h: Held): (real, real, real, real, real, nat, nat) {
    (t.realized + h.realized, t.unrealized + h.unrealized, t.fees + h.fees, t.funding + h.funding, t.net + h.net,
     Cap64(t.events + h.events), Cap64(t.fills + h.fills))
  }

  /** However the additions saturate on the way, the summary is retired plus held. */
  lemma {:induction false} ComputedIsShown(views: seq<BotView>, retired: RetiredTotals)
    ensures Computed(views, retired).Totals() == Shown(retired, HeldByAll(views))
    decreases |views|
  {
    if views != [] {
      var init, v := views[..|views| - 1], views[|views| - 1];
      ComputedIsShown(init, retired);
      AddViewShown(Computed(init, retired), v, retired, HeldByAll(init));
    }
  }

  lemma AddViewShown(a: Aggregate, v: BotView, t: RetiredTotals, h: Held)
    requires a.Totals() == Shown(t, h)
    ensures AddView(a, v).Totals() == Shown(t, h.Plus(HeldBy(v)))
  {
  }

  /** Folding a report into the retired totals is holding it. */
  lemma FoldMoves(t: RetiredTotals, r: PaperReport, h: Held)
    ensures Shown(Fold(t, r), h)
            == Shown(t, h.Plus(Held(r.realized, r.unrealized, r.fees, r.funding, r.net, r.events, r.fills)))
  {
  }

  lemma HeldSnoc(views: seq<BotView>, v: BotView)
    ensures HeldByAll(views + [v]) == HeldByAll(views).Plus(HeldBy(v))
  {
    assert (views + [v])[..|views|] == views;
  }

  lemma PlusSwap(a: Held, b: Held, c: Held)
    ensures a.Plus(b).Plus(c) == a.Plus(c).Plus(b)
    ensures a.Plus(HELD_NOTHING) == a
  {
  }

  lemma {:induction false} InsertHolds(views: seq<BotView>, v: BotView)
    ensures HeldByAll(InsertByTab(views, v)) == HeldByAll(views).Plus(HeldBy(v))
    decreases |views|
  {
    hide Held.Plus, HeldBy;
    if views == [] || TabLe(views[|views| - 1], v) {
      HeldSnoc(views, v);
    } else {
      var init, last := views[..|views| - 1], views[|views| - 1];
      InsertHolds(init, v);
      HeldSnoc(InsertByTab(init, v), last);
      PlusSwap(HeldByAll(init), HeldBy(v), HeldBy(last));
    }
  }

  lemma {:induction false} SortHolds(views: seq<BotView>)
    ensures HeldByAll(SortByTab(views)) == HeldByAll(views)
    decreases |views|
  {
    if views != [] {
      SortHolds(views[..|views| - 1]);
      InsertHolds(SortByTab(views[..|views| - 1]), views[|views| - 1]);
    }
  }

  /** What the bots of the map hold, in tab order. */
  function HeldOn(inner: map<string, BotView>, order: seq<string>): Held {
    HeldByAll(InOrder(inner, order))
  }

  lemma TotalsOf(b: Board)
    ensures Computed(Views(b), b.retired).Totals() == Shown(b.retired, HeldOn(b.inner, b.order))
  {
    ComputedIsShown(Views(b), b.retired);
    SortHolds(InOrder(b.inner, b.order));
  }

  lemma InOrderSnoc(inner: map<string, BotView>, order: seq<string>)
    requires order != []
    ensures var init, s := order[..|order| - 1], order[|order| - 1];
            HeldOn(inner, order) == HeldOn(inner, init).Plus(if s in inner then HeldBy(inner[s]) else HELD_NOTHING)
  {
    var init, s := order[..|order| - 1], order[|order| - 1];
    if s in inner {
      HeldSnoc(InOrder(inner, init), inner[s]);
    } else {
      assert InOrder(inner, init) + [] == InOrder(inner, init);
      PlusSwap(HeldOn(inner, init), HELD_NOTHING, HELD_NOTHING);
    }
  }

  /** Changing bots that the order does not list changes nothing held. */
  lemma {:induction false} HeldElsewhere(inner: map<string, BotView>, inner': map<string, BotView>, order: seq<string>)
    requires forall s :: s in order ==> (s in inner <==> s in inner') && (s in inner ==> inner[s] == inner'[s])
    ensures HeldOn(inner', order) == HeldOn(inner, order)
    decreases |order|
  {
    if order != [] {
      hide HeldOn, HeldBy, Held.Plus;
      var init, s := order[..|order| - 1], order[|order| - 1];
      assert s in order && forall r :: r in init ==> r in order;
      HeldElsewhere(inner, inner', init);
      InOrderSnoc(inner, order);
      InOrderSnoc(inner', order);
    } else {
      assert InOrder(inner, order) == InOrder(inner', order);
    }
  }

  /** Silencing one listed bot takes exactly its holding away. */
  lemma {:induction false} HeldWithout(inner: map<string, BotView>, symbol: string, v: BotView, order: seq<string>)
    requires NoneTwice(order) && symbol in order && symbol in inner && HeldBy(v) == HELD_NOTHING
    ensures HeldOn(inner, order) == HeldOn(inner[symbol := v], order).Plus(HeldBy(inner[symbol]))
    decreases |order|
  {
    hide HeldOn, HeldBy, Held.Plus;
    var init, s, inner' := order[..|order| - 1], order[|order| - 1], inner[symbol := v];
    InOrderSnoc(inner, order);
    InOrderSnoc(inner', order);
    if s == symbol {
      HeldElsewhere(inner, inner', init);
      PlusSwap(HeldOn(inner, init), HELD_NOTHING, HeldBy(inner[symbol]));
    } else {
      assert order == init + [s];
      HeldWithout(inner, symbol, v, init);
      PlusSwap(HeldOn(inner', init), HeldBy(inner[symbol]), if s in inner then HeldBy(inner[s]) else HELD_NOTHING);
    }
  }

  // ---------------------------------------------------------------------------------------------
  // Conservation

  lemma BankInStep(b: Board, symbol: string)
    requires InStep(b)
    ensures InStep(Banked(b, symbol))
  {
  }

  /** Banking a bot moves its profit into the retired totals and leaves every account total as it was. */
  lemma BankConserves(b: Board, symbol: string)
    requires InStep(b)
    ensures InStep(Banked(b, symbol))
    ensures Computed(Views(Banked(b, symbol)), Banked(b, symbol).retired).Totals()
            == Computed(Views(b), b.retired).Totals()
  {
    hide Computed, Views, HeldOn, Shown, Fold;
    var b' := Banked(b, symbol);
    BankInStep(b, symbol);
    TotalsOf(b);
    TotalsOf(b');
    if symbol in b.inner && !b.inner[symbol].banked {
      var v := b.inner[symbol];
      HeldWithout(b.inner, symbol, v.(banked := true), b.order);
      if v.snapshot.Some? {
        FoldMoves(b.retired, v.snapshot.value, HeldOn(b'.inner, b.order));
      } else {
        PlusSwap(HeldOn(b'.inner, b.order), HELD_NOTHING, HELD_NOTHING);
      }
    }
  }

  lemma BankTwice(b: Board, symbol: string)
    ensures Banked(Banked(b, symbol), symbol) == Banked(b, symbol)
  {
  }

  lemma {:induction false} FilterUnique(order: seq<string>, symbol: string)
    requires NoneTwice(order)
    ensures NoneTwice(WithoutSymbol(order, symbol))
  {
    if order != [] {
      FilterUnique(order[1..], symbol);
      var rest := WithoutSymbol(order[1..], symbol);
      assert forall j :: 0 <= j < |rest| ==> rest[j] in rest;
      assert forall s :: s in rest ==> s in order[1..];
    }
  }

  lemma {:induction false} FilterSnoc(order: seq<string>, s: string, symbol: string)
    ensures WithoutSymbol(order + [s], symbol)
            == if s != symbol then WithoutSymbol(order, symbol) + [s] else WithoutSymbol(order, symbol)
  {
    if order == [] {
      assert ([] + [s])[1..] == [];
    } else {
      assert (order + [s])[1..] == order[1..] + [s];
      FilterSnoc(order[1..], s, symbol);
    }
  }

  lemma InOrderAppend(inner: map<string, BotView>, init: seq<string>, s: string)
    ensures HeldOn(inner, init + [s]) == HeldOn(inner, init).Plus(if s in inner then HeldBy(inner[s]) else HELD_NOTHING)
  {
    hide HeldOn, HeldBy, Held.Plus;
    InOrderSnoc(inner, init + [s]);
    assert (init + [s])[..|init|] == init;
  }

  /** A bot that holds nothing may be left out of the order. */
  lemma {:induction false} HeldFiltered(inner: map<string, BotView>, symbol: string, order: seq<string>)
    requires symbol in inner ==> HeldBy(inner[symbol]) == HELD_NOTHING
    ensures HeldOn(inner, WithoutSymbol(order, symbol)) == HeldOn(inner, order)
    decreases |order|
  {
    if order != [] {
      hide HeldOn, HeldBy, Held.Plus, WithoutSymbol;
      var init, s := order[..|order| - 1], order[|order| - 1];
      HeldFiltered(inner, symbol, init);
      assert init + [s] == order;
      FilterSnoc(init, s, symbol);
      InOrderAppend(inner, init, s);
      InOrderAppend(inner, WithoutSymbol(init, symbol), s);
      PlusSwap(HeldOn(inner, init), HELD_NOTHING, HELD_NOTHING);
    }
  }

  /** Removing a bot folds in what it still held and leaves every account total as it was. */
  lemma RemoveConserves(b: Board, symbol: string)
    requires InStep(b)
    ensures InStep(Removed(b, symbol))
    ensures Computed(Views(Removed(b, symbol)), Removed(b, symbol).retired).Totals()
            == Computed(Views(b), b.retired).Totals()
  {
    hide Computed, Views, HeldOn, Shown, Fold;
    var b' := Removed(b, symbol);
    FilterUnique(b.order, symbol);
    TotalsOf(b);
    TotalsOf(b');
    HeldFiltered(b'.inner, symbol, b.order);
    if symbol in b.inner {
      var v := b.inner[symbol];
      var silent := b.inner[symbol := v.(banked := true)];
      HeldWithout(b.inner, symbol, v.(banked := true), b.order);
      HeldFiltered(silent, symbol, b.order);
      HeldElsewhere(silent, b'.inner, b'.order);
      if Counts(v) {
        FoldMoves(b.retired, v.snapshot.value, HeldOn(b'.inner, b.order));
      } else {
        PlusSwap(HeldOn(b'.inner, b.order), HELD_NOTHING, HELD_NOTHING);
      }
    } else {
      HeldElsewhere(b.inner, b'.inner, b.order);
    }
  }

  datatype Departure = Bank(symbol: string) | Remove(gone: string)

  function Departed(b: Board, ds: seq<Departure>): Board
    decreases |ds|
  {
    if ds == [] then b
    else
      var b1 := Departed(b, ds[..|ds| - 1]);
      match ds[|ds| - 1]
      case Bank(s) => Banked(b1, s)
      case Remove(s) => Removed(b1, s)
  }

  /** Banking and removing bots, in any order and any number of times, leaves every profit total and
      every event and fill count of the account summary unchanged. */
  lemma {:induction false} RotationConserves(b: Board, ds: seq<Departure>)
    requires InStep(b)
    ensures InStep(Departed(b, ds))
    ensures Computed(Views(Departed(b, ds)), Departed(b, ds).retired).Totals() == Computed(Views(b), b.retired).Totals()
    decreases |ds|
  {
    if ds != [] {
      hide Computed, Views, Banked, Removed, InStep, Aggregate.Totals;
      var b1 := Departed(b, ds[..|ds| - 1]);
      RotationConserves(b, ds[..|ds| - 1]);
      match ds[|ds| - 1]
      case Bank(s) => BankConserves(b1, s);
      case Remove(s) => RemoveConserves(b1, s);
    }
  }

  // ---------------------------------------------------------------------------------------------
  // What is displayed is what is saved

  /** The departed line on the dashboard is the line that a restart will restore. */
  lemma {:induction false} RetiredLineIsSaved(views: seq<BotView>, retired: RetiredTotals)
    ensures Computed(views, retired).retiredNet == Saved(views, retired).retired.net
    ensures Computed(views, retired).retiredCount == Saved(views, retired).retired.count
    decreases |views|
  {
    if views != [] {
      RetiredLineIsSaved(views[..|views| - 1], retired);
    }
  }

  /** The views that go on the roster. */
  function Staying(views: seq<BotView>): seq<BotView> {
    if views == [] then []
    else Staying(views[..|views| - 1]) + if views[|views| - 1].status.Rotated? then [] else [views[|views| - 1]]
  }

  /** Across a restart nothing is lost: the saved retired totals and what the roster's bots still hold
      make up the totals shown before it. */
  lemma {:induction false} RestartConserves(views: seq<BotView>, retired: RetiredTotals)
    ensures Shown(Saved(views, retired).retired, HeldByAll(Staying(views))) == Shown(retired, HeldByAll(views))
    ensures |Saved(views, retired).roster| == |Staying(views)|
    decreases |views|
  {
    if views != [] {
      var init, v := views[..|views| - 1], views[|views| - 1];
      RestartConserves(init, retired);
      if v.status.Rotated? {
        assert Staying(views) == Staying(init);
        if Counts(v) {
          FoldMoves(Saved(init, retired).retired, v.snapshot.value, HeldByAll(Staying(init)));
        }
        ShownGrows(Saved(init, retired).retired, HeldByAll(Staying(init)), retired, HeldByAll(init), HeldBy(v));
      } else {
        HeldSnoc(Staying(init), v);
        ShownGrows(Saved(init, retired).retired, HeldByAll(Staying(init)), retired, HeldByAll(init), HeldBy(v));
      }
    }
  }

  lemma ShownGrows(t: RetiredTotals, h: Held, t': RetiredTotals, h': Held, more: Held)
    requires Shown(t, h) == Shown(t', h')
    ensures Shown(t, h.Plus(more)) == Shown(t', h'.Plus(more))
  {
  }

  // ---------------------------------------------------------------------------------------------
  // Arrivals

  /** Replacing one listed bot exchanges its holding and moves no other. */
  lemma HeldReplaced(inner: map<string, BotView>, symbol: string, v: BotView, order: seq<string>) returns (rest: Held)
    requires NoneTwice(order) && symbol in order && symbol in inner
    ensures HeldOn(inner, order) == rest.Plus(HeldBy(inner[symbol]))
    ensures HeldOn(inner[symbol := v], order) == rest.Plus(HeldBy(v))
  {
    hide HeldOn, Held.Plus, NoneTwice;
    var silent := v.(banked := true);
    rest := HeldOn(inner[symbol := silent], order);
    HeldWithout(inner, symbol, silent, order);
    HeldWithout(inner[symbol := v], symbol, silent, order);
    assert inner[symbol := v][symbol := silent] == inner[symbol := silent];
  }

  /** What the bot shown under this symbol holds, nothing if there is none. */
  function HeldUnder(b: Board, symbol: string): Held {
    if symbol in b.inner then HeldBy(b.inner[symbol]) else HELD_NOTHING
  }

  lemma InsertInStep(b: Board, symbol: string, v: BotView)
    requires InStep(b)
    ensures InStep(Inserted(b, symbol, v))
  {
  }

  /** Inserting a view exchanges what was held under its symbol for what it holds. */
  lemma InsertExchanges(b: Board, symbol: string, v: BotView) returns (rest: Held)
    requires InStep(b)
    ensures HeldOn(b.inner, b.order) == rest.Plus(HeldUnder(b, symbol))
    ensures HeldOn(Inserted(b, symbol, v).inner, Inserted(b, symbol, v).order) == rest.Plus(HeldBy(v))
  {
    hide HeldOn, HeldBy, Held.Plus;
    if symbol in b.inner {
      rest := HeldReplaced(b.inner, symbol, v, b.order);
    } else {
      rest := HeldOn(b.inner, b.order);
      PlusSwap(rest, HELD_NOTHING, HELD_NOTHING);
      InOrderAppend(b.inner[symbol := v], b.order, symbol);
      HeldElsewhere(b.inner, b.inner[symbol := v], b.order);
    }
  }

  /** Inserting keeps views and order in step.  It leaves the account totals as they were if the new view
      holds what the one it replaces held, and the profit totals only then: a bot replaced before it was
      banked takes its profit with it. */
  lemma InsertMoves(b: Board, symbol: string, v: BotView)
    requires InStep(b)
    ensures InStep(Inserted(b, symbol, v))
    ensures var b', old_ := Inserted(b, symbol, v), HeldUnder(b, symbol);
            var before, after := Computed(Views(b), b.retired).Totals(), Computed(Views(b'), b'.retired).Totals();
            && (HeldBy(v) == old_ ==> after == before)
            && after.0 - before.0 == HeldBy(v).realized - old_.realized
            && after.1 - before.1 == HeldBy(v).unrealized - old_.unrealized
            && after.2 - before.2 == HeldBy(v).fees - old_.fees
            && after.3 - before.3 == HeldBy(v).funding - old_.funding
            && after.4 - before.4 == HeldBy(v).net - old_.net
  {
    hide Computed, Views, HeldOn, HeldBy, HeldUnder, Inserted, InStep;
    var b' := Inserted(b, symbol, v);
    InsertInStep(b, symbol, v);
    var rest := InsertExchanges(b, symbol, v);
    TotalsOf(b);
    TotalsOf(b');
    InsertedRetired(b, symbol, v);
  }

  lemma InsertedRetired(b: Board, symbol: string, v: BotView)
    ensures Inserted(b, symbol, v).retired == b.retired
  {
  }

  /** A change of status moves no money and keeps views and order in step. */
  lemma StatusConserves(b: Board, symbol: string, status: BotStatus)
    requires InStep(b)
    ensures InStep(StatusSet(b, symbol, status))
    ensures var b' := StatusSet(b, symbol, status);
            Computed(Views(b'), b'.retired).Totals() == Computed(Views(b), b.retired).Totals()
  {
    var b' := StatusSet(b, symbol, status);
    if symbol in b.inner {
      hide Computed, Views, HeldOn, Shown, Held.Plus;
      var rest := HeldReplaced(b.inner, symbol, b.inner[symbol].(status := status), b.order);
      TotalsOf(b);
      TotalsOf(b');
    }
  }

  // ---------------------------------------------------------------------------------------------
  // Restart

  predicate NoNamesake(views: seq<BotView>) {
    forall i, j :: 0 <= i < j < |views| ==> views[i].symbol != views[j].symbol
  }

  /** The bots inserted one after the other, each under its own symbol. */
  function Reinserted(b: Board, views: seq<BotView>): Board {
    if views == [] then b
    else
      var v := views[|views| - 1];
      Inserted(Reinserted(b, views[..|views| - 1]), v.symbol, v)
  }

  function SymbolsOf(views: seq<BotView>): set<string> {
    if views == [] then {} else SymbolsOf(views[..|views| - 1]) + {views[|views| - 1].symbol}
  }

  lemma {:induction false} SymbolIn(views: seq<BotView>, s: string) returns (i: nat)
    requires s in SymbolsOf(views)
    ensures i < |views| && views[i].symbol == s
    decreases |views|
  {
    if views[|views| - 1].symbol == s {
      i := |views| - 1;
    } else {
      i := SymbolIn(views[..|views| - 1], s);
    }
  }

  lemma {:induction false} ReinsertedKeys(retired: RetiredTotals, views: seq<BotView>)
    ensures Reinserted(Board(map[], [], retired), views).inner.Keys == SymbolsOf(views)
    ensures Reinserted(Board(map[], [], retired), views).retired == retired
    decreases |views|
  {
    if views != [] {
      ReinsertedKeys(retired, views[..|views| - 1]);
    }
  }

  lemma {:induction false} ReinsertedHolds(retired: RetiredTotals, views: seq<BotView>)
    requires NoNamesake(views)
    ensures var b := Reinserted(Board(map[], [], retired), views);
            InStep(b) && b.retired == retired && HeldOn(b.inner, b.order) == HeldByAll(views)
    decreases |views|
  {
    ReinsertedKeys(retired, views);
    if views == [] {
      assert InOrder(map[], []) == [];
    } else {
      hide HeldOn, HeldBy, Held.Plus, Inserted, InStep, SymbolsOf;
      var init, v := views[..|views| - 1], views[|views| - 1];
      var b := Reinserted(Board(map[], [], retired), init);
      ReinsertedHolds(retired, init);
      ReinsertedKeys(retired, init);
      if v.symbol in b.inner {
        var i := SymbolIn(init, v.symbol);
        assert false;
      }
      var rest := InsertExchanges(b, v.symbol, v);
      PlusSwap(rest, HELD_NOTHING, HELD_NOTHING);
      InsertInStep(b, v.symbol, v);
    }
  }

  lemma {:induction false} StayingDistinct(views: seq<BotView>)
    requires NoNamesake(views)
    ensures NoNamesake(Staying(views)) && forall v :: v in Staying(views) ==> v in views
    decreases |views|
  {
    if views != [] {
      var init, kept := views[..|views| - 1], Staying(views[..|views| - 1]);
      StayingDistinct(init);
      assert forall i :: 0 <= i < |kept| ==> kept[i] in kept;
    }
  }

  lemma {:induction false} RosterIsStaying(views: seq<BotView>, retired: RetiredTotals)
    ensures var roster, staying := Saved(views, retired).roster, Staying(views);
            |roster| == |staying| && forall i :: 0 <= i < |roster| ==>
              roster[i].symbol == staying[i].symbol && roster[i].strategy == staying[i].strategy
    decreases |views|
  {
    if views != [] {
      RosterIsStaying(views[..|views| - 1], retired);
    }
  }

  /** A restart changes no account total: restoring the saved session and then inserting the bots of its
      roster again, with what they held, shows what was shown before.  The roster names just these bots. */
  lemma RestartShowsTheSame(views: seq<BotView>, retired: RetiredTotals)
    requires NoNamesake(views)
    ensures var saved := Saved(views, retired);
            var b := Reinserted(Board(map[], [], saved.retired), Staying(views));
            && InStep(b)
            && Computed(Views(b), b.retired).Totals() == Computed(views, retired).Totals()
            && |saved.roster| == |Staying(views)|
            && forall i :: 0 <= i < |saved.roster| ==> saved.roster[i].symbol == Staying(views)[i].symbol
  {
    hide Computed, Views, HeldOn, Shown, Saved, Staying, InStep, Reinserted;
    StayingDistinct(views);
    RosterIsStaying(views, retired);
    var b := Reinserted(Board(map[], [], Saved(views, retired).retired), Staying(views));
    ReinsertedHolds(Saved(views, retired).retired, Staying(views));
    TotalsOf(b);
    RestartConserves(views, retired);
    ComputedIsShown(views, retired);
  }

  // ---------------------------------------------------------------------------------------------
  // The views of a board have no namesakes

  /** Every bot is filed under its own symbol. */
  ghost predicate Named(b: Board) {
    forall s :: s in b.inner ==> b.inner[s].symbol == s
  }

  lemma {:induction false} InOrderDistinct(inner: map<string, BotView>, order: seq<string>)
    requires NoneTwice(order) && forall s :: s in inner ==> inner[s].symbol == s
    ensures NoNamesake(InOrder(inner, order)) && forall v :: v in InOrder(inner, order) ==> v.symbol in order
    decreases |order|
  {
    if order != [] {
      var init, views := order[..|order| - 1], InOrder(inner, order[..|order| - 1]);
      InOrderDistinct(inner, init);
      assert forall i :: 0 <= i < |views| ==> views[i] in views;
      assert forall s :: s in init ==> s in order && s != order[|order| - 1];
    }
  }

  lemma NoNamesakeSnoc(views: seq<BotView>, v: BotView)
    requires NoNamesake(views) && forall w :: w in views ==> w.symbol != v.symbol
    ensures NoNamesake(views + [v])
  {
    assert forall i :: 0 <= i < |views| ==> views[i] in views;
  }

  lemma NoNamesakeInit(views: seq<BotView>)
    requires NoNamesake(views) && views != []
    ensures NoNamesake(views[..|views| - 1])
    ensures forall w :: w in views[..|views| - 1] ==> w in views && w.symbol != views[|views| - 1].symbol
    ensures forall w :: w in views <==> w in views[..|views| - 1] || w == views[|views| - 1]
  {
    assert views == views[..|views| - 1] + [views[|views| - 1]];
  }

  lemma {:induction false} InsertDistinct(views: seq<BotView>, v: BotView)
    requires NoNamesake(views) && forall w :: w in views ==> w.symbol != v.symbol
    ensures NoNamesake(InsertByTab(views, v)) && forall w :: w in InsertByTab(views, v) <==> w in views || w == v
    decreases |views|
  {
    hide NoNamesake, TabLe;
    if views == [] || TabLe(views[|views| - 1], v) {
      NoNamesakeSnoc(views, v);
    } else {
      var init, last := views[..|views| - 1], views[|views| - 1];
      NoNamesakeInit(views);
      InsertDistinct(init, v);
      NoNamesakeSnoc(InsertByTab(init, v), last);
    }
  }

  lemma {:induction false} SortDistinct(views: seq<BotView>)
    requires NoNamesake(views)
    ensures NoNamesake(SortByTab(views)) && forall w :: w in SortByTab(views) <==> w in views
    decreases |views|
  {
    hide NoNamesake, InsertByTab;
    if views != [] {
      NoNamesakeInit(views);
      SortDistinct(views[..|views| - 1]);
      InsertDistinct(SortByTab(views[..|views| - 1]), views[|views| - 1]);
    } else {
      assert SortByTab(views) == views;
    }
  }

  /** So a restart of the dashboard changes no account total. */
  lemma BoardRestarts(b: Board)
    requires InStep(b) && Named(b)
    ensures var saved := Saved(Views(b), b.retired);
            var b' := Reinserted(Board(map[], [], saved.retired), Staying(Views(b)));
            InStep(b') && Computed(Views(b'), b'.retired).Totals() == Computed(Views(b), b.retired).Totals()
  {
    hide Computed, Saved, Staying, Reinserted, NoNamesake, InOrder, SortByTab;
    InOrderDistinct(b.inner, b.order);
    SortDistinct(InOrder(b.inner, b.order));
    RestartShowsTheSame(Views(b), b.retired);
  }
}
