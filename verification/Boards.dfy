/** What each call does to the dashboard, bot by bot: what is listed, what is changed, and by how much the
    retired line grows. */
module Boards {
  import opened Core
  import opened Banking

  /** The retired line with one more report in it. */
  predicate GrownBy(t: RetiredTotals, t': RetiredTotals, r: PaperReport) {
    && t'.realized == t.realized + r.realized && t'.unrealized == t.unrealized + r.unrealized
    && t'.fees == t.fees + r.fees && t'.funding == t.funding + r.funding && t'.net == t.net + r.net
    && t'.events == (if t.events + r.events < U64_MAX then t.events + r.events else U64_MAX)
    && t'.fills == (if t.fills + r.fills < U64_MAX then t.fills + r.fills else U64_MAX)
    && t'.count == t.count + 1
  }

  /** Every bot but this one is listed as before, with the same view. */
  ghost predicate OthersSame(b: Board, b': Board, symbol: string) {
    forall s :: s != symbol ==> (s in b.inner <==> s in b'.inner) && (s in b.inner ==> b'.inner[s] == b.inner[s])
  }

  lemma {:induction false} WithoutAbsent(order: seq<string>, symbol: string)
    requires symbol !in order
    ensures WithoutSymbol(order, symbol) == order
  {
    if order != [] {
      WithoutAbsent(order[1..], symbol);
    }
  }

  lemma {:induction false} WithoutListed(order: seq<string>, symbol: string, i: nat)
    requires NoneTwice(order) && i < |order| && order[i] == symbol
    ensures WithoutSymbol(order, symbol) == order[..i] + order[i + 1..]
  {
    if i == 0 {
      WithoutAbsent(order[1..], symbol);
    } else {
      WithoutListed(order[1..], symbol, i - 1);
    }
  }

  /** After a removal the bot is in neither the map nor the tab order; every other view is the same and the
      others keep their order; the retired line grows by the bot's report exactly if it had one not yet
      banked; and a second removal changes nothing. */
  lemma RemovedExactly(b: Board, symbol: string, i: nat)
    requires InStep(b)
    ensures var b' := Removed(b, symbol);
            && symbol !in b'.inner && symbol !in b'.order && OthersSame(b, b', symbol)
            && (symbol !in b.order ==> b'.order == b.order)
            && (i < |b.order| && b.order[i] == symbol ==> b'.order == b.order[..i] + b.order[i + 1..])
            && (if symbol in b.inner && b.inner[symbol].snapshot.Some? && !b.inner[symbol].banked
                then GrownBy(b.retired, b'.retired, b.inner[symbol].snapshot.value) else b'.retired == b.retired)
            && Removed(b', symbol) == b'
  {
    var b' := Removed(b, symbol);
    if symbol !in b.order {
      WithoutAbsent(b.order, symbol);
    }
    if i < |b.order| && b.order[i] == symbol {
      WithoutListed(b.order, symbol, i);
    }
    WithoutAbsent(b'.order, symbol);
    assert b'.inner - {symbol} == b'.inner;
  }

  /** Banking marks the bot's view and changes nothing else about it, nor any other view, nor the tab order;
      the retired line grows by its report exactly if it had one not yet banked. */
  lemma BankedExactly(b: Board, symbol: string)
    ensures var b' := Banked(b, symbol);
            && OthersSame(b, b', symbol) && b'.order == b.order
            && (symbol in b.inner <==> symbol in b'.inner)
            && (symbol in b.inner ==>
                  var v, v' := b.inner[symbol], b'.inner[symbol];
                  v'.banked && v' == BotView(v.symbol, v.strategy, v.status, v.snapshot, true))
            && (if symbol in b.inner && b.inner[symbol].snapshot.Some? && !b.inner[symbol].banked
                then GrownBy(b.retired, b'.retired, b.inner[symbol].snapshot.value) else b'.retired == b.retired)
  {
  }

  /** After an insertion the new view is shown under its symbol, in the old one's place in the tab order or
      last; every other view and the retired line are the same. */
  lemma InsertedExactly(b: Board, symbol: string, v: BotView)
    ensures var b' := Inserted(b, symbol, v);
            && symbol in b'.inner && b'.inner[symbol] == v && OthersSame(b, b', symbol) && b'.retired == b.retired
            && (symbol in b.order ==> b'.order == b.order)
            && (symbol !in b.order ==> |b'.order| == |b.order| + 1 && b'.order[..|b.order|] == b.order
                                       && b'.order[|b.order|] == symbol)
  {
  }

  /** A change of status changes the status of a listed bot and nothing else. */
  lemma StatusExactly(b: Board, symbol: string, status: BotStatus)
    ensures var b' := StatusSet(b, symbol, status);
            && OthersSame(b, b', symbol) && b'.order == b.order && b'.retired == b.retired
            && (symbol in b.inner <==> symbol in b'.inner)
            && (symbol in b.inner ==>
                  var v, v' := b.inner[symbol], b'.inner[symbol];
                  v' == BotView(v.symbol, v.strategy, status, v.snapshot, v.banked))
  {
  }

  // ---------------------------------------------------------------------------------------------
  // The tabs

  /** One string is the start of the other, or smaller at the first place where they differ. */
  ghost predicate NotAfter(a: string, b: string) {
    (|a| <= |b| && a == b[..|a|])
    || exists i :: 0 <= i < |a| && i < |b| && a[..i] == b[..i] && a[i] < b[i]
  }

  lemma {:induction false} StringLeIs(a: string, b: string)
    ensures StringLe(a, b) <==> NotAfter(a, b)
  {
    if a != [] && b != [] {
      StringLeIs(a[1..], b[1..]);
      if a[0] == b[0] {
        if NotAfter(a[1..], b[1..]) {
          TailsCompare(a, b);
        }
        if NotAfter(a, b) {
          HeadsCompare(a, b);
        }
      } else if a[0] < b[0] {
        assert a[..0] == b[..0];
      } else if NotAfter(a, b) {
        DifferAtHead(a, b);
      }
    }
  }

  lemma TailsCompare(a: string, b: string)
    requires a != [] && b != [] && a[0] == b[0] && NotAfter(a[1..], b[1..])
    ensures NotAfter(a, b)
  {
    if |a| <= |b| && a[1..] == b[1..][..|a| - 1] {
      assert a == [a[0]] + a[1..] && b[..|a|] == [b[0]] + b[1..][..|a| - 1];
    } else {
      var i :| 0 <= i < |a[1..]| && i < |b[1..]| && a[1..][..i] == b[1..][..i] && a[1..][i] < b[1..][i];
      assert a[..i + 1] == [a[0]] + a[1..][..i] && b[..i + 1] == [b[0]] + b[1..][..i];
      assert a[i + 1] < b[i + 1];
    }
  }

  lemma HeadsCompare(a: string, b: string)
    requires a != [] && b != [] && a[0] == b[0] && NotAfter(a, b)
    ensures NotAfter(a[1..], b[1..])
  {
    if |a| <= |b| && a == b[..|a|] {
      assert a[1..] == b[..|a|][1..] == b[1..][..|a| - 1];
    } else {
      var i :| 0 <= i < |a| && i < |b| && a[..i] == b[..i] && a[i] < b[i];
      assert i > 0 && a[1..][..i - 1] == a[..i][1..] == b[..i][1..] == b[1..][..i - 1];
      assert a[1..][i - 1] < b[1..][i - 1];
    }
  }

  lemma DifferAtHead(a: string, b: string)
    requires a != [] && b != [] && NotAfter(a, b)
    ensures a[0] == b[0] || a[0] < b[0]
  {
    if |a| <= |b| && a == b[..|a|] {
      assert a[0] == b[..|a|][0];
    } else {
      var i :| 0 <= i < |a| && i < |b| && a[..i] == b[..i] && a[i] < b[i];
      if i > 0 {
        assert a[..i][0] == b[..i][0];
      }
    }
  }

  /** Running bots before the others, and by symbol within each kind. */
  ghost predicate TabbedRight(views: seq<BotView>) {
    forall i, j :: 0 <= i < j < |views| ==>
      && (views[j].status.Running? ==> views[i].status.Running?)
      && (views[i].status.Running? == views[j].status.Running? ==> NotAfter(views[i].symbol, views[j].symbol))
  }

  predicate TabSorted(views: seq<BotView>) {
    forall i, j :: 0 <= i < j < |views| ==> TabLe(views[i], views[j])
  }

  lemma {:induction false} StringLeTotal(a: string, b: string)
    ensures StringLe(a, b) || StringLe(b, a)
  {
    if a != [] && b != [] {
      StringLeTotal(a[1..], b[1..]);
    }
  }

  lemma {:induction false} StringLeTrans(a: string, b: string, c: string)
    requires StringLe(a, b) && StringLe(b, c)
    ensures StringLe(a, c)
  {
    if a != [] && b != [] && c != [] && a[0] == b[0] == c[0] {
      StringLeTrans(a[1..], b[1..], c[1..]);
    }
  }

  lemma TabOrder(u: BotView, v: BotView, w: BotView)
    ensures TabLe(u, v) || TabLe(v, u)
    ensures TabLe(u, v) && TabLe(v, w) ==> TabLe(u, w)
  {
    StringLeTotal(u.symbol, v.symbol);
    if StringLe(u.symbol, v.symbol) && StringLe(v.symbol, w.symbol) {
      StringLeTrans(u.symbol, v.symbol, w.symbol);
    }
  }

  lemma {:induction false} InsertTabs(views: seq<BotView>, v: BotView)
    requires TabSorted(views)
    ensures TabSorted(InsertByTab(views, v))
    ensures forall w :: w in InsertByTab(views, v) <==> w in views || w == v
    decreases |views|
  {
    hide TabLe;
    if views == [] || TabLe(views[|views| - 1], v) {
      forall i | 0 <= i < |views|
        ensures TabLe(views[i], v)
      {
        if i < |views| - 1 {
          TabOrder(views[i], views[|views| - 1], v);
        }
      }
    } else {
      var init, last := views[..|views| - 1], views[|views| - 1];
      assert views == init + [last];
      InsertTabs(init, v);
      var r := InsertByTab(init, v);
      TabOrder(v, last, v);
      forall i | 0 <= i < |r|
        ensures TabLe(r[i], last)
      {
        assert r[i] in r;
        if r[i] != v {
          var k :| 0 <= k < |init| && init[k] == r[i];
          assert TabLe(views[k], views[|views| - 1]);
        }
      }
    }
  }

  lemma {:induction false} SortTabs(views: seq<BotView>)
    ensures TabSorted(SortByTab(views)) && forall w :: w in SortByTab(views) <==> w in views
    decreases |views|
  {
    hide TabLe, InsertByTab;
    if views != [] {
      var init, last := views[..|views| - 1], views[|views| - 1];
      assert views == init + [last];
      SortTabs(init);
      InsertTabs(SortByTab(init), last);
    }
  }

  lemma {:induction false} InOrderHolds(inner: map<string, BotView>, order: seq<string>)
    ensures forall v :: v in InOrder(inner, order) <==> exists s :: s in order && s in inner && inner[s] == v
    decreases |order|
  {
    if order != [] {
      var init, last := order[..|order| - 1], order[|order| - 1];
      assert order == init + [last];
      InOrderHolds(inner, init);
    }
  }

  /** The tabs show just the bots of the board, the running ones first, each kind by symbol. */
  lemma TabsInOrder(b: Board)
    requires InStep(b)
    ensures TabbedRight(Views(b))
    ensures forall v :: v in Views(b) <==> exists s :: s in b.inner && b.inner[s] == v
  {
    hide SortByTab, InOrder, StringLe, NotAfter;
    SortTabs(InOrder(b.inner, b.order));
    InOrderHolds(b.inner, b.order);
    var views := Views(b);
    forall i, j | 0 <= i < j < |views|
      ensures (views[j].status.Running? ==> views[i].status.Running?)
              && (views[i].status.Running? == views[j].status.Running? ==> NotAfter(views[i].symbol, views[j].symbol))
    {
      assert TabLe(views[i], views[j]);
      StringLeIs(views[i].symbol, views[j].symbol);
    }
    forall v
      ensures v in views <==> exists s :: s in b.inner && b.inner[s] == v
    {
      assert v in views <==> exists s :: s in b.order && s in b.inner && b.inner[s] == v;
    }
  }

  // ---------------------------------------------------------------------------------------------
  // The saved session

  /** How a status is saved. */
  predicate SavedAs(status: BotStatus, tag: string) {
    tag == if status.Running? then "on" else if status.Starting? then "starting"
           else if status.Restarting? then "restarting" else "off"
  }

  /** The roster lists exactly the views that are not rotated, in tab order, each with its symbol, strategy
      and status. */
  lemma {:induction false} RosterSays(views: seq<BotView>, retired: RetiredTotals)
    ensures var roster, staying := Saved(views, retired).roster, Staying(views);
            && |roster| == |staying|
            && (forall i :: 0 <= i < |roster| ==>
                  && roster[i].symbol == staying[i].symbol && roster[i].strategy == staying[i].strategy
                  && SavedAs(staying[i].status, roster[i].tag))
            && (forall v :: v in staying <==> v in views && v.status != Rotated)
    decreases |views|
  {
    if views != [] {
      var init, last := views[..|views| - 1], views[|views| - 1];
      assert views == init + [last];
      RosterSays(init, retired);
    }
  }
}
