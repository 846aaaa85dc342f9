/** What a cancel keeps away.  It withdraws every operation still in the queue that carries its id, but
    not those applied at the same event: they have left the queue before the cancel is. */
module Cancels {
  import opened Decimals
  import opened Core
  import opened Venue
  import opened Matching
  import opened Lifecycle
  import opened Queue
  import opened Runs
  import opened Cover
  import opened Lifetime

  predicate RestsUnder(live: seq<LiveQuote>, id: QuoteId) {
    exists i :: 0 <= i < |live| && live[i].id == id
  }

  predicate FilledAs(fills: seq<Fill>, id: QuoteId) {
    exists i :: 0 <= i < |fills| && fills[i].quoteId == id
  }

  // ---------------------------------------------------------------------------------------------
  // One operation

  /** The operation carries the id, and the gates admit its order to rest. */
  predicate Puts(cfg: SimConfig, s: Sim, p: PendingOp, id: QuoteId) {
    match p.op
    case PlaceOp(intent, o) =>
      && (if o.Some? then o.value else s.nextId) == id
      && !intent.tif.Immediate() && Verdict(cfg, s, intent).None?
    case ReplaceOp(r, intent) => r == id && !intent.tif.Immediate() && Verdict(cfg, Facing(s, p), intent).None?
    case _ => false
  }

  /** The operation leaves nothing under the id: a cancel, or an admitted immediate replace of the only
      order there. */
  predicate TakesAway(cfg: SimConfig, s: Sim, p: PendingOp, id: QuoteId) {
    match p.op
    case PlaceOp(_, _) => false
    case ReplaceOp(r, intent) =>
      && r == id && intent.tif.Immediate()
      && Verdict(cfg, Facing(s, p), intent).None? && !RestsUnder(Facing(s, p).live, id)
    case CancelOp(c) => c == id
    case CancelAllOp => id !in s.managers
  }

  lemma RestsSnoc(live: seq<LiveQuote>, q: LiveQuote, id: QuoteId)
    ensures RestsUnder(live + [q], id) <==> RestsUnder(live, id) || q.id == id
  {
    var live' := live + [q];
    assert live'[|live|] == q;
    if RestsUnder(live, id) {
      var i :| 0 <= i < |live| && live[i].id == id;
      assert live'[i].id == id;
    }
  }

  lemma RestsRemoved(live: seq<LiveQuote>, k: nat, id: QuoteId)
    requires k < |live|
    ensures live[k].id != id ==> (RestsUnder(RemoveAt(live, k), id) <==> RestsUnder(live, id))
    ensures RestsUnder(RemoveAt(live, k) + [live[k]], id) <==> RestsUnder(live, id)
  {
    var rest := RemoveAt(live, k);
    RestsSnoc(rest, live[k], id);
    if RestsUnder(live, id) && live[k].id != id {
      var i :| 0 <= i < |live| && live[i].id == id;
      assert rest[if i < k then i else i - 1] == live[i];
    }
    if RestsUnder(rest, id) {
      var i :| 0 <= i < |rest| && rest[i].id == id;
      assert live[if i < k then i else i + 1] == rest[i];
    }
  }

  lemma RestsFiltered(live: seq<LiveQuote>, keep: LiveQuote -> bool, id: QuoteId)
    ensures RestsUnder(Filter(live, keep), id) <==> exists i :: 0 <= i < |live| && live[i].id == id && keep(live[i])
  {
    var kept := Filter(live, keep);
    if RestsUnder(kept, id) {
      var i :| 0 <= i < |kept| && kept[i].id == id;
      assert kept[i] in kept;
      var j :| 0 <= j < |live| && live[j] == kept[i];
    }
    if j :| 0 <= j < |live| && live[j].id == id && keep(live[j]) {
      assert live[j] in kept;
      var i :| 0 <= i < |kept| && kept[i] == live[j];
    }
  }

  /** An operation leaves something under the id exactly if it puts it there, or finds it and does not
      take it away. */
  lemma ApplyRests(cfg: SimConfig, s: Sim, p: PendingOp, id: QuoteId)
    ensures RestsUnder(Apply(cfg, s, p).0.live, id)
            <==> Puts(cfg, s, p, id) || (RestsUnder(s.live, id) && !TakesAway(cfg, s, p, id))
  {
    hide Verdict, Take, RestsUnder, Filter, PurgePending;
    match p.op
    case PlaceOp(intent, o) =>
      TakeKeeps(cfg, s, intent, p.scheduledTs, p.submittedAt);
      RestsSnoc(s.live, Rest(s, intent, p.scheduledTs, o, p.submittedAt).live[|s.live|], id);
    case ReplaceOp(r, intent) => ReplaceRests(cfg, s, p, r, intent, id);
    case CancelOp(c) =>
      RestsFiltered(s.live, OtherThan(c), id);
      SomethingRests(s.live, id);
    case CancelAllOp =>
      RestsFiltered(s.live, OwnedBy(s.managers), id);
      SomethingRests(s.live, id);
  }

  /** What a cancel leaves: the orders under other ids, and the operations that do not carry the id; a cancel
      of all leaves the managers' orders and every operation.  Neither does anything else. */
  lemma CancelledExactly(cfg: SimConfig, s: Sim, p: PendingOp, q: LiveQuote, o: PendingOp)
    ensures var s' := Apply(cfg, s, p).0;
            && (p.op.CancelOp? ==>
                  && s' == s.(live := s'.live, pending := s'.pending)
                  && (q in s'.live <==> q in s.live && q.id != p.op.cancelId)
                  && (o in s'.pending <==> o in s.pending
                                           && !(o.op.PlaceOp? && o.op.overrideId == Some(p.op.cancelId))
                                           && !(o.op.ReplaceOp? && o.op.id == p.op.cancelId)))
            && (p.op.CancelAllOp? ==>
                  s' == s.(live := s'.live) && (q in s'.live <==> q in s.live && q.id in s.managers))
  {
    hide Place, Replace;
  }

  lemma SomethingRests(live: seq<LiveQuote>, id: QuoteId)
    ensures RestsUnder(live, id) <==> exists i :: 0 <= i < |live| && live[i].id == id
  {
  }

  lemma ReplaceRests(cfg: SimConfig, s: Sim, p: PendingOp, r: QuoteId, intent: QuoteIntent, id: QuoteId)
    requires p.op == ReplaceOp(r, intent)
    ensures RestsUnder(Replace(cfg, s, r, intent, p.scheduledTs, p.submittedAt).0.live, id)
            <==> Puts(cfg, s, p, id) || (RestsUnder(s.live, id) && !TakesAway(cfg, s, p, id))
  {
    hide Verdict, Take, RestsUnder, PurgePending, RemoveAt;
    var facing, i := Facing(s, p), IndexOf(s.live, r);
    TakeKeeps(cfg, facing, intent, p.scheduledTs, p.submittedAt);
    TakeRejects(cfg, facing, intent, p.scheduledTs, p.submittedAt);
    RestsSnoc(facing.live, Rest(facing, intent, p.scheduledTs, Some(r), p.submittedAt).live[|facing.live|], id);
    SomethingRests(s.live, id);
    if i < |s.live| {
      RestsRemoved(s.live, i, id);
    }
  }

  // ---------------------------------------------------------------------------------------------
  // The operations of one event

  /** The state in which operation `j` of a batch is applied. */
  function StateAt(cfg: SimConfig, s: Sim, ready: seq<PendingOp>, j: nat): Sim
    requires j <= |ready|
  {
    ApplyAll(cfg, s, ready[..j]).0
  }

  lemma {:induction false} StateAfter(cfg: SimConfig, s: Sim, ready: seq<PendingOp>, j: nat)
    requires j < |ready|
    ensures StateAt(cfg, s, ready, j + 1) == Apply(cfg, StateAt(cfg, s, ready, j), ready[j]).0
    decreases |ready|
  {
    hide Apply;
    var s1 := Apply(cfg, s, ready[0]).0;
    assert ready[..j + 1][0] == ready[0] && ready[..j + 1][1..] == ready[1..][..j];
    assert StateAt(cfg, s, ready, j + 1) == StateAt(cfg, s1, ready[1..], j);
    if j == 0 {
      StateStart(cfg, s, ready);
      StateStart(cfg, s1, ready[1..]);
    } else {
      assert ready[..j][1..] == ready[1..][..j - 1] && ready[..j][0] == ready[0];
      StateAfter(cfg, s1, ready[1..], j - 1);
      assert StateAt(cfg, s, ready, j) == StateAt(cfg, s1, ready[1..], j - 1);
    }
  }

  /** No operation of the batch from `j` on, short of `n`, takes away what rests under the id. */
  predicate KeptFrom(cfg: SimConfig, s: Sim, ready: seq<PendingOp>, id: QuoteId, j: nat, n: nat)
    requires n <= |ready|
  {
    forall l :: j <= l < n ==> !TakesAway(cfg, StateAt(cfg, s, ready, l), ready[l], id)
  }

  /** Operation `j` puts an order to rest under the id, and none after it takes it away. */
  predicate PutsForGood(cfg: SimConfig, s: Sim, ready: seq<PendingOp>, id: QuoteId, j: nat, n: nat)
    requires j < n <= |ready|
  {
    Puts(cfg, StateAt(cfg, s, ready, j), ready[j], id) && KeptFrom(cfg, s, ready, id, j + 1, n)
  }

  lemma {:induction false} BatchRests(cfg: SimConfig, s: Sim, ready: seq<PendingOp>, id: QuoteId, n: nat)
    requires n <= |ready|
    ensures RestsUnder(StateAt(cfg, s, ready, n).live, id)
            <==> || (RestsUnder(s.live, id) && KeptFrom(cfg, s, ready, id, 0, n))
                 || exists j :: 0 <= j < n && PutsForGood(cfg, s, ready, id, j, n)
  {
    hide RestsUnder, Puts, TakesAway, Apply, StateAt;
    if n == 0 {
      StateStart(cfg, s, ready);
    } else {
      hide KeptFrom;
      var i := n - 1;
      var taken := TakesAway(cfg, StateAt(cfg, s, ready, i), ready[i], id);
      BatchRests(cfg, s, ready, id, i);
      StateAfter(cfg, s, ready, i);
      ApplyRests(cfg, StateAt(cfg, s, ready, i), ready[i], id);
      KeptOneMore(cfg, s, ready, id, 0, n);
      KeptOneMore(cfg, s, ready, id, n, n);
      assert Puts(cfg, StateAt(cfg, s, ready, i), ready[i], id) <==> PutsForGood(cfg, s, ready, id, i, n);
      forall j | 0 <= j < i
        ensures PutsForGood(cfg, s, ready, id, j, n) <==> PutsForGood(cfg, s, ready, id, j, i) && !taken
      {
        KeptOneMore(cfg, s, ready, id, j + 1, n);
      }
    }
  }

  lemma KeptOneMore(cfg: SimConfig, s: Sim, ready: seq<PendingOp>, id: QuoteId, j: nat, n: nat)
    requires j <= n && 0 < n <= |ready|
    ensures KeptFrom(cfg, s, ready, id, j, n)
            <==> j == n || (KeptFrom(cfg, s, ready, id, j, n - 1)
                            && !TakesAway(cfg, StateAt(cfg, s, ready, n - 1), ready[n - 1], id))
  {
    hide TakesAway, StateAt;
  }

  lemma StateStart(cfg: SimConfig, s: Sim, ready: seq<PendingOp>)
    ensures StateAt(cfg, s, ready, 0) == s
  {
    assert ready[..0] == [];
  }

  /** An operation after the `k`-th puts an order to rest under the id, and none after it takes it away. */
  predicate BroughtBack(cfg: SimConfig, s: Sim, ready: seq<PendingOp>, id: QuoteId, k: nat) {
    exists j :: k < j < |ready| && PutsForGood(cfg, s, ready, id, j, |ready|)
  }

  /** After a batch that applies a cancel, something rests under its id exactly if a later operation of
      the same batch brings it back. */
  lemma CancelInBatch(cfg: SimConfig, s: Sim, ready: seq<PendingOp>, id: QuoteId, k: nat)
    requires k < |ready| && ready[k].op == CancelOp(id)
    ensures RestsUnder(ApplyAll(cfg, s, ready).0.live, id) <==> BroughtBack(cfg, s, ready, id, k)
  {
    hide RestsUnder, Puts, ApplyAll;
    BatchRests(cfg, s, ready, id, |ready|);
    assert ready[..|ready|] == ready;
    assert TakesAway(cfg, StateAt(cfg, s, ready, k), ready[k], id);
    CancelsPutNothing(cfg, StateAt(cfg, s, ready, k), ready[k], id);
  }

  lemma CancelsPutNothing(cfg: SimConfig, s: Sim, p: PendingOp, id: QuoteId)
    requires p.op.CancelOp?
    ensures !Puts(cfg, s, p, id)
  {
  }

  // ---------------------------------------------------------------------------------------------
  // The reaction to the event

  /** A fill of a trade is of an order that rested before it. */
  lemma {:induction false} MakerIds(cfg: SimConfig, bites: seq<Bite>, ts: nat)
    ensures forall f :: f in MakerFills(cfg, bites, ts) ==>
              exists k :: 0 <= k < |bites| && bites[k].quote.id == f.quoteId
    ensures forall k :: 0 <= k < |bites| && bites[k].reached ==> FilledAs(MakerFills(cfg, bites, ts), bites[k].quote.id)
  {
    if bites != [] {
      hide MakerFee;
      MakerIds(cfg, bites[1..], ts);
      var rest := MakerFills(cfg, bites[1..], ts);
      var fills := MakerFills(cfg, bites, ts);
      forall f | f in fills
        ensures exists k :: 0 <= k < |bites| && bites[k].quote.id == f.quoteId
      {
        if f in rest {
          var k :| 0 <= k < |bites[1..]| && bites[1..][k].quote.id == f.quoteId;
          assert bites[k + 1].quote.id == f.quoteId;
        } else {
          assert bites[0].quote.id == f.quoteId;
        }
      }
      forall k | 0 <= k < |bites| && bites[k].reached
        ensures FilledAs(fills, bites[k].quote.id)
      {
        if k == 0 {
          assert fills[0].quoteId == bites[0].quote.id;
        } else {
          assert bites[1..][k - 1] == bites[k];
          var i :| 0 <= i < |rest| && rest[i].quoteId == bites[k].quote.id;
          assert fills[if bites[0].reached then i + 1 else i] == rest[i];
        }
      }
    }
  }

  lemma {:induction false} WithoutHolds<T>(xs: seq<T>, gone: set<nat>, base: nat, i: nat)
    requires i < |xs| && base + i !in gone
    ensures xs[i] in Without(xs, gone, base)
  {
    if i > 0 {
      WithoutHolds(xs[1..], gone, base + 1, i - 1);
    }
  }

  /** The id a bite carries is the id of the order it took from. */
  lemma BiteIds(s: Sim, symbol: Symbol, price: real, size: real, taker: Side, k: nat)
    requires AllHealthy(s.live) && k < |TradeBites(s, symbol, price, size, taker)|
    ensures var b := TradeBites(s, symbol, price, size, taker)[k];
            b.index < |s.live| && s.live[b.index].id == b.quote.id
  {
    hide Bites, Priority, TradeBites, Exhausts, InOrder, IsEligible, Used;
    NoBites(s, symbol, price, size, taker);
    var order := TradeOutcome(s, symbol, price, size, taker);
    assert Later(s.live[order[k]], TradeBites(s, symbol, price, size, taker)[k].quote);
  }

  lemma FilledRested(cfg: SimConfig, s: Sim, symbol: Symbol, price: real, size: real, taker: Side, ts: nat, id: QuoteId)
    requires AllHealthy(s.live) && FilledAs(MatchTrade(cfg, s, symbol, price, size, taker, ts).1, id)
    ensures RestsUnder(s.live, id)
  {
    hide SettleBites, LiveAfter, Drained, TradeBites, Without, MakerFills;
    var bites, fills := TradeBites(s, symbol, price, size, taker), MatchTrade(cfg, s, symbol, price, size, taker, ts).1;
    var j :| 0 <= j < |fills| && fills[j].quoteId == id;
    assert fills[j] in fills;
    MakerIds(cfg, bites, ts);
    var k :| 0 <= k < |bites| && bites[k].quote.id == id;
    BiteIds(s, symbol, price, size, taker, k);
  }

  lemma RestedShows(cfg: SimConfig, s: Sim, symbol: Symbol, price: real, size: real, taker: Side, ts: nat, i: nat)
    requires AllHealthy(s.live) && i < |s.live|
    ensures var (s', fills) := MatchTrade(cfg, s, symbol, price, size, taker, ts);
            RestsUnder(s'.live, s.live[i].id) || FilledAs(fills, s.live[i].id)
  {
    hide SettleBites, LiveAfter, Drained, TradeBites, Without, MakerFills, IsEligible, Healthy;
    var bites := TradeBites(s, symbol, price, size, taker);
    var live', s' := LiveAfter(s.live, bites), MatchTrade(cfg, s, symbol, price, size, taker, ts).0;
    OrderAfterTrade(s, symbol, price, size, taker, i);
    if i in Drained(bites) {
      DrainedAre(bites, i);
      var k :| 0 <= k < |bites| && bites[k].index == i && bites[k].reached && bites[k].quote.size == 0.0;
      MakerIds(cfg, bites, ts);
      BiteIds(s, symbol, price, size, taker, k);
    } else {
      WithoutHolds(live', Drained(bites), 0, i);
      var j :| 0 <= j < |s'.live| && s'.live[j] == live'[i];
    }
  }

  /** A trade leaves an id resting, or fills it, exactly if it rested before. */
  lemma TradeRests(cfg: SimConfig, s: Sim, symbol: Symbol, price: real, size: real, taker: Side, ts: nat, id: QuoteId)
    requires AllHealthy(s.live)
    ensures var (s', fills) := MatchTrade(cfg, s, symbol, price, size, taker, ts);
            RestsUnder(s'.live, id) || FilledAs(fills, id) <==> RestsUnder(s.live, id)
  {
    hide MatchTrade, Healthy, FilledAs;
    var (s', fills) := MatchTrade(cfg, s, symbol, price, size, taker, ts);
    if RestsUnder(s'.live, id) {
      var j :| 0 <= j < |s'.live| && s'.live[j].id == id;
      TradeLive(cfg, s, symbol, price, size, taker, ts, s'.live[j]);
    }
    if FilledAs(fills, id) {
      FilledRested(cfg, s, symbol, price, size, taker, ts, id);
    }
    if i :| 0 <= i < |s.live| && s.live[i].id == id {
      RestedShows(cfg, s, symbol, price, size, taker, ts, i);
    }
  }

  lemma NoBites(s: Sim, symbol: Symbol, price: real, size: real, taker: Side)
    ensures TradeBites(s, symbol, price, size, taker) != [] ==> price > 0.0 && size > 0.0
  {
  }

  lemma ReactRests(cfg: SimConfig, s: Sim, ev: MarketEvent, id: QuoteId)
    requires AllHealthy(s.live)
    ensures var (s', fills) := React(cfg, s, ev);
            (RestsUnder(s'.live, id) || FilledAs(fills, id) <==> RestsUnder(s.live, id)) && s'.nextId == s.nextId
  {
    hide MatchTrade, ReattributeAll, BookFrom;
    match ev
    case BookUpdate(snap) => SnapshotIds(s, snap, id);
    case Trade(symbol, price, size, side, ts) =>
      TradeRests(cfg, s, symbol, price, size, side, ts, id);
      TradeFresh(cfg, s, symbol, price, size, side, ts);
    case _ =>
  }

  lemma SnapshotIds(s: Sim, snap: Snapshot, id: QuoteId)
    ensures RestsUnder(UpdateBook(s, snap).live, id) <==> RestsUnder(s.live, id)
  {
    hide Attributed, InWindow, BookFrom;
    var live' := UpdateBook(s, snap).live;
    assert |live'| == |s.live| && forall i :: 0 <= i < |s.live| ==> live'[i].id == s.live[i].id by {
      SnapshotLive(s, snap);
    }
  }

  lemma TradeFresh(cfg: SimConfig, s: Sim, symbol: Symbol, price: real, size: real, taker: Side, ts: nat)
    ensures MatchTrade(cfg, s, symbol, price, size, taker, ts).0.nextId == s.nextId
  {
    hide TradeBites, LiveAfter, Drained;
    BitesFresh(cfg, s, TradeBites(s, symbol, price, size, taker));
  }

  lemma {:induction false} BitesFresh(cfg: SimConfig, s: Sim, bites: seq<Bite>)
    ensures SettleBites(cfg, s, bites).nextId == s.nextId
    decreases |bites|
  {
    if bites != [] {
      hide BookAfter, MakerFee, Round, Notional;
      BitesFresh(cfg, SettleBite(cfg, s, bites[0]), bites[1..]);
    }
  }

  // ---------------------------------------------------------------------------------------------
  // One event

  lemma ApplyFresh(cfg: SimConfig, s: Sim, p: PendingOp)
    ensures var (s', fills) := Apply(cfg, s, p);
            s'.nextId >= s.nextId && forall f :: f in fills ==> f.quoteId >= s.nextId
  {
    hide Verdict, Take, PurgePending;
    match p.op
    case PlaceOp(intent, _) => TakeKeeps(cfg, s, intent, p.scheduledTs, p.submittedAt);
    case ReplaceOp(_, intent) => TakeKeeps(cfg, Facing(s, p), intent, p.scheduledTs, p.submittedAt);
    case _ =>
  }

  /** Immediate fills carry fresh ids. */
  lemma {:induction false} ApplyAllFresh(cfg: SimConfig, s: Sim, ready: seq<PendingOp>)
    ensures var (s', fills) := ApplyAll(cfg, s, ready);
            s'.nextId >= s.nextId && forall f :: f in fills ==> f.quoteId >= s.nextId
    decreases |ready|
  {
    if ready != [] {
      hide Apply;
      ApplyFresh(cfg, s, ready[0]);
      ApplyAllFresh(cfg, Apply(cfg, s, ready[0]).0, ready[1..]);
    }
  }

  /** An event: chance, then the operations due, then the reaction. */
  lemma TurnSplits(cfg: SimConfig, s: Sim, t: Turn)
    ensures var (s2, f2) := ApplyAll(cfg, BeforeOps(cfg, s, t), DueOps(cfg, s, t));
            var (s3, f3) := React(cfg, s2, t.event);
            Step(cfg, s, t) == (s3, f2 + f3)
    ensures BeforeOps(cfg, s, t).nextId == s.nextId
  {
    hide SubmitAll, ApplyAll, React, DecayAll, Without, ScheduledOp, DueCount;
    SubmitFrame(cfg, s, t.orders, EventTs(t.event));
  }

  lemma OpsHealthy(cfg: SimConfig, s: Sim, t: Turn)
    requires Sound(s) && GoodTurn(t)
    ensures Sound(BeforeOps(cfg, s, t)) && GoodPending(DueOps(cfg, s, t))
    ensures Sound(ApplyAll(cfg, BeforeOps(cfg, s, t), DueOps(cfg, s, t)).0)
  {
    hide Sound, GoodTurn, Accounted, DecayQueues, SilentCancels, SubmitAll, ApplyAll, TimedByOne;
    var now := EventTs(t.event);
    var s0 := SubmitAll(cfg, s, t.orders, now);
    SubmitSound(cfg, s, t);
    TurnParts(t);
    DecayStep(cfg, s0, now, t.noise);
    var s1 := SilentCancels(cfg, DecayQueues(cfg, s0, now, t.noise), now, t.noise);
    SilentStep(cfg, DecayQueues(cfg, s0, now, t.noise), now, t.noise);
    SoundSplit(s1, DueCount(s1.pending, now));
    ApplyAllStep(cfg, BeforeOps(cfg, s, t), DueOps(cfg, s, t));
  }

  lemma NotFilled(fills: seq<Fill>, id: QuoteId)
    requires forall f :: f in fills ==> f.quoteId > id
    ensures !FilledAs(fills, id)
  {
    assert forall i :: 0 <= i < |fills| ==> fills[i] in fills;
  }

  lemma FilledJoin(f1: seq<Fill>, f2: seq<Fill>, id: QuoteId)
    ensures FilledAs(f1 + f2, id) <==> FilledAs(f1, id) || FilledAs(f2, id)
  {
    var all := f1 + f2;
    if i :| 0 <= i < |f1| && f1[i].quoteId == id {
      assert all[i] == f1[i];
    }
    if i :| 0 <= i < |f2| && f2[i].quoteId == id {
      assert all[|f1| + i] == f2[i];
    }
  }

  /** Of an id in use, something rests or is filled by the end of an event exactly if something rests
      under it once the operations due have been applied. */
  lemma TurnRests(cfg: SimConfig, s: Sim, t: Turn, id: QuoteId)
    requires Sound(s) && GoodTurn(t) && id < s.nextId
    ensures var (s', fills) := Step(cfg, s, t);
            && (RestsUnder(s'.live, id) || FilledAs(fills, id)
                <==> RestsUnder(ApplyAll(cfg, BeforeOps(cfg, s, t), DueOps(cfg, s, t)).0.live, id))
            && s'.nextId >= s.nextId
  {
    hide Sound, GoodTurn, Step, ApplyAll, React, BeforeOps, DueOps, RestsUnder, FilledAs;
    var (s2, f2) := ApplyAll(cfg, BeforeOps(cfg, s, t), DueOps(cfg, s, t));
    var (s3, f3) := React(cfg, s2, t.event);
    TurnSplits(cfg, s, t);
    OpsHealthy(cfg, s, t);
    SoundHealthy(s2);
    ApplyAllFresh(cfg, BeforeOps(cfg, s, t), DueOps(cfg, s, t));
    NotFilled(f2, id);
    ReactRests(cfg, s2, t.event, id);
    FilledJoin(f2, f3, id);
  }

  /** What the event withdrew is not in the queue any more. */
  lemma CancelClearsQueue(cfg: SimConfig, s: Sim, t: Turn, id: QuoteId, k: nat)
    requires Scheduled(s.pending) && k < |DueOps(cfg, s, t)| && DueOps(cfg, s, t)[k].op == CancelOp(id)
    ensures forall i :: 0 <= i < |Step(cfg, s, t).0.pending| ==> !Carries(Step(cfg, s, t).0.pending[i], id)
  {
    hide SubmitAll, OnMarketEvent, Scheduled, Filter, Embedded, DueCount, AtTime, OpsOf;
    var now := EventTs(t.event);
    var s0 := SubmitAll(cfg, s, t.orders, now);
    SubmitAllQueue(cfg, s, t.orders, now, 0);
    EventQueue(cfg, s0, t.event, now, t.noise);
    WithdrawnHolds(Due(s0, now), k, id);
    var s' := Step(cfg, s, t).0;
    forall i | 0 <= i < |s'.pending|
      ensures !Carries(s'.pending[i], id)
    {
      assert s'.pending[i] in s'.pending;
      assert Standing(Withdrawn(Due(s0, now)))(s'.pending[i]);
    }
  }

  lemma {:induction false} WithdrawnHolds(ready: seq<PendingOp>, k: nat, id: QuoteId)
    requires k < |ready| && ready[k].op == CancelOp(id)
    ensures id in Withdrawn(ready)
  {
    if k > 0 {
      WithdrawnHolds(ready[1..], k - 1, id);
    }
  }

  // ---------------------------------------------------------------------------------------------
  // Whole runs

  /** Where nothing rests under an id and nothing in the queue carries it, nothing is filled under it or
      comes to rest under it until it is requoted. */
  lemma {:induction false} StaysGone(cfg: SimConfig, s: Sim, turns: seq<Turn>, id: QuoteId)
    requires Sound(s) && GoodTurns(turns) && LeftAlone(s, id) && NeverRequoted(turns, id) && !RestsUnder(s.live, id)
    ensures var (s', fills) := RunSim(cfg, s, turns); !RestsUnder(s'.live, id) && !FilledAs(fills, id)
    decreases |turns|
  {
    hide Sound, GoodTurn, NoRequote, LeftAlone, Consumes, Step, RunSim, RestsUnder, ApplyAll, BeforeOps, DueOps;
    RunUnfolds(cfg, s, turns);
    if turns == [] {
      NotFilled([], id);
    } else {
      hide FilledAs;
      var init, t := turns[..|turns| - 1], turns[|turns| - 1];
      StaysGone(cfg, s, init, id);
      RunConsumes(cfg, s, init, id);
      var (s1, f1) := RunSim(cfg, s, init);
      TurnStaysGone(cfg, s1, t, id);
      FilledJoin(f1, Step(cfg, s1, t).1, id);
    }
  }

  lemma TurnStaysGone(cfg: SimConfig, s: Sim, t: Turn, id: QuoteId)
    requires Sound(s) && GoodTurn(t) && LeftAlone(s, id) && NoRequote(t, id) && !RestsUnder(s.live, id)
    ensures var (s', fills) := Step(cfg, s, t); !RestsUnder(s'.live, id) && !FilledAs(fills, id)
  {
    hide Sound, GoodTurn, NoRequote, Consumes, Step, RestsUnder, FilledAs, ApplyAll, SubmitAll, DecayQueues,
      SilentCancels, Carries;
    var now := EventTs(t.event);
    var s0 := SubmitAll(cfg, s, t.orders, now);
    SubmitLeavesAlone(cfg, s, t, id);
    SubmitSound(cfg, s, t);
    SubmitFrame(cfg, s, t.orders, now);
    TurnParts(t);
    NoiseConsumes(cfg, s0, now, t.noise, id);
    var s1 := SilentCancels(cfg, DecayQueues(cfg, s0, now, t.noise), now, t.noise);
    ConsumedGone(s0, s1, [], id);
    OpsHealthy(cfg, s, t);
    var s1' := BeforeOps(cfg, s, t);
    ApplyAllConsumes(cfg, s1', DueOps(cfg, s, t), id);
    var (s2, f2) := ApplyAll(cfg, s1', DueOps(cfg, s, t));
    ConsumedGone(s1', s2, f2, id);
    TurnRests(cfg, s, t, id);
  }

  lemma ConsumedGone(s: Sim, s': Sim, fills: seq<Fill>, id: QuoteId)
    requires Consumes(s, id, s', fills) && !RestsUnder(s.live, id)
    ensures !RestsUnder(s'.live, id)
  {
  }

  /** A cancel applied at an event holds, through that event and over any run that follows without
      requoting the id, exactly if no operation applied after it at the same event brings the order back:
      otherwise nothing rests under the id, is filled under it, or waits in the queue to do so; and if one
      does bring it back, it rests or is filled by the end of that very event. */
  lemma CancelHolds(cfg: SimConfig, s: Sim, t: Turn, turns: seq<Turn>, id: QuoteId, k: nat)
    requires Sound(s) && Scheduled(s.pending) && GoodTurn(t) && GoodTurns(turns) && NeverRequoted(turns, id)
             && id < s.nextId
    requires k < |DueOps(cfg, s, t)| && DueOps(cfg, s, t)[k].op == CancelOp(id)
    ensures var (s1, f1) := Step(cfg, s, t);
            var (s2, f2) := RunSim(cfg, s1, turns);
            var back := BroughtBack(cfg, BeforeOps(cfg, s, t), DueOps(cfg, s, t), id, k);
            && (RestsUnder(s1.live, id) || FilledAs(f1, id) <==> back)
            && (!back ==> LeftAlone(s2, id) && !RestsUnder(s2.live, id) && !FilledAs(f1 + f2, id))
  {
    hide Sound, Scheduled, GoodTurn, NoRequote, RunSim, Step, RestsUnder, FilledAs, ApplyAll, BeforeOps, DueOps,
      BroughtBack, Consumes, OnMarketEvent, SubmitAll, Accounted, Carries;
    var (s1, f1) := Step(cfg, s, t);
    CancelInBatch(cfg, BeforeOps(cfg, s, t), DueOps(cfg, s, t), id, k);
    TurnRests(cfg, s, t, id);
    CancelClearsQueue(cfg, s, t, id, k);
    TurnSound(cfg, s, t);
    if !BroughtBack(cfg, BeforeOps(cfg, s, t), DueOps(cfg, s, t), id, k) {
      RunConsumes(cfg, s1, turns, id);
      StaysGone(cfg, s1, turns, id);
      FilledJoin(f1, RunSim(cfg, s1, turns).1, id);
    }
  }

  lemma TurnSound(cfg: SimConfig, s: Sim, t: Turn)
    requires Sound(s) && GoodTurn(t)
    ensures Sound(Step(cfg, s, t).0)
  {
    hide Sound, GoodTurn, OnMarketEvent, SubmitAll, Accounted;
    SubmitSound(cfg, s, t);
    TurnParts(t);
    EventStep(cfg, SubmitAll(cfg, s, t.orders, EventTs(t.event)), t.event, EventTs(t.event), t.noise);
  }
}
