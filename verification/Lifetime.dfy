/** The life of one resting order over a whole run: it is never filled for more than its size, and its
    place in the queue only gets better. */
module Lifetime {
  import opened Decimals
  import opened Core
  import opened Book
  import opened Venue
  import opened Matching
  import opened Lifecycle
  import opened Runs

  function SizeUnder(id: QuoteId): LiveQuote -> real {
    (q: LiveQuote) => if q.id == id then q.size else 0.0
  }

  /** What rests under an id. */
  function RestingUnder(live: seq<LiveQuote>, id: QuoteId): real {
    Sum(live, SizeUnder(id))
  }

  function FillUnder(id: QuoteId): Fill -> real {
    (f: Fill) => if f.quoteId == id then f.size else 0.0
  }

  /** What was filled under an id. */
  function FilledUnder(fills: seq<Fill>, id: QuoteId): real {
    Sum(fills, FillUnder(id))
  }

  /** Whatever rests under the id is an earlier order under it, no larger and no further back. */
  predicate Traces(live: seq<LiveQuote>, id: QuoteId, live': seq<LiveQuote>) {
    forall k :: 0 <= k < |live'| && live'[k].id == id ==> Descends(live'[k], live)
  }

  /** No operation places or replaces under the id, and no fresh id will be this one. */
  predicate LeftAlone(s: Sim, id: QuoteId) {
    id < s.nextId && forall i :: 0 <= i < |s.pending| ==> !Carries(s.pending[i], id)
  }

  /** From one state to the next: what rests under the id and what was filled under it come out of what
      rested there. */
  predicate Consumes(s: Sim, id: QuoteId, s': Sim, fills: seq<Fill>) {
    RestingUnder(s'.live, id) + FilledUnder(fills, id) <= RestingUnder(s.live, id) && Traces(s.live, id, s'.live)
  }

  lemma NoFills(id: QuoteId)
    ensures FilledUnder([], id) == 0.0
  {
  }

  lemma TracesTrans(live: seq<LiveQuote>, id: QuoteId, live1: seq<LiveQuote>, live2: seq<LiveQuote>)
    requires Traces(live, id, live1) && Traces(live1, id, live2)
    ensures Traces(live, id, live2)
  {
    hide Later;
    forall k | 0 <= k < |live2| && live2[k].id == id
      ensures Descends(live2[k], live)
    {
      var i :| 0 <= i < |live1| && Later(live1[i], live2[k]);
      SameId(live1[i], live2[k]);
      var j :| 0 <= j < |live| && Later(live[j], live1[i]);
      LaterTrans(live[j], live1[i], live2[k]);
    }
  }

  lemma SameId(q: LiveQuote, q': LiveQuote)
    requires Later(q, q')
    ensures q.id == q'.id
  {
  }

  lemma ConsumesTrans(s: Sim, id: QuoteId, s1: Sim, s2: Sim, f1: seq<Fill>, f2: seq<Fill>)
    requires Consumes(s, id, s1, f1) && Consumes(s1, id, s2, f2)
    ensures Consumes(s, id, s2, f1 + f2)
  {
    hide Traces, RestingUnder, FillUnder;
    TracesTrans(s.live, id, s1.live, s2.live);
    SumAppend(f1, f2, FillUnder(id));
  }

  lemma AccountedTraces(live: seq<LiveQuote>, live': seq<LiveQuote>, id: QuoteId)
    requires Accounted(live, [], live')
    ensures Traces(live, id, live')
  {
    hide Later;
  }

  lemma SubsetTraces(live: seq<LiveQuote>, live': seq<LiveQuote>, id: QuoteId)
    requires AllHealthy(live) && forall q :: q in live' && q.id == id ==> q in live
    ensures Traces(live, id, live')
  {
    forall k | 0 <= k < |live'| && live'[k].id == id
      ensures Descends(live'[k], live)
    {
      assert live'[k] in live';
      var i :| 0 <= i < |live| && live[i] == live'[k];
      LaterRefl(live[i]);
    }
  }

  lemma SizesNonNegative(live: seq<LiveQuote>, id: QuoteId)
    requires AllHealthy(live)
    ensures forall q :: q in live ==> SizeUnder(id)(q) >= 0.0
  {
  }

  // ---------------------------------------------------------------------------------------------
  // Operations

  lemma PlaceConsumes(cfg: SimConfig, s: Sim, intent: QuoteIntent, ts: nat, overrideId: Option<QuoteId>,
                      submittedAt: nat, id: QuoteId)
    requires AllHealthy(s.live) && id < s.nextId && overrideId != Some(id)
    ensures var (s', fill) := Place(cfg, s, intent, ts, overrideId, submittedAt);
            Consumes(s, id, s', Listed(fill)) && s'.nextId >= s.nextId
  {
    hide Verdict, Consumed, Round, Bps, DecrementAll, Settle, Healthy, Descends, Traces, RestingUnder;
    var (s', fill) := Place(cfg, s, intent, ts, overrideId, submittedAt);
    NoFills(id);
    if fill.Some? {
      assert Listed(fill) == [] + [fill.value];
      SumSnoc([], fill.value, FillUnder(id));
    }
    if Verdict(cfg, s, intent).None? && !intent.tif.Immediate() {
      RestingSnocUnder(s.live, s'.live[|s.live|], id);
    }
    TakeKeeps(cfg, s, intent, ts, submittedAt);
    SubsetTraces(s.live, s'.live, id);
  }

  lemma TakeKeeps(cfg: SimConfig, s: Sim, intent: QuoteIntent, ts: nat, submittedAt: nat)
    ensures var (s', fill) := Take(cfg, s, intent, ts, submittedAt);
            s'.live == s.live && s'.nextId >= s.nextId && (fill.Some? ==> fill.value.quoteId == s.nextId)
  {
    hide Consumed, Round, Bps, DecrementAll, AveragePrice, RoundedCost, Quantity;
  }

  lemma RestingSnocUnder(live: seq<LiveQuote>, q: LiveQuote, id: QuoteId)
    ensures RestingUnder(live + [q], id) == RestingUnder(live, id) + SizeUnder(id)(q)
  {
    SumSnoc(live, q, SizeUnder(id));
  }

  lemma ReplaceConsumes(cfg: SimConfig, s: Sim, other: QuoteId, intent: QuoteIntent, ts: nat, submittedAt: nat,
                        id: QuoteId)
    requires AllHealthy(s.live) && id < s.nextId && other != id
    ensures var (s', fill) := Replace(cfg, s, other, intent, ts, submittedAt);
            Consumes(s, id, s', Listed(fill)) && s'.nextId >= s.nextId
  {
    hide Place, PurgePending, Healthy, Traces, RestingUnder, FilledUnder, Descends;
    var i := IndexOf(s.live, other);
    var evicted := s.(live := if i < |s.live| then RemoveAt(s.live, i) else s.live,
                      pending := PurgePending(s.pending, other));
    if i < |s.live| {
      RemovedUnder(s.live, i, id);
    }
    SubsetTraces(s.live, evicted.live, id);
    var (s1, fill) := Place(cfg, evicted, intent, ts, Some(other), submittedAt);
    PlaceConsumes(cfg, evicted, intent, ts, Some(other), submittedAt, id);
    TracesTrans(s.live, id, evicted.live, s1.live);
    if i < |s.live| {
      RestingSnocUnder(s1.live, s.live[i], id);
      TracesSnoc(s.live, s1.live, s.live[i], id);
    }
  }

  lemma RemovedUnder(live: seq<LiveQuote>, i: nat, id: QuoteId)
    requires i < |live| && AllHealthy(live)
    ensures RestingUnder(RemoveAt(live, i), id) == RestingUnder(live, id) - SizeUnder(id)(live[i])
    ensures AllHealthy(RemoveAt(live, i)) && forall q :: q in RemoveAt(live, i) ==> q in live
  {
    SumRemove(live, i, SizeUnder(id));
  }

  lemma TracesSnoc(live: seq<LiveQuote>, live': seq<LiveQuote>, q: LiveQuote, id: QuoteId)
    requires Traces(live, id, live') && q.id != id
    ensures Traces(live, id, live' + [q])
  {
    hide Descends;
  }

  lemma FilterConsumes(live: seq<LiveQuote>, keep: LiveQuote -> bool, id: QuoteId)
    requires AllHealthy(live)
    ensures RestingUnder(Filter(live, keep), id) <= RestingUnder(live, id) && Traces(live, id, Filter(live, keep))
  {
    SizesNonNegative(live, id);
    SumFilter(live, keep, SizeUnder(id));
    SubsetTraces(live, Filter(live, keep), id);
  }

  lemma ApplyConsumes(cfg: SimConfig, s: Sim, p: PendingOp, id: QuoteId)
    requires AllHealthy(s.live) && id < s.nextId && !Carries(p, id)
    ensures var (s', fills) := Apply(cfg, s, p);
            Consumes(s, id, s', fills) && s'.nextId >= s.nextId
  {
    hide Place, Replace, PurgePending, Traces, RestingUnder, FilledUnder, Healthy;
    NoFills(id);
    match p.op
    case PlaceOp(intent, o) => PlaceConsumes(cfg, s, intent, p.scheduledTs, o, p.submittedAt, id);
    case ReplaceOp(other, intent) => ReplaceConsumes(cfg, s, other, intent, p.scheduledTs, p.submittedAt, id);
    case CancelOp(gone) => FilterConsumes(s.live, OtherThan(gone), id);
    case CancelAllOp => FilterConsumes(s.live, OwnedBy(s.managers), id);
  }

  lemma {:induction false} ApplyAllConsumes(cfg: SimConfig, s: Sim, ready: seq<PendingOp>, id: QuoteId)
    requires Sound(s) && GoodPending(ready) && id < s.nextId && forall i :: 0 <= i < |ready| ==> !Carries(ready[i], id)
    ensures var (s', fills) := ApplyAll(cfg, s, ready);
            Consumes(s, id, s', fills) && s'.nextId >= s.nextId
    decreases |ready|
  {
    hide Apply, Consumes, Sound, GoodOp, Carries, Accounted;
    SoundHealthy(s);
    if ready == [] {
      ConsumesNothing(s, id, s);
    } else {
      var (s1, f1) := Apply(cfg, s, ready[0]);
      ApplyConsumes(cfg, s, ready[0], id);
      ApplyStep(cfg, s, ready[0]);
      ApplyAllConsumes(cfg, s1, ready[1..], id);
      var (s2, f2) := ApplyAll(cfg, s1, ready[1..]);
      ConsumesTrans(s, id, s1, s2, f1, f2);
    }
  }

  lemma ConsumesNothing(s: Sim, id: QuoteId, s': Sim)
    requires AllHealthy(s.live) && s'.live == s.live
    ensures Consumes(s, id, s', [])
  {
    NoFills(id);
    SubsetTraces(s.live, s'.live, id);
  }

  // ---------------------------------------------------------------------------------------------
  // Trades

  /** A bite keeps its order's id and takes what it fills off its size. */
  predicate BiteOfOrder(live: seq<LiveQuote>, b: Bite) {
    b.index < |live| && b.quote.id == live[b.index].id && b.quote.size == live[b.index].size - b.filled
    && (!b.reached ==> b.filled == 0.0)
  }

  lemma {:induction false} BitesConsume(cfg: SimConfig, live: seq<LiveQuote>, bites: seq<Bite>, order: seq<nat>,
                                        ts: nat, id: QuoteId)
    requires Indices(order, |live|) && NoRepeats(order) && |bites| <= |order|
    requires forall k :: 0 <= k < |bites| ==> bites[k].index == order[k] && BiteOfOrder(live, bites[k])
    ensures RestingUnder(LiveAfter(live, bites), id) + FilledUnder(MakerFills(cfg, bites, ts), id)
            == RestingUnder(live, id)
    decreases |bites|
  {
    NoFills(id);
    if bites != [] {
      var b, rest := bites[0], MakerFills(cfg, bites[1..], ts);
      var live1 := live[b.index := b.quote];
      forall k | 0 <= k < |bites[1..]|
        ensures bites[1..][k].index == order[1..][k] && BiteOfOrder(live1, bites[1..][k])
      {
        assert bites[k + 1].index == order[k + 1] && order[k + 1] != order[0] && BiteOfOrder(live, bites[k + 1]);
      }
      hide RestingUnder, MakerFill, NoRepeats, Indices;
      OrderTailOk(order, |live|);
      BitesConsume(cfg, live1, bites[1..], order[1..], ts, id);
      UpdatedUnder(live, b.index, b.quote, id);
      BiteFill(cfg, b, ts, rest, id);
    }
  }

  lemma OrderTailOk(order: seq<nat>, n: nat)
    requires Indices(order, n) && NoRepeats(order) && order != []
    ensures Indices(order[1..], n) && NoRepeats(order[1..])
  {
  }

  lemma UpdatedUnder(live: seq<LiveQuote>, i: nat, q: LiveQuote, id: QuoteId)
    requires i < |live| && q.id == live[i].id
    ensures RestingUnder(live[i := q], id) == RestingUnder(live, id) + if q.id == id then q.size - live[i].size else 0.0
  {
    SumUpdate(live, i, q, SizeUnder(id));
  }

  lemma BiteFill(cfg: SimConfig, b: Bite, ts: nat, rest: seq<Fill>, id: QuoteId)
    ensures FilledUnder((if b.reached then [MakerFill(cfg, b, ts)] else []) + rest, id)
            == FilledUnder(rest, id) + if b.reached && b.quote.id == id then b.filled else 0.0
  {
    hide Round, MakerFee;
    if b.reached {
      assert ([MakerFill(cfg, b, ts)] + rest)[1..] == rest;
    } else {
      assert [] + rest == rest;
    }
  }

  lemma TradeConsumes(cfg: SimConfig, s: Sim, symbol: Symbol, price: real, size: real, taker: Side, ts: nat,
                      id: QuoteId)
    requires Sound(s)
    ensures var (s', fills) := MatchTrade(cfg, s, symbol, price, size, taker, ts);
            Consumes(s, id, s', fills) && s'.nextId == s.nextId
  {
    hide Bites, SettleBites, LiveAfter, Drained, Priority, MakerFills, IsEligible, Exhausts, InOrder, RestingUnder,
      FilledUnder, Traces, Sound, Accounted, Used;
    var (s', fills) := MatchTrade(cfg, s, symbol, price, size, taker, ts);
    var bites := TradeBites(s, symbol, price, size, taker);
    SoundHealthy(s);
    TradeStep(cfg, s, symbol, price, size, taker, ts);
    AccountedTraces(s.live, s'.live, id);
    if price > 0.0 && size > 0.0 {
      var order := TradeOutcome(s, symbol, price, size, taker);
      forall k | 0 <= k < |bites|
        ensures bites[k].index == order[k] && BiteOfOrder(s.live, bites[k])
      {
        assert Later(s.live[order[k]], bites[k].quote);
      }
      BitesConsume(cfg, s.live, bites, order, ts, id);
    } else {
      BitesConsume(cfg, s.live, bites, [], ts, id);
    }
    AfterSizes(s, symbol, price, size, taker, id);
    SumWithoutUnder(LiveAfter(s.live, bites), Drained(bites), id);
  }

  lemma AfterSizes(s: Sim, symbol: Symbol, price: real, size: real, taker: Side, id: QuoteId)
    requires AllHealthy(s.live)
    ensures forall q :: q in LiveAfter(s.live, TradeBites(s, symbol, price, size, taker)) ==> SizeUnder(id)(q) >= 0.0
  {
    hide Bites, TradeBites, LiveAfter, Drained;
    var live' := LiveAfter(s.live, TradeBites(s, symbol, price, size, taker));
    forall q | q in live'
      ensures SizeUnder(id)(q) >= 0.0
    {
      var i :| 0 <= i < |live'| && live'[i] == q;
      OrderAfterTrade(s, symbol, price, size, taker, i);
    }
  }

  lemma SumWithoutUnder(live: seq<LiveQuote>, gone: set<nat>, id: QuoteId)
    requires forall q :: q in live ==> SizeUnder(id)(q) >= 0.0
    ensures RestingUnder(Without(live, gone), id) <= RestingUnder(live, id)
  {
    SumWithout(live, gone, 0, SizeUnder(id));
  }

  // ---------------------------------------------------------------------------------------------
  // Events and runs

  lemma SameSizes(s: Sim, s': Sim, id: QuoteId)
    requires SameButQueues(s.live, s'.live)
    requires Accounted(s.live, [], s'.live)
    ensures Consumes(s, id, s', [])
  {
    hide Accounted, Traces;
    SumPointwise(s'.live, s.live, SizeUnder(id));
    NoFills(id);
    AccountedTraces(s.live, s'.live, id);
  }

  lemma NoiseConsumes(cfg: SimConfig, s: Sim, now: nat, noise: Noise, id: QuoteId)
    requires Sound(s) && GoodNoise(noise)
    ensures var s' := SilentCancels(cfg, DecayQueues(cfg, s, now, noise), now, noise);
            Consumes(s, id, s', []) && s'.nextId == s.nextId && s'.pending == s.pending && Sound(s')
  {
    hide Sound, Consumes, Accounted;
    var s0 := DecayQueues(cfg, s, now, noise);
    var s1 := SilentCancels(cfg, s0, now, noise);
    DecayStep(cfg, s, now, noise);
    SilentStep(cfg, s0, now, noise);
    SameSizes(s, s0, id) by { DecayLive(cfg, s, now, noise); }
    SilentConsumes(cfg, s0, now, noise, id);
    var none: seq<Fill> := [];
    ConsumesTrans(s, id, s0, s1, none, none);
    assert none + none == none;
  }

  lemma SilentConsumes(cfg: SimConfig, s: Sim, now: nat, noise: Noise, id: QuoteId)
    requires Sound(s)
    ensures Consumes(s, id, SilentCancels(cfg, s, now, noise), [])
  {
    hide Sound, Accounted, Traces;
    NoFills(id);
    SoundHealthy(s);
    SilentStep(cfg, s, now, noise);
    AccountedTraces(s.live, SilentCancels(cfg, s, now, noise).live, id);
    SizesNonNegative(s.live, id);
    SumWithoutUnder(s.live, noise.dropped, id);
  }

  lemma ReactConsumes(cfg: SimConfig, s: Sim, ev: MarketEvent, id: QuoteId)
    requires Sound(s) && GoodEvent(ev)
    ensures var (s', fills) := React(cfg, s, ev);
            Consumes(s, id, s', fills) && s'.nextId == s.nextId
  {
    hide Sound, Consumes, MatchTrade, Accounted;
    SoundHealthy(s);
    match ev
    case BookUpdate(snap) =>
      ReactStep(cfg, s, ev);
      SnapshotLive(s, snap);
      UpdateFrame(s, snap);
      SameSizes(s, UpdateBook(s, snap), id);
    case Trade(symbol, price, size, side, ts) => TradeConsumes(cfg, s, symbol, price, size, side, ts, id);
    case _ => ConsumesNothing(s, id, s);
  }

  lemma EventConsumes(cfg: SimConfig, s: Sim, ev: MarketEvent, now: nat, noise: Noise, id: QuoteId)
    requires Sound(s) && GoodEvent(ev) && GoodNoise(noise) && LeftAlone(s, id)
    ensures var (s', fills) := OnMarketEvent(cfg, s, ev, now, noise);
            Consumes(s, id, s', fills) && LeftAlone(s', id)
  {
    hide DecayQueues, SilentCancels, ApplyAll, React, Consumes, Sound, GoodOp, Carries, Accounted, TimedByOne,
      AllHealthy, GoodBooks, DueCount;
    var s1 := SilentCancels(cfg, DecayQueues(cfg, s, now, noise), now, noise);
    NoiseConsumes(cfg, s, now, noise, id);
    var k := DueCount(s1.pending, now);
    var s1' := s1.(pending := s1.pending[k..]);
    SoundSplit(s1, k);
    ApplyAllConsumes(cfg, s1', s1.pending[..k], id);
    ApplyPendingStep(cfg, s1, now);
    var (s2, f2) := ApplyPending(cfg, s1, now);
    ConsumesFrame(s1, s1', id, s2, f2);
    ReactConsumes(cfg, s2, ev, id);
    ReactStep(cfg, s2, ev);
    var (s3, f3) := React(cfg, s2, ev);
    ConsumesTrans(s, id, s1, s2, [], f2);
    assert [] + f2 == f2;
    ConsumesTrans(s, id, s2, s3, f2, f3);
    forall i | 0 <= i < |s3.pending|
      ensures !Carries(s3.pending[i], id)
    {
      assert s3.pending[i] in s2.pending && s3.pending[i] in s1.pending;
    }
  }

  lemma ConsumesFrame(s: Sim, r: Sim, id: QuoteId, s': Sim, fills: seq<Fill>)
    requires Consumes(r, id, s', fills) && r.live == s.live
    ensures Consumes(s, id, s', fills)
  {
  }

  lemma SoundSplit(s: Sim, k: nat)
    requires Sound(s) && k <= |s.pending|
    ensures Sound(s.(pending := s.pending[k..])) && GoodPending(s.pending[..k])
  {
    hide GoodOp, Healthy, GoodBooks;
  }

  /** The strategy does not requote the order. */
  predicate NoRequote(t: Turn, id: QuoteId) {
    forall i :: 0 <= i < |t.orders| ==> !(t.orders[i].action.Requote? && t.orders[i].action.id == id)
  }

  predicate NeverRequoted(turns: seq<Turn>, id: QuoteId) {
    forall i :: 0 <= i < |turns| ==> NoRequote(turns[i], id)
  }

  lemma SubmitLeavesAlone(cfg: SimConfig, s: Sim, t: Turn, id: QuoteId)
    requires LeftAlone(s, id) && NoRequote(t, id)
    ensures LeftAlone(SubmitAll(cfg, s, t.orders, EventTs(t.event)), id)
  {
    hide LatencyNs;
    var s', now := SubmitAll(cfg, s, t.orders, EventTs(t.event)), EventTs(t.event);
    SubmitFrame(cfg, s, t.orders, now);
    forall i | 0 <= i < |s'.pending|
      ensures !Carries(s'.pending[i], id)
    {
      var o := s'.pending[i];
      assert o in s'.pending;
      if o !in s.pending {
        var k :| 0 <= k < |t.orders| && ScheduledOp(cfg, t.orders[k].action, now, t.orders[k].jitterMs) == Some(o);
      }
    }
  }

  lemma {:induction false} RunConsumes(cfg: SimConfig, s: Sim, turns: seq<Turn>, id: QuoteId)
    requires Sound(s) && GoodTurns(turns) && LeftAlone(s, id) && NeverRequoted(turns, id)
    ensures var (s', fills) := RunSim(cfg, s, turns);
            Sound(s') && Consumes(s, id, s', fills) && LeftAlone(s', id)
    decreases |turns|
  {
    hide Sound, GoodTurn, NoRequote, LeftAlone, Consumes, OnMarketEvent, SubmitAll, Accounted, ScheduledOp, RunSim;
    RunUnfolds(cfg, s, turns);
    if turns == [] {
      SoundHealthy(s);
      ConsumesNothing(s, id, s);
    } else {
      var init, t := turns[..|turns| - 1], turns[|turns| - 1];
      RunConsumes(cfg, s, init, id);
      var (s1, f1) := RunSim(cfg, s, init);
      var now := EventTs(t.event);
      var s2 := SubmitAll(cfg, s1, t.orders, now);
      SubmitSound(cfg, s1, t);
      SubmitLeavesAlone(cfg, s1, t, id);
      SubmitFrame(cfg, s1, t.orders, now);
      TurnParts(t);
      EventStep(cfg, s2, t.event, now, t.noise);
      EventConsumes(cfg, s2, t.event, now, t.noise, id);
      var (s3, f3) := OnMarketEvent(cfg, s2, t.event, now, t.noise);
      ConsumesFrame(s1, s2, id, s3, f3);
      ConsumesTrans(s, id, s1, s3, f1, f3);
    }
  }

  /** The only order under its id. */
  predicate Alone(live: seq<LiveQuote>, i: nat) {
    i < |live| && forall j :: 0 <= j < |live| && j != i ==> live[j].id != live[i].id
  }

  lemma AloneRests(live: seq<LiveQuote>, i: nat)
    requires Alone(live, i)
    ensures RestingUnder(live, live[i].id) == live[i].size
  {
    var id := live[i].id;
    SumSplit(live, i, SizeUnder(id));
    NothingUnder(live[..i], id);
    NothingUnder(live[i + 1..], id);
  }

  lemma {:induction false} NothingUnder(live: seq<LiveQuote>, id: QuoteId)
    requires forall q :: q in live ==> q.id != id
    ensures RestingUnder(live, id) == 0.0
  {
    if live != [] {
      assert live[0] in live;
      NothingUnder(live[1..], id);
    }
  }

  /** Over any run, through any trades, snapshots, decay, cancels and other orders: the fills of a resting
      order never add up to more than its size, together with what is left of it; and whatever is left is
      the same order, no larger and no further back in the queue -- until it is requoted. */
  lemma OrderLifetime(cfg: SimConfig, s: Sim, turns: seq<Turn>, i: nat)
    requires Sound(s) && GoodTurns(turns) && Alone(s.live, i)
    requires LeftAlone(s, s.live[i].id) && NeverRequoted(turns, s.live[i].id)
    ensures var q := s.live[i];
            var (s', fills) := RunSim(cfg, s, turns);
            && FilledUnder(fills, q.id) + RestingUnder(s'.live, q.id) <= q.size
            && 0.0 <= RestingUnder(s'.live, q.id)
            && forall k :: 0 <= k < |s'.live| && s'.live[k].id == q.id ==> Later(q, s'.live[k])
  {
    hide Sound, GoodTurn, NoRequote, LeftAlone, RunSim, Later, FilledUnder;
    var q := s.live[i];
    var (s', fills) := RunSim(cfg, s, turns);
    RunConsumes(cfg, s, turns, q.id);
    AloneRests(s.live, i);
    SoundHealthy(s');
    SizesNonNegative(s'.live, q.id);
    SumNonNegative(s'.live, SizeUnder(q.id));
    forall k | 0 <= k < |s'.live| && s'.live[k].id == q.id
      ensures Later(q, s'.live[k])
    {
      var j :| 0 <= j < |s.live| && Later(s.live[j], s'.live[k]);
      SameId(s.live[j], s'.live[k]);
    }
  }
}
