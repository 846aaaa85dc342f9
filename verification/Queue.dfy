/** The latency queue: sorted in every state, applied exactly when due, and otherwise left alone. */
module Queue {
  import opened Decimals
  import opened Core
  import opened Book
  import opened Venue
  import opened Lifecycle

  // ---------------------------------------------------------------------------------------------
  // Embedded sequences

  /** `xs` is `ys` with some elements left out. */
  predicate Embedded<T(==)>(xs: seq<T>, ys: seq<T>)
    decreases |ys|
  {
    if xs == [] then true
    else if ys == [] then false
    else (xs[0] == ys[0] && Embedded(xs[1..], ys[1..])) || Embedded(xs, ys[1..])
  }

  lemma {:induction false} EmbeddedSelf<T>(xs: seq<T>)
    ensures Embedded(xs, xs)
  {
    if xs != [] {
      EmbeddedSelf(xs[1..]);
    }
  }

  lemma {:induction false} EmbeddedTail<T>(xs: seq<T>, ys: seq<T>)
    requires Embedded(xs, ys) && xs != []
    ensures Embedded(xs[1..], ys)
    decreases |ys|
  {
    if !(xs[0] == ys[0] && Embedded(xs[1..], ys[1..])) {
      EmbeddedTail(xs, ys[1..]);
    }
  }

  lemma {:induction false} EmbeddedTrans<T>(xs: seq<T>, ys: seq<T>, zs: seq<T>)
    requires Embedded(xs, ys) && Embedded(ys, zs)
    ensures Embedded(xs, zs)
    decreases |zs|
  {
    if xs != [] && zs != [] {
      if ys[0] == zs[0] && Embedded(ys[1..], zs[1..]) {
        if xs[0] == ys[0] && Embedded(xs[1..], ys[1..]) {
          EmbeddedTrans(xs[1..], ys[1..], zs[1..]);
        } else {
          EmbeddedTrans(xs, ys[1..], zs[1..]);
        }
      } else {
        EmbeddedTrans(xs, ys, zs[1..]);
      }
    }
  }

  lemma {:induction false} EmbeddedSnoc<T>(xs: seq<T>, ys: seq<T>, zs: seq<T>)
    requires Embedded(xs, ys)
    ensures Embedded(xs + zs, ys + zs)
    decreases |ys|
  {
    if ys == [] {
      assert xs + zs == zs && ys + zs == zs;
      EmbeddedSelf(zs);
    } else {
      assert (ys + zs)[1..] == ys[1..] + zs;
      if xs == [] {
        EmbeddedSnoc(xs, ys[1..], zs);
      } else if xs[0] == ys[0] && Embedded(xs[1..], ys[1..]) {
        assert (xs + zs)[1..] == xs[1..] + zs;
        EmbeddedSnoc(xs[1..], ys[1..], zs);
      } else {
        EmbeddedSnoc(xs, ys[1..], zs);
      }
    }
  }

  lemma {:induction false} FilterEmbedded<T(!new)>(xs: seq<T>, keep: T -> bool)
    ensures Embedded(Filter(xs, keep), xs)
  {
    if xs != [] {
      FilterEmbedded(xs[1..], keep);
      var rest := Filter(xs[1..], keep);
      if keep(xs[0]) {
        assert ([xs[0]] + rest)[1..] == rest;
      } else {
        assert [] + rest == rest;
      }
    }
  }

  // ---------------------------------------------------------------------------------------------
  // Operations at one time

  function At(t: nat): PendingOp -> bool {
    (p: PendingOp) => p.scheduledTs == t
  }

  lemma {:induction false} AtTimeIsFilter(pending: seq<PendingOp>, t: nat)
    ensures AtTime(pending, t) == Filter(pending, At(t))
    decreases |pending|
  {
    if pending != [] {
      var init, last := pending[..|pending| - 1], pending[|pending| - 1];
      AtTimeIsFilter(init, t);
      assert pending == init + [last];
      FilterAppend(init, [last], At(t));
      assert Filter([last], At(t)) == (if At(t)(last) then [last] else []) + [];
    }
  }

  lemma {:induction false} EmbeddedFilter<T(!new)>(xs: seq<T>, ys: seq<T>, keep: T -> bool)
    requires Embedded(xs, ys)
    ensures Embedded(Filter(xs, keep), Filter(ys, keep))
    decreases |ys|
  {
    if xs != [] {
      var restY := Filter(ys[1..], keep);
      var filtered := Filter(ys, keep);
      assert filtered == if keep(ys[0]) then [ys[0]] + restY else [] + restY;
      if xs[0] == ys[0] && Embedded(xs[1..], ys[1..]) {
        EmbeddedFilter(xs[1..], ys[1..], keep);
        var restX := Filter(xs[1..], keep);
        if keep(xs[0]) {
          assert ([xs[0]] + restX)[1..] == restX && ([ys[0]] + restY)[1..] == restY;
        } else {
          assert [] + restX == restX && [] + restY == restY;
        }
      } else {
        EmbeddedFilter(xs, ys[1..], keep);
        if keep(ys[0]) {
          assert ([ys[0]] + restY)[1..] == restY;
        } else {
          assert [] + restY == restY;
        }
      }
    }
  }

  // ---------------------------------------------------------------------------------------------
  // What an event does to the queue

  /** The ids whose pending placements and replaces an operation withdraws. */
  function WithdrawnBy(p: PendingOp): set<QuoteId> {
    match p.op
    case ReplaceOp(id, _) => {id}
    case CancelOp(id) => {id}
    case _ => {}
  }

  function Withdrawn(ready: seq<PendingOp>): set<QuoteId> {
    if ready == [] then {} else WithdrawnBy(ready[0]) + Withdrawn(ready[1..])
  }

  predicate Stands(p: PendingOp, gone: set<QuoteId>) {
    match p.op
    case PlaceOp(_, o) => !(o.Some? && o.value in gone)
    case ReplaceOp(id, _) => id !in gone
    case _ => true
  }

  function Standing(gone: set<QuoteId>): PendingOp -> bool {
    (p: PendingOp) => Stands(p, gone)
  }

  lemma {:induction false} FilterSame<T(!new)>(xs: seq<T>, p: T -> bool, q: T -> bool)
    requires forall x :: p(x) == q(x)
    ensures Filter(xs, p) == Filter(xs, q)
  {
    if xs != [] {
      FilterSame(xs[1..], p, q);
    }
  }

  lemma {:induction false} FilterTwice<T(!new)>(xs: seq<T>, p: T -> bool, q: T -> bool, both: T -> bool)
    requires forall x :: both(x) == (p(x) && q(x))
    ensures Filter(Filter(xs, p), q) == Filter(xs, both)
  {
    if xs != [] {
      FilterTwice(xs[1..], p, q, both);
      var rest := Filter(xs[1..], p);
      if p(xs[0]) {
        assert ([xs[0]] + rest)[1..] == rest;
      } else {
        assert [] + rest == rest && Filter(xs, both) == [] + Filter(xs[1..], both) == Filter(xs[1..], both);
      }
    }
  }

  lemma PlacePending(cfg: SimConfig, s: Sim, intent: QuoteIntent, ts: nat, overrideId: Option<QuoteId>,
                     submittedAt: nat)
    ensures Place(cfg, s, intent, ts, overrideId, submittedAt).0.pending == s.pending
  {
    hide Verdict, Consumed, Round, Bps, DecrementAll;
  }

  lemma ApplyPendingOf(cfg: SimConfig, s: Sim, p: PendingOp)
    ensures Apply(cfg, s, p).0.pending == Filter(s.pending, Standing(WithdrawnBy(p)))
  {
    hide Place, Filter;
    match p.op
    case PlaceOp(intent, o) =>
      PlacePending(cfg, s, intent, p.scheduledTs, o, p.submittedAt);
      FilterAll(s.pending, Standing({}));
    case ReplaceOp(id, intent) =>
      var i := IndexOf(s.live, id);
      var evicted := s.(live := if i < |s.live| then RemoveAt(s.live, i) else s.live,
                        pending := PurgePending(s.pending, id));
      PlacePending(cfg, evicted, intent, p.scheduledTs, Some(id), p.submittedAt);
      FilterSame(s.pending, Uncarried(id), Standing({id}));
    case CancelOp(id) => FilterSame(s.pending, Uncarried(id), Standing({id}));
    case CancelAllOp => FilterAll(s.pending, Standing({}));
  }

  /** The operations applied take with them exactly what carries an id they cancel or replace. */
  lemma {:induction false} ApplyAllPending(cfg: SimConfig, s: Sim, ready: seq<PendingOp>)
    ensures ApplyAll(cfg, s, ready).0.pending == Filter(s.pending, Standing(Withdrawn(ready)))
    decreases |ready|
  {
    hide Apply, Filter;
    if ready == [] {
      FilterAll(s.pending, Standing({}));
    } else {
      var s1 := Apply(cfg, s, ready[0]).0;
      ApplyPendingOf(cfg, s, ready[0]);
      ApplyAllPending(cfg, s1, ready[1..]);
      FilterTwice(s.pending, Standing(WithdrawnBy(ready[0])), Standing(Withdrawn(ready[1..])),
                  Standing(Withdrawn(ready)));
    }
  }

  function DueBy(now: nat): PendingOp -> bool {
    (p: PendingOp) => p.scheduledTs <= now
  }

  function Undue(now: nat): PendingOp -> bool {
    (p: PendingOp) => p.scheduledTs > now
  }

  /** On a sorted queue the front taken is exactly what is due. */
  lemma DueIsFilter(s: Sim, now: nat)
    requires Scheduled(s.pending)
    ensures Due(s, now) == Filter(s.pending, DueBy(now))
    ensures s.pending[|Due(s, now)|..] == Filter(s.pending, Undue(now))
  {
    hide Filter;
    var due, rest := Due(s, now), s.pending[|Due(s, now)|..];
    assert s.pending == due + rest;
    forall i | 0 <= i < |s.pending|
      ensures i < |due| <==> s.pending[i].scheduledTs <= now
    {
      DueExactly(s, now, i);
    }
    FilterAppend(due, rest, DueBy(now));
    FilterAll(due, DueBy(now));
    FilterNone(rest, DueBy(now));
    FilterAppend(due, rest, Undue(now));
    FilterNone(due, Undue(now));
    FilterAll(rest, Undue(now));
  }

  lemma {:induction false} FilterScheduled(pending: seq<PendingOp>, keep: PendingOp -> bool)
    requires Scheduled(pending)
    ensures Scheduled(Filter(pending, keep))
  {
    if pending != [] {
      hide Scheduled;
      ScheduledTail(pending);
      FilterScheduled(pending[1..], keep);
      var rest := Filter(pending[1..], keep);
      ScheduledCons(pending[0], rest);
      assert [] + rest == rest;
    }
  }

  lemma ScheduledTail(pending: seq<PendingOp>)
    requires Scheduled(pending) && pending != []
    ensures Scheduled(pending[1..]) && forall o :: o in pending[1..] ==> pending[0].scheduledTs <= o.scheduledTs
  {
  }

  lemma ScheduledCons(p: PendingOp, rest: seq<PendingOp>)
    requires Scheduled(rest) && forall o :: o in rest ==> p.scheduledTs <= o.scheduledTs
    ensures Scheduled([p] + rest)
  {
    assert forall j :: 0 <= j < |rest| ==> rest[j] in rest;
  }

  lemma QueueFrame(cfg: SimConfig, s: Sim, ev: MarketEvent, now: nat, noise: Noise)
    ensures var s1 := SilentCancels(cfg, DecayQueues(cfg, s, now, noise), now, noise);
            && s1.pending == s.pending
            && OnMarketEvent(cfg, s, ev, now, noise).0.pending == ApplyPending(cfg, s1, now).0.pending
  {
    hide ApplyPending, ReattributeAll, BookFrom, MatchTrade, DecayAll;
    var s2 := ApplyPending(cfg, SilentCancels(cfg, DecayQueues(cfg, s, now, noise), now, noise), now).0;
    if ev.Trade? {
      TradePending(cfg, s2, ev.symbol, ev.price, ev.size, ev.side, ev.ts);
    }
  }

  lemma TradePending(cfg: SimConfig, s: Sim, symbol: Symbol, price: real, size: real, taker: Side, ts: nat)
    ensures MatchTrade(cfg, s, symbol, price, size, taker, ts).0.pending == s.pending
  {
    hide TradeBites, LiveAfter, Drained;
    BitesPending(cfg, s, TradeBites(s, symbol, price, size, taker));
  }

  lemma {:induction false} BitesPending(cfg: SimConfig, s: Sim, bites: seq<Bite>)
    ensures SettleBites(cfg, s, bites).pending == s.pending
    decreases |bites|
  {
    if bites != [] {
      hide BookAfter, MakerFee, Round, Notional;
      BitesPending(cfg, SettleBite(cfg, s, bites[0]), bites[1..]);
    }
  }

  /** One event on a sorted queue: what is due by now is applied, in queue order, and what is not stays
      in its order, save what the operations applied withdrew. */
  lemma EventQueue(cfg: SimConfig, s: Sim, ev: MarketEvent, now: nat, noise: Noise)
    requires Scheduled(s.pending)
    ensures var s' := OnMarketEvent(cfg, s, ev, now, noise).0;
            && Due(s, now) == Filter(s.pending, DueBy(now))
            && s'.pending == Filter(Filter(s.pending, Undue(now)), Standing(Withdrawn(Due(s, now))))
            && Scheduled(s'.pending) && Embedded(s'.pending, s.pending)
  {
    hide OnMarketEvent, Filter, Scheduled, DecayQueues, SilentCancels, ApplyAll, Withdrawn, DueCount, Embedded;
    QueueFrame(cfg, s, ev, now, noise);
    DueIsFilter(s, now);
    var s1 := SilentCancels(cfg, DecayQueues(cfg, s, now, noise), now, noise);
    var k := DueCount(s1.pending, now);
    ApplyAllPending(cfg, s1.(pending := s1.pending[k..]), s1.pending[..k]);
    FilterScheduled(s.pending, Undue(now));
    FilterScheduled(Filter(s.pending, Undue(now)), Standing(Withdrawn(Due(s, now))));
    FilterEmbedded(s.pending, Undue(now));
    FilterEmbedded(Filter(s.pending, Undue(now)), Standing(Withdrawn(Due(s, now))));
    EmbeddedTrans(Filter(Filter(s.pending, Undue(now)), Standing(Withdrawn(Due(s, now)))),
                  Filter(s.pending, Undue(now)), s.pending);
  }
}
