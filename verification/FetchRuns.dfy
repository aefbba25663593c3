/** Whole runs of the distance predictor fetch each weight at most once, and no run ends with a fetch open. */
module FetchRuns {
  import opened Base
  import opened Configuration
  import opened Scheduling
  import opened Runs
  import opened RoundRobin
  import opened RateLimits
  import opened LaneSums
  import opened Prefetching
  import opened SlotSafety
  import opened Simulation
  import opened SimulationSafety
  import opened Termination
  import opened PrefetchProtocol
  import opened Interactions

  // ---- At most once ----

  /** How often the first `n` firings of a run ask for the weights of (npc, lod). */
  function Asks(s: Setup, r: seq<World>, n: nat, npc: nat, lod: int): nat
    requires n <= |r|
  {
    if n == 0 then 0
    else
      Asks(s, r, n - 1, npc, lod)
      + if IsTick(r[n - 1]) then Fetches(Tick(s, r[n - 1].pred, r[n - 1].items[0].when).1, npc, lod) else 0
  }

  /** The weights are on their way or have arrived. */
  predicate Known(p: Predictor, npc: nat, lod: int) {
    p.Distances? && (Key(npc, lod) in p.dist.inFlight || Key(npc, lod) in p.dist.resident)
  }

  function Indicator(b: bool): nat {
    if b then 1 else 0
  }

  lemma TickAsksNew(s: Setup, p: Predictor, now: Time, npc: nat, lod: int)
    requires s.kind.ByDistance? && p.Distances? && IsLod(lod) && AllLevels(Tick(s, p, now).1)
    ensures var (p', rs) := Tick(s, p, now);
      p'.Distances? && Indicator(Known(p', npc, lod)) == Indicator(Known(p, npc, lod)) + Fetches(rs, npc, lod)
  {
    var (p', rs) := Tick(s, p, now);
    VisitByDistanceAsks(s.kind.bands, s.kind.pct, s.sc, p.dist, |s.sc.npcs|, now);
    hide VisitAllByDistance;
    FetchesOnce(rs, npc, lod);
  }

  /** Only what is in flight is delivered. */
  lemma DeliveredInFlight(s: Setup, w: World)
    requires WorldInv(s, w) && w.bus.slot.Some? && DeliversWeights(w.bus) && Distinguishable(s.cfg.lodSizes)
    requires forall npc, lod :: IsLod(lod) ==> Tracked(s, w, npc, lod)
    ensures var tx := w.bus.slot.value.p.tx; Key(tx.inst, Decode(s.cfg.lodSizes, tx.size)) in InFlight(w.pred)
  {
    var tx := w.bus.slot.value.p.tx;
    SlotTxnOk(s, w.bus);
    var l :| IsLod(l) && tx.size == Encode(s.cfg.lodSizes, l);
    EncodeInjective(s.cfg.lodSizes, l, l);
    assert Tracked(s, w, tx.inst, l);
    assert CarrierOf(tx.inst, tx.size)(w.bus.slot.value.p) == 1;
    hide WorldInv, Encode, Decode, Distinguishable, DisciplineSum, SumItems, TxnOk, Key;
  }

  lemma StepAsks(s: Setup, w: World, w': World, npc: nat, lod: int)
    requires s.kind.ByDistance? && w.pred.Distances? && IsLod(lod) && Step(s, w, w')
    ensures w.items != [] && w'.pred.Distances?
    ensures IsTick(w) ==>
      Indicator(Known(w'.pred, npc, lod)) ==
      Indicator(Known(w.pred, npc, lod)) + Fetches(Tick(s, w.pred, w.items[0].when).1, npc, lod)
    ensures !IsTick(w) && Known(w.pred, npc, lod) ==> Known(w'.pred, npc, lod)
    ensures !IsTick(w) && Known(w'.pred, npc, lod) && !Known(w.pred, npc, lod) ==>
      w.items[0].ev.QuantumDone? && DeliversWeights(Pull(w).bus)
      && var tx := Pull(w).bus.slot.value.p.tx; Key(npc, lod) == Key(tx.inst, Decode(s.cfg.lodSizes, tx.size))
  {
    StepPred(s, w, w');
    if IsTick(w) {
      hide Step;
      TickAsksNew(s, w.pred, w.items[0].when, npc, lod);
    }
    hide Tick, Decode, Key, DeliversWeights;
  }

  /** Over a whole run the distance predictor asks for the weights of each (npc, lod) at most once, and with
      distinguishable sizes exactly once iff they are in flight or resident. */
  lemma {:induction false} AsksAtMostOnce(s: Setup, r: seq<World>, n: nat, npc: nat, lod: int)
    requires WellPosed(s) && s.kind.ByDistance? && IsLod(lod) && History(s, r) && n < |r|
    ensures r[n].pred.Distances? && Asks(s, r, n, npc, lod) <= Indicator(Known(r[n].pred, npc, lod)) <= 1
    ensures Distinguishable(s.cfg.lodSizes) ==> Asks(s, r, n, npc, lod) == Indicator(Known(r[n].pred, npc, lod))
  {
    hide Initial, Step, WellPosed, Distinguishable, Tick, Known, WorldInv;
    if n == 0 {
      InitialPred(s);
      FreshKnowsNothing(s, npc, lod);
    } else {
      AsksAtMostOnce(s, r, n - 1, npc, lod);
      assert StepsAt(s, r, n - 1);
      StepAsks(s, r[n - 1], r[n], npc, lod);
      if Distinguishable(s.cfg.lodSizes) && !IsTick(r[n - 1]) && Known(r[n].pred, npc, lod)
        && !Known(r[n - 1].pred, npc, lod) {
        NeverUnasked(s, r, n - 1, npc, lod);
        assert false;
      }
    }
  }

  lemma FreshKnowsNothing(s: Setup, npc: nat, lod: int)
    requires s.kind.ByDistance?
    ensures var p := FreshPredictor(s.kind); p.Distances? && !Known(p, npc, lod)
  {
  }

  /** A delivery of weights that were not in flight does not happen. */
  lemma NeverUnasked(s: Setup, r: seq<World>, n: nat, npc: nat, lod: int)
    requires WellPosed(s) && !s.kind.Scripted? && Distinguishable(s.cfg.lodSizes) && History(s, r) && n < |r|
    requires r[n].pred.Distances? && r[n].items != [] && r[n].items[0].ev.QuantumDone?
      && DeliversWeights(Pull(r[n]).bus)
    requires var tx := Pull(r[n]).bus.slot.value.p.tx; Key(npc, lod) == Key(tx.inst, Decode(s.cfg.lodSizes, tx.size))
    ensures Known(r[n].pred, npc, lod)
  {
    HistoryInv(s, r, n);
    forall npc', lod' | IsLod(lod') ensures Tracked(s, r[n], npc', lod') {
      InFlightExactly(s, r, n, npc', lod');
    }
    assert r[n].bus.slot.Some? && DeliversWeights(r[n].bus);
    DeliveredInFlight(s, r[n]);
  }

  // ---- Nothing open at the end ----

  ghost predicate OfLevel(k: nat) {
    exists npc: nat, lod :: IsLod(lod) && k == Key(npc, lod)
  }

  ghost predicate LevelsInFlight(p: Predictor) {
    forall k :: k in InFlight(p) ==> OfLevel(k)
  }

  lemma TickLevels(s: Setup, p: Predictor, now: Time, later: Time)
    requires PredictorOk(s, p, now) && now <= later && LevelsInFlight(p) && AllLevels(Tick(s, p, later).1)
    ensures LevelsInFlight(Tick(s, p, later).0)
  {
    TickAsks(s, p, now, later);
    hide Tick, PredictorOk, Key;
    var (p', rs) := Tick(s, p, later);
    forall k | k in InFlight(p') ensures OfLevel(k) {
      if k !in InFlight(p) {
        var i :| 0 <= i < |rs| && KeyOf(rs[i]) == k;
        assert IsLod(rs[i].lod);
      }
    }
  }

  lemma StepLevels(s: Setup, w: World, w': World)
    requires WorldInv(s, w) && Step(s, w, w') && LevelsInFlight(w.pred)
    ensures LevelsInFlight(w'.pred)
  {
    StepPred(s, w, w');
    PullFacts(s, w);
    PredictorFine(s, w);
    PullInv(s, w);
    hide WorldInv, Step, Tick, Decode, PredictorOk, Noted, LevelsInFlight;
    match w.items[0].ev
    case PredictorTick => TickLevels(s, w.pred, w.bus.now, w.items[0].when);
    case QuantumDone(_) =>
      var b := Pull(w).bus;
      if DeliversWeights(b) {
        var tx := b.slot.value.p.tx;
        NotedKeeps(s, w.pred, tx.inst, Decode(s.cfg.lodSizes, tx.size), b.now, w'.pred);
        FewerLevels(w.pred, w'.pred);
      }
    case _ =>
  }

  lemma FewerLevels(p: Predictor, p': Predictor)
    requires LevelsInFlight(p) && InFlight(p') <= InFlight(p)
    ensures LevelsInFlight(p')
  {
  }

  lemma {:induction false} RunLevels(s: Setup, r: seq<World>, n: nat)
    requires WellPosed(s) && History(s, r) && n < |r|
    ensures LevelsInFlight(r[n].pred)
  {
    hide Initial, Step, WorldInv, WellPosed;
    if n == 0 {
      InitialPred(s);
    } else {
      RunLevels(s, r, n - 1);
      HistoryInv(s, r, n - 1);
      assert StepsAt(s, r, n - 1);
      StepLevels(s, r[n - 1], r[n]);
    }
  }

  lemma CriticalQueue(b: Bus, p: Pending)
    requires Reachable(b) && p in Queue(b.d, CritLane)
    ensures p.tx.qos == Critical
  {
    ReachableRight(b);
    SortedCritical(b.d, p);
  }

  lemma SortedCritical(d: Discipline, p: Pending)
    requires Sorted3(d) && p in Queue(d, CritLane)
    ensures p.tx.qos == Critical
  {
    assert KeyLane(d.FifoQ?, p) == CritLane;
  }

  /** Only the critical queue can hold anything at the end. */
  lemma CriticalLeft(b: Bus, f: Pending -> nat)
    requires Drained(b)
    ensures SystemSum(b, f) == SumQ(Queue(b.d, CritLane), f)
  {
  }

  lemma NoCarrierIn(s: Setup, q: seq<Pending>, npc: nat, size: nat)
    requires SumQ(q, Stray(s)) == 0 && (q == [] || s.weightQos != Critical)
    requires forall p :: p in q ==> p.tx.qos == Critical
    ensures SumQ(q, CarrierOf(npc, size)) == 0
  {
    SumQZero(q, Stray(s));
    forall p | p in q ensures CarrierOf(npc, size)(p) == 0 {
      assert Stray(s)(p) == 0;
    }
    SumQZero(q, CarrierOf(npc, size));
  }

  /** In the queues left at the end there are no weights, unless weights are critical. */
  lemma NoCarrierLeft(s: Setup, b: Bus, npc: nat, size: nat)
    requires BusOk(s, b) && Drained(b) && (s.cfg.policy == Fifo || s.weightQos != Critical)
    ensures SystemSum(b, CarrierOf(npc, size)) == 0
  {
    var q := Queue(b.d, CritLane);
    assert SystemSum(b, Stray(s)) == 0 && Reachable(b) && b.cfg == s.cfg;
    hide BusOk, Reachable, SystemSum, Stray, CarrierOf;
    ReachablePolicy(b);
    CriticalLeft(b, Stray(s));
    CriticalLeft(b, CarrierOf(npc, size));
    hide Drained;
    forall p | p in q ensures p.tx.qos == Critical {
      CriticalQueue(b, p);
    }
    NoCarrierIn(s, q, npc, size);
  }

  /** When the loop ends nothing is in flight any more, under FIFO and whenever weights are not critical. */
  lemma NothingInFlightAtEnd(s: Setup, r: seq<World>)
    requires WellPosed(s) && !s.kind.Scripted? && Distinguishable(s.cfg.lodSizes)
    requires s.cfg.policy == Fifo || s.weightQos != Critical
    requires History(s, r) && r[|r| - 1].items == []
    ensures InFlight(r[|r| - 1].pred) == {}
  {
    hide Initial, Step, WellPosed, BusOk, Drained, Distinguishable, Encode, Key;
    var w := r[|r| - 1];
    EndDrained(s, r);
    HistoryInv(s, r, |r| - 1);
    assert BusOk(s, w.bus);
    hide WorldInv;
    RunLevels(s, r, |r| - 1);
    forall k ensures k !in InFlight(w.pred) {
      if k in InFlight(w.pred) {
        assert OfLevel(k);
        var npc: nat, lod :| IsLod(lod) && k == Key(npc, lod);
        InFlightExactly(s, r, |r| - 1, npc, lod);
        NoCarrierLeft(s, w.bus, npc, Encode(s.cfg.lodSizes, lod));
        assert false;
      }
    }
  }
}
