/** The three predictor objects (`src/predictor.cpp`), updating their sets, slots and counters in place,
    proved against the book-keeping on values. */
module Predictors {
  import opened Base
  import opened Events
  import opened EventQueues
  import opened LodSelection
  import opened NpuCaches
  import opened Prefetching
  import opened Simulation
  import opened SimulationSafety
  import opened Injectors

  /** The event queue holds what is pending in `w`. */
  ghost predicate Holds(w: World, q: EventQueue)
    reads q
  {
    w.items == q.pending && w.next == q.nextSeq
  }

  lemma PostAllMore(s: Setup, w: World, rs: seq<Request>, r: Request)
    ensures PostAll(s, w, rs + [r]) ==
      Post(PostAll(s, w, rs), w.bus.now, WeightIssue(r.npc, Encode(s.cfg.lodSizes, r.lod)))
  {
    assert (rs + [r])[..|rs|] == rs;
  }

  /** Schedule the fetch of one more request; false where the original throws. */
  method Fetch(ghost s: Setup, ghost w: World, ghost rs: seq<Request>, q: EventQueue, weights: AIWeightInjector,
               now: Time, npc: nat, lod: int)
    returns (ok: bool)
    requires q.Valid() && Holds(PostAll(s, w, rs), q) && now == w.bus.now && weights.sizes == s.cfg.lodSizes
    modifies q
    ensures q.Valid() && (ok <==> IsLod(lod)) && (ok ==> Holds(PostAll(s, w, rs + [Request(npc, lod)]), q))
  {
    PostAllMore(s, w, rs, Request(npc, lod));
    hide PostAll, Encode, Insert;
    ok := weights.SchedulePrefetch(q, now, npc, lod);
  }

  /** Re-arm the next tick unless the scenario is over by then. */
  method RearmTick(s: Setup, ghost w: World, clock: Clock, q: EventQueue)
    requires q.Valid() && Holds(w, q) && w.bus.now == clock.now
    modifies q
    ensures q.Valid() && Holds(Rearm(s, w), q)
  {
    var next := clock.now + s.tickUs;
    var end := s.sc.durationMs * 1000;
    if next < end {
      var h := q.Schedule(next, PredictorTick);
    }
  }

  // ---- Everything at the start ----

  class ScriptedPredictor {
    const s: Setup

    constructor (s: Setup)
      ensures this.s == s && (s.kind.Scripted? ==> Script == FreshPredictor(s.kind))
    {
      this.s := s;
    }

    /** The finest weights for every NPC, at time zero. */
    method Start(ghost w: World, q: EventQueue, weights: AIWeightInjector)
      requires q.Valid() && Holds(w, q) && w.bus.now == 0 && weights.sizes == s.cfg.lodSizes
      modifies q
      ensures q.Valid() && Holds(PostAll(s, w, ScriptRequests(s.sc, |s.sc.npcs|)), q)
    {
      assert PostAll(s, w, []) == w;
      hide PostAll, Insert;
      for i := 0 to |s.sc.npcs|
        invariant q.Valid() && Holds(PostAll(s, w, ScriptRequests(s.sc, i)), q)
      {
        var ok := Fetch(s, w, ScriptRequests(s.sc, i), q, weights, 0, s.sc.npcs[i].id, 0);
      }
    }
  }

  // ---- Distance bands with hysteresis ----

  class LodPredictor {
    const s: Setup
    var lastLod: map<nat, int>
    var inFlight: set<nat>
    var resident: set<nat>

    ghost function Model(): Distance
      reads this
    {
      Distance(lastLod, inFlight, resident)
    }

    constructor (s: Setup)
      ensures this.s == s && Model() == Distance(map[], {}, {})
      ensures s.kind.ByDistance? ==> Distances(Model()) == FreshPredictor(s.kind)
    {
      this.s, lastLod, inFlight, resident := s, map[], {}, {};
    }

    /** One NPC of a tick; the result is the level to fetch, or -1. */
    method Visit(npc: Npc, now: Time) returns (fetch: int)
      requires s.kind.ByDistance?
      modifies this
      ensures var (st, r) := VisitByDistance(s.kind.bands, s.kind.pct, s.sc, old(Model()), npc, now);
        Model() == st && (fetch < 0 <==> r.None?) && (fetch >= 0 ==> r == Some(fetch))
    {
      var d := s.sc.view(npc.id, now / 1000).distance;
      var prev := if npc.id in lastLod then lastLod[npc.id] else COLD;
      var desired := SelectLod(s.kind.bands, s.kind.pct, d, prev);
      lastLod := lastLod[npc.id := desired];
      if desired < 0 {
        return -1;
      }
      var k := Key(npc.id, desired);
      if k in inFlight || k in resident {
        return -1;
      }
      inFlight := inFlight + {k};
      fetch := desired;
    }

    /** Visit every NPC, scheduling the fetches that are asked for; false where a fetch throws. */
    method VisitAll(ghost w: World, now: Time, q: EventQueue, weights: AIWeightInjector)
      returns (ok: bool, ghost rs: seq<Request>)
      requires q.Valid() && Holds(w, q) && w.bus.now == now
      requires s.kind.ByDistance? && weights.sizes == s.cfg.lodSizes
      modifies this, q
      ensures var (st, all) := VisitAllByDistance(s.kind.bands, s.kind.pct, s.sc, old(Model()), |s.sc.npcs|, now);
        && q.Valid() && (ok <==> AllLevels(all))
        && (ok ==> Model() == st && rs == all && Holds(PostAll(s, w, rs), q))
    {
      hide VisitByDistance, Insert;
      rs := [];
      assert PostAll(s, w, rs) == w;
      hide PostAll;
      for i := 0 to |s.sc.npcs|
        invariant q.Valid() && Holds(PostAll(s, w, rs), q) && AllLevels(rs)
        invariant (Model(), rs) == VisitAllByDistance(s.kind.bands, s.kind.pct, s.sc, old(Model()), i, now)
      {
        var lod := Visit(s.sc.npcs[i], now);
        if lod >= 0 {
          ok := Fetch(s, w, rs, q, weights, now, s.sc.npcs[i].id, lod);
          rs := rs + [Request(s.sc.npcs[i].id, lod)];
          if !ok {
            assert !IsLod(rs[|rs| - 1].lod);
            RequestsGrow(s, old(Model()), i + 1, |s.sc.npcs|, now);
            return;
          }
        }
      }
      ok := true;
    }

    /** One tick: every NPC gets a level, missing weights are fetched once, the tick is re-armed; false where
        a fetch throws. */
    method Tick(ghost w: World, clock: Clock, q: EventQueue, weights: AIWeightInjector) returns (ok: bool)
      requires q.Valid() && Holds(w, q) && w.bus.now == clock.now && w.pred == Distances(Model())
      requires s.kind.ByDistance? && weights.sizes == s.cfg.lodSizes
      modifies this, q
      ensures q.Valid() && (ok <==> KnownLevels(s, w))
      ensures ok ==> Holds(OnTick(s, w), q) && OnTick(s, w).pred == Distances(Model())
    {
      hide PostAll, VisitAllByDistance, AllLevels, Rearm;
      ghost var w1 := w.(pred := Simulation.Tick(s, w.pred, w.bus.now).0);
      ghost var rs: seq<Request>;
      ok, rs := VisitAll(w1, clock.now, q, weights);
      if !ok {
        return;
      }
      PostAllBus(s, w1, rs);
      PostAllPred(s, w1, rs);
      RearmTick(s, PostAll(s, w1, rs), clock, q);
      RearmPred(s, PostAll(s, w1, rs));
    }

    method OnComplete(npc: nat, lod: int)
      modifies this
      ensures Model() == DistanceComplete(old(Model()), npc, lod)
    {
      var k := Key(npc, lod);
      inFlight := inFlight - {k};
      resident := resident + {k};
    }
  }

  /** Requests are only ever added in the course of a tick. */
  lemma {:induction false} RequestsGrow(s: Setup, st: Distance, i: nat, n: nat, now: Time)
    requires s.kind.ByDistance? && i <= n <= |s.sc.npcs|
    ensures VisitAllByDistance(s.kind.bands, s.kind.pct, s.sc, st, i, now).1 <=
      VisitAllByDistance(s.kind.bands, s.kind.pct, s.sc, st, n, now).1
    decreases n
  {
    if i < n {
      RequestsGrow(s, st, i, n - 1, now);
    }
  }

  lemma RearmPred(s: Setup, w: World)
    ensures Rearm(s, w).pred == w.pred && Rearm(s, w).bus == w.bus && Rearm(s, w).ids == w.ids
  {
  }

  // ---- Player intent, with a bounded cache and core slots ----

  class IntentPredictor {
    const s: Setup
    const cache: NpuCache
    var lastLod: map<nat, int>
    var inFlight: set<nat>
    var handled: set<nat>
    var slots: seq<CoreSlot>
    var kpi: PredictorKpi

    ghost function Model(): Intent
      reads this, cache
    {
      Intent(cache.entries, lastLod, inFlight, handled, slots, kpi)
    }

    ghost predicate Valid()
      reads this, cache
    {
      s.kind.ByIntent? && cache.Valid() && cache.capacity == s.kind.capacity
    }

    constructor (s: Setup)
      requires s.kind.ByIntent?
      ensures Valid() && this.s == s && Intents(Model()) == FreshPredictor(s.kind) && fresh(cache)
    {
      var c := new NpuCache(s.kind.capacity);
      this.s, cache := s, c;
      lastLod, inFlight, handled := map[], {}, {};
      slots := NoSlots(s.kind.cores);
      kpi := PredictorKpi(0, 0, 0, 0, 0, 0, 0);
    }

    /** The desired level if resident, or the next coarser one that is, or -1. */
    method BestResidentLod(npc: nat, desired: int) returns (lod: int)
      ensures lod == BestResident(cache.entries, npc, desired)
    {
      lod := desired;
      while lod <= 2
        invariant desired <= lod && BestResident(cache.entries, npc, lod) == BestResident(cache.entries, npc, desired)
        decreases 3 - lod
      {
        if CK(npc, lod) in cache.entries {
          return;
        }
        lod := lod + 1;
      }
      lod := -1;
    }

    /** Re-use the slot of `npc`, take a free one, or fail with -1. */
    method AcquireSlot(npc: nat, lod: int, endsAt: int) returns (slot: int)
      modifies this`slots
      ensures match Prefetching.AcquireSlot(old(slots), npc, lod, endsAt)
              case None => slot == -1 && slots == old(slots)
              case Some(taken) =>
                slots == taken && 0 <= slot < |slots| && slots[slot].occupied && slots[slot].npc == npc
    {
      var i := 0;
      while i < |slots|
        invariant i <= |slots| && SlotOf(slots, npc, i) == SlotOf(slots, npc, 0) && slots == old(slots)
        decreases |slots| - i
      {
        if slots[i].occupied && slots[i].npc == npc {
          slots := slots[i := slots[i].(lod := lod, endsAt := Max(slots[i].endsAt, endsAt))];
          return i;
        }
        i := i + 1;
      }
      i := 0;
      while i < |slots|
        invariant i <= |slots| && FreeSlot(slots, i) == FreeSlot(slots, 0) && slots == old(slots)
        decreases |slots| - i
      {
        if !slots[i].occupied {
          slots := slots[i := CoreSlot(true, npc, lod, endsAt)];
          return i;
        }
        i := i + 1;
      }
      slot := -1;
    }

    method ReleaseExpiredSlots(t: int)
      requires Valid()
      modifies this`slots, cache
      ensures Valid() && Model() == ReleaseExpired(old(Model()), t)
    {
      var i := 0;
      while i < |slots|
        invariant Valid() && i <= |slots|
        invariant ReleaseFrom(cache.entries, slots, t, i) == ReleaseFrom(old(cache.entries), old(slots), t, 0)
        decreases |slots| - i
      {
        if slots[i].occupied && t >= slots[i].endsAt {
          var ok := cache.Unpin(CK(slots[i].npc, slots[i].lod));
          slots := slots[i := slots[i].(occupied := false)];
        }
        i := i + 1;
      }
    }

    /** Satisfy a new interaction from the cache, degrading if need be, on a core slot if one is free. */
    method HandleInteraction(npc: nat, distance: real, desired: int, endsAt: int, now: Time)
      requires Valid()
      modifies this`slots, this`kpi, cache
      ensures Valid() && Model() == Prefetching.HandleInteraction(old(Model()), npc, distance, desired, endsAt, now)
    {
      var actual := BestResidentLod(npc, desired);
      if actual < 0 {
        kpi := kpi.(degradations := kpi.degradations + 1, noWeight := kpi.noWeight + 1, misses := kpi.misses + 1);
        return;
      }
      if actual != desired {
        kpi := kpi.(degradations := kpi.degradations + 1, misses := kpi.misses + 1);
      } else {
        kpi := kpi.(hits := kpi.hits + 1);
      }
      var slot := AcquireSlot(npc, actual, endsAt);
      if slot < 0 {
        kpi := kpi.(saturations := kpi.saturations + 1);
        return;
      }
      var ok := cache.Pin(CK(npc, actual));
      cache.Touch(CK(npc, actual), now, distance);
    }

    /** The first listed interaction of `npc` that is going on at `t`. */
    method FindInteraction(npc: nat, t: int) returns (ix: Option<Interaction>)
      ensures ix == ActiveInteraction(s.sc.interactions, npc, t)
    {
      var ixs := s.sc.interactions;
      var i := 0;
      while i < |ixs|
        invariant i <= |ixs| && ActiveInteraction(ixs[i..], npc, t) == ActiveInteraction(ixs, npc, t)
        decreases |ixs| - i
      {
        if ActiveAt(ixs[i], npc, t) {
          return Some(ixs[i]);
        }
        i := i + 1;
      }
      ix := None;
    }

    /** One NPC of a tick; the result is the level to fetch, or -1. */
    method Visit(npc: Npc, now: Time) returns (fetch: int)
      requires Valid()
      modifies this`lastLod, this`inFlight, this`handled, this`slots, this`kpi, cache
      ensures Valid()
      ensures var (st, r) := VisitNpc(s.kind.ip, s.sc, old(Model()), npc, now);
        Model() == st && (fetch < 0 <==> r.None?) && (fetch >= 0 ==> r == Some(fetch) && IsLod(fetch))
    {
      var t := now / 1000;
      var v := s.sc.view(npc.id, t);
      var ix := FindInteraction(npc.id, t);
      var desired := IntentLod(s.kind.ip, npc.quest, ix.Some?, s.sc.stopped(t), v);
      lastLod := lastLod[npc.id := desired];
      if desired < 0 {
        return -1;
      }
      var wanted := Serve(npc.id, desired, v, ix, now);
      fetch := if wanted then desired else -1;
    }

    /** Refresh the level chosen for `npc`, serve a new interaction, decide whether to fetch. */
    method Serve(npc: nat, desired: int, v: View, ix: Option<Interaction>, now: Time) returns (fetch: bool)
      requires Valid()
      modifies this`inFlight, this`handled, this`slots, this`kpi, cache
      ensures Valid() && (Model(), fetch) == Prefetching.Serve(old(Model()), npc, desired, v, ix, now)
    {
      cache.Touch(CK(npc, desired), now, v.distance);
      if ix.Some? {
        var ik := Key(npc, ix.value.atMs);
        if ik !in handled {
          handled := handled + {ik};
          HandleInteraction(npc, v.distance, desired, EndsAt(ix.value), now);
        }
      }
      var k := Key(npc, desired);
      if k in inFlight || CK(npc, desired) in cache.entries {
        return false;
      }
      inFlight := inFlight + {k};
      fetch := true;
    }

    /** Visit every NPC, scheduling the fetches that are asked for. */
    method VisitAll(ghost w: World, now: Time, q: EventQueue, weights: AIWeightInjector)
      returns (ghost rs: seq<Request>)
      requires Valid() && q.Valid() && Holds(w, q) && w.bus.now == now && weights.sizes == s.cfg.lodSizes
      modifies this, cache, q
      ensures Valid() && q.Valid() && Holds(PostAll(s, w, rs), q)
      ensures (Model(), rs) == VisitNpcs(s.kind.ip, s.sc, old(Model()), |s.sc.npcs|, now)
    {
      hide VisitNpc, Insert;
      rs := [];
      assert PostAll(s, w, rs) == w;
      hide PostAll;
      for i := 0 to |s.sc.npcs|
        invariant Valid() && q.Valid() && Holds(PostAll(s, w, rs), q)
        invariant (Model(), rs) == VisitNpcs(s.kind.ip, s.sc, old(Model()), i, now)
      {
        var lod := Visit(s.sc.npcs[i], now);
        if lod >= 0 {
          var ok := Fetch(s, w, rs, q, weights, now, s.sc.npcs[i].id, lod);
          rs := rs + [Request(s.sc.npcs[i].id, lod)];
        }
      }
    }

    /** One tick: free expired slots, visit every NPC, re-arm. */
    method Tick(ghost w: World, clock: Clock, q: EventQueue, weights: AIWeightInjector)
      requires Valid() && q.Valid() && Holds(w, q) && w.bus.now == clock.now && w.pred == Intents(Model())
      requires weights.sizes == s.cfg.lodSizes
      modifies this, cache, q
      ensures Valid() && q.Valid() && Holds(OnTick(s, w), q) && OnTick(s, w).pred == Intents(Model())
    {
      hide PostAll, VisitNpcs, Rearm, ReleaseExpired;
      ghost var w1 := w.(pred := Simulation.Tick(s, w.pred, w.bus.now).0);
      ReleaseExpiredSlots(clock.now / 1000);
      ghost var rs := VisitAll(w1, clock.now, q, weights);
      PostAllBus(s, w1, rs);
      PostAllPred(s, w1, rs);
      RearmTick(s, PostAll(s, w1, rs), clock, q);
      RearmPred(s, PostAll(s, w1, rs));
    }

    /** Weights have arrived: offer them to the cache and count what that cost. */
    method OnComplete(npc: nat, lod: int, distance: real, now: Time)
      requires Valid()
      modifies this`inFlight, this`kpi, cache
      ensures Valid()
      ensures IntentComplete(s.cfg.lodSizes, s.kind.capacity, s.sc, old(Model()), npc, lod, distance, now, Model())
    {
      inFlight := inFlight - {Key(npc, lod)};
      var r := cache.Admit(CK(npc, lod), Encode(s.cfg.lodSizes, lod), now, distance);
      for i := 0 to |r.evicted|
        modifies this`kpi
        invariant kpi == old(kpi).(evictions := old(kpi).evictions + i)
      {
        kpi := kpi.(evictions := kpi.evictions + 1);
      }
      if !r.accepted {
        kpi := kpi.(refusals := kpi.refusals + 1);
      }
    }
  }
}
