/** Which levels the predictors want over whole simulations, and that what is wanted is fetched. */
module LevelRuns {
  import opened Base
  import opened LodSelection
  import opened NpuCaches
  import opened Prefetching
  import opened Simulation
  import opened SimulationSafety
  import opened Interactions
  import opened CacheRuns

  // ---- The distance predictor: one decision per NPC and tick ----

  predicate DistinctNpcs(sc: Scene) {
    forall i, j :: 0 <= i < j < |sc.npcs| ==> sc.npcs[i].id != sc.npcs[j].id
  }

  /** Distances of the NPC at the ticks. */
  function DistancesAt(sc: Scene, npc: nat, ticks: seq<Time>): seq<real> {
    if ticks == [] then []
    else DistancesAt(sc, npc, ticks[..|ticks| - 1]) + [sc.view(npc, ticks[|ticks| - 1] / 1000).distance]
  }

  function LastLevel(st: Distance, npc: nat): int {
    if npc in st.lastLod then st.lastLod[npc] else COLD
  }

  lemma {:induction false} VisitsDecide(bands: seq<Band>, pct: nat, sc: Scene, st: Distance, n: nat, i: nat, now: Time)
    requires DistinctNpcs(sc) && n <= |sc.npcs| && i < |sc.npcs|
    ensures var st', npc := VisitAllByDistance(bands, pct, sc, st, n, now).0, sc.npcs[i].id;
      LastLevel(st', npc) ==
      if i < n then Select(bands, pct, sc.view(npc, now / 1000).distance, LastLevel(st, npc)) else LastLevel(st, npc)
  {
    hide Select;
    if n > 0 {
      VisitsDecide(bands, pct, sc, st, n - 1, i, now);
    }
  }

  /** The weights of the level wanted for each of the first `n` NPCs are on their way or have arrived. */
  predicate WantedKnown(sc: Scene, st: Distance, n: nat)
    requires n <= |sc.npcs|
  {
    forall i :: 0 <= i < n ==>
      var npc := sc.npcs[i].id;
      npc in st.lastLod &&
      (st.lastLod[npc] >= 0 ==> Key(npc, st.lastLod[npc]) in st.inFlight || Key(npc, st.lastLod[npc]) in st.resident)
  }

  lemma {:induction false} VisitsKnow(bands: seq<Band>, pct: nat, sc: Scene, st: Distance, n: nat, now: Time)
    requires n <= |sc.npcs|
    ensures WantedKnown(sc, VisitAllByDistance(bands, pct, sc, st, n, now).0, n)
  {
    hide Select, Key;
    if n > 0 {
      VisitsKnow(bands, pct, sc, st, n - 1, now);
    }
  }

  /** Whether the first `n` firings include a tick. */
  lemma TicksSoFar(r: seq<World>, n: nat)
    requires 0 < n <= |r|
    ensures IsTick(r[n - 1]) ==> TicksOf(r, n) == TicksOf(r, n - 1) + [r[n - 1].items[0].when]
    ensures !IsTick(r[n - 1]) ==> TicksOf(r, n) == TicksOf(r, n - 1)
  {
  }

  lemma LevelAfterMore(bands: seq<Band>, pct: nat, ds: seq<real>, d: real)
    ensures LevelAfter(bands, pct, ds + [d]) == Select(bands, pct, d, LevelAfter(bands, pct, ds))
  {
    assert (ds + [d])[..|ds|] == ds;
  }

  lemma DistancesMore(sc: Scene, npc: nat, ticks: seq<Time>, t: Time)
    ensures DistancesAt(sc, npc, ticks + [t]) == DistancesAt(sc, npc, ticks) + [sc.view(npc, t / 1000).distance]
  {
    assert (ticks + [t])[..|ticks|] == ticks;
  }

  /** What a step leaves of the distance predictor's decisions. */
  lemma StepDecides(s: Setup, w: World, w': World, i: nat)
    requires s.kind.ByDistance? && w.pred.Distances? && DistinctNpcs(s.sc) && i < |s.sc.npcs| && Step(s, w, w')
    ensures w'.pred.Distances?
    ensures var npc, d, d' := s.sc.npcs[i].id, w.pred.dist, w'.pred.dist;
      LastLevel(d', npc) ==
      if IsTick(w) then
        Select(s.kind.bands, s.kind.pct, s.sc.view(npc, w.items[0].when / 1000).distance, LastLevel(d, npc))
      else LastLevel(d, npc)
  {
    StepPred(s, w, w');
    hide Step, Select, KnownLevels, VisitAllByDistance, Decode, DeliversWeights;
    if IsTick(w) {
      VisitsDecide(s.kind.bands, s.kind.pct, s.sc, w.pred.dist, |s.sc.npcs|, i, w.items[0].when);
    }
  }

  /** In every state of every run the level of each NPC is the one decided from a cold start after the
      distances it had at the ticks so far: each decision starts from the previous one. */
  lemma {:induction false} LevelsFollow(s: Setup, r: seq<World>, n: nat, i: nat)
    requires s.kind.ByDistance? && DistinctNpcs(s.sc) && History(s, r) && n < |r| && i < |s.sc.npcs|
    ensures r[n].pred.Distances?
    ensures var npc := s.sc.npcs[i].id;
      LastLevel(r[n].pred.dist, npc) == LevelAfter(s.kind.bands, s.kind.pct, DistancesAt(s.sc, npc, TicksOf(r, n)))
  {
    hide Initial, Step, Select, LevelAfter, DistancesAt, TicksOf;
    var npc := s.sc.npcs[i].id;
    if n == 0 {
      InitialPred(s);
      ColdAtStart(s, r, npc);
    } else {
      LevelsFollow(s, r, n - 1, i);
      assert StepsAt(s, r, n - 1);
      StepDecides(s, r[n - 1], r[n], i);
      TicksSoFar(r, n);
      if IsTick(r[n - 1]) {
        var ticks, t := TicksOf(r, n - 1), FirstWhen(r[n - 1]);
        DistancesMore(s.sc, npc, ticks, t);
        LevelAfterMore(s.kind.bands, s.kind.pct, DistancesAt(s.sc, npc, ticks), s.sc.view(npc, t / 1000).distance);
      }
    }
  }

  function FirstWhen(w: World): Time {
    if w.items == [] then 0 else w.items[0].when
  }

  lemma ColdAtStart(s: Setup, r: seq<World>, npc: nat)
    requires s.kind.ByDistance? && r != []
    ensures LastLevel(FreshPredictor(s.kind).dist, npc) == COLD
    ensures LevelAfter(s.kind.bands, s.kind.pct, DistancesAt(s.sc, npc, TicksOf(r, 0))) == COLD
  {
  }

  /** The hysteresis percentage of the smallest band edge. */
  function Deadband(pct: nat, least: nat): real {
    pct as real / 100.0 * least as real
  }

  /** So over a whole run the demotions of an NPC, each of which costs at least the smallest deadband, are
      bounded by the way its distance travels from tick to tick. */
  lemma DemotionsOfRun(s: Setup, least: nat, r: seq<World>, n: nat, i: nat)
    requires s.kind.ByDistance? && Banded(s.kind.bands, least) && n < |r| && i < |s.sc.npcs|
    ensures var ds := DistancesAt(s.sc, s.sc.npcs[i].id, TicksOf(r, n));
      Demotions(s.kind.bands, s.kind.pct, ds) as real * Deadband(s.kind.pct, least) <= Variation(ds)
  {
    hide Demotions, Variation, Toll, Deadband, DistancesAt, Banded, TicksOf;
    TollIs(s.kind.pct, least);
    var ds := DistancesAt(s.sc, s.sc.npcs[i].id, TicksOf(r, n));
    HysteresisBoundsSwitching(s.kind.bands, least, s.kind.pct, ds);
  }

  lemma TollIs(pct: nat, least: nat)
    ensures Toll(pct, least) == Deadband(pct, least)
  {
  }

  /** Once a tick has been, the weights of the level wanted for each NPC are always on their way or resident. */
  lemma {:induction false} WantedAlwaysKnown(s: Setup, r: seq<World>, n: nat)
    requires s.kind.ByDistance? && History(s, r) && n < |r|
    ensures r[n].pred.Distances?
    ensures TicksOf(r, n) != [] ==> WantedKnown(s.sc, r[n].pred.dist, |s.sc.npcs|)
  {
    hide Initial, Step, WantedKnown, IsTick;
    if n == 0 {
      InitialPred(s);
    } else {
      WantedAlwaysKnown(s, r, n - 1);
      assert StepsAt(s, r, n - 1);
      TicksSoFar(r, n);
      StepKnows(s, r[n - 1], r[n]);
    }
  }

  lemma StepKnows(s: Setup, w: World, w': World)
    requires s.kind.ByDistance? && w.pred.Distances? && Step(s, w, w')
    ensures w'.pred.Distances?
    ensures IsTick(w) || WantedKnown(s.sc, w.pred.dist, |s.sc.npcs|) ==> WantedKnown(s.sc, w'.pred.dist, |s.sc.npcs|)
  {
    StepPred(s, w, w');
    hide Step, KnownLevels, VisitAllByDistance, Decode, DeliversWeights, Key;
    if IsTick(w) {
      VisitsKnow(s.kind.bands, s.kind.pct, s.sc, w.pred.dist, |s.sc.npcs|, w.items[0].when);
    }
  }

  // ---- The intent predictor ----

  /** The weights of the level are on their way or resident. */
  predicate AtHand(st: Intent, npc: nat, lod: int) {
    Key(npc, lod) in st.inFlight || CK(npc, lod) in st.entries
  }

  lemma ServeAtHand(st: Intent, npc: nat, lod: int, v: View, ix: Option<Interaction>, now: Time)
    ensures AtHand(Serve(st, npc, lod, v, ix, now).0, npc, lod)
  {
    hide HandleInteraction, Touched, Key, CK;
  }

  lemma StaysAtHand(s: Setup, st: Intent, st': Intent, now: Time, npc: nat, lod: int)
    requires OnlySeen(s, st, st', now) && st.inFlight <= st'.inFlight && AtHand(st, npc, lod)
    ensures AtHand(st', npc, lod)
  {
    assert CK(npc, lod) in st'.entries.Keys <==> CK(npc, lod) in st.entries.Keys;
  }

  lemma {:induction false} VisitsAtHand(s: Setup, ip: IntentConfig, st: Intent, n: nat, i: nat, now: Time)
    requires i < n <= |s.sc.npcs| && Chosen(s, ip, s.sc.npcs[i], now) >= 0
    ensures AtHand(VisitNpcs(ip, s.sc, st, n, now).0, s.sc.npcs[i].id, Chosen(s, ip, s.sc.npcs[i], now))
  {
    hide OnlySeen, Serve, ActiveInteraction, IntentLod, AtHand;
    var st1, npc := VisitNpcs(ip, s.sc, st, n - 1, now).0, s.sc.npcs[n - 1];
    var ix, v := ActiveInteraction(s.sc.interactions, npc.id, now / 1000), s.sc.view(npc.id, now / 1000);
    var lod := Chosen(s, ip, npc, now);
    var st2 := st1.(lastLod := st1.lastLod[npc.id := lod]);
    if i == n - 1 {
      ServeAtHand(st2, npc.id, lod, v, ix, now);
    } else {
      var n0, l0 := s.sc.npcs[i].id, Chosen(s, ip, s.sc.npcs[i], now);
      VisitsAtHand(s, ip, st, n - 1, i, now);
      RestSeen(s, st1, st2, now);
      StaysAtHand(s, st1, st2, now, n0, l0);
      ServeSeen(s, st2, npc.id, lod, ix, now);
      ServeFetches(st2, npc.id, lod, v, ix, now);
      StaysAtHand(s, st2, Serve(st2, npc.id, lod, v, ix, now).0, now, n0, l0);
    }
  }

  /** After a tick the weights of the level chosen for each NPC are on their way or resident: whatever is wanted
      and missing has been fetched. */
  lemma TickFetchesWanted(s: Setup, ip: IntentConfig, st: Intent, i: nat, now: Time)
    requires i < |s.sc.npcs| && Chosen(s, ip, s.sc.npcs[i], now) >= 0
    ensures AtHand(IntentTick(ip, s.sc, st, now).0, s.sc.npcs[i].id, Chosen(s, ip, s.sc.npcs[i], now))
  {
    hide VisitNpcs, ReleaseExpired, Chosen, AtHand;
    VisitsAtHand(s, ip, ReleaseExpired(st, now / 1000), |s.sc.npcs|, i, now);
  }
}
