/** Which interactions a run serves. The predictor knows an interaction by its NPC and the low byte of its
    start, so of two that agree there only the first is served. */
module Interactions {
  import opened Base
  import opened NpuCaches
  import opened Prefetching
  import opened Events
  import opened EventQueues
  import opened Scheduling
  import opened Simulation
  import opened SimulationSafety
  import opened EventTimes

  // ---- One visit ----

  /** An interaction that is going on is handled, and counted, exactly when none of the same NPC that was
      handled before agrees with it modulo 256. */
  lemma HandledIff(st: Intent, npc: nat, lod: int, v: View, ix: Interaction, now: Time)
    ensures var st' := Serve(st, npc, lod, v, Some(ix), now).0;
      var isNew := forall at :: Key(npc, at) in st.handled ==> at % 256 != ix.atMs % 256;
      && (st'.handled != st.handled <==> isNew) && (!isNew ==> st'.slots == st.slots)
      && st'.kpi.hits + st'.kpi.misses == st.kpi.hits + st.kpi.misses + if isNew then 1 else 0
  {
    if Key(npc, ix.atMs) !in st.handled {
      forall at | Key(npc, at) in st.handled ensures at % 256 != ix.atMs % 256 {
        KeyInjective(npc, at, npc, ix.atMs);
      }
    }
    hide Key;
  }

  // ---- What the ticks of a run meet ----

  function InteractionKey(ix: Interaction): nat {
    Key(ix.npc, ix.atMs)
  }

  function KeysOf(v: seq<Interaction>): set<nat> {
    set ix | ix in v :: InteractionKey(ix)
  }

  function AsSeq(ix: Option<Interaction>): seq<Interaction> {
    if ix.Some? then [ix.value] else []
  }

  /** The interactions of the first `n` NPCs that are going on at `t`. */
  function Met(sc: Scene, n: nat, t: int): seq<Interaction>
    requires n <= |sc.npcs|
  {
    if n == 0 then [] else Met(sc, n - 1, t) + AsSeq(ActiveInteraction(sc.interactions, sc.npcs[n - 1].id, t))
  }

  /** All interactions met at `ticks`, in the order of the visits. */
  function MetAt(sc: Scene, ticks: seq<Time>): seq<Interaction> {
    if ticks == [] then []
    else MetAt(sc, ticks[..|ticks| - 1]) + Met(sc, |sc.npcs|, ticks[|ticks| - 1] / 1000)
  }

  /** Those of `v` that no earlier one agrees with. */
  function FirstOfKey(v: seq<Interaction>): seq<Interaction> {
    if v == [] then []
    else
      var init, last := v[..|v| - 1], v[|v| - 1];
      FirstOfKey(init) + if InteractionKey(last) in KeysOf(init) then [] else [last]
  }

  /** No two different interactions agree in NPC and low byte. */
  ghost predicate NoneAgree(P: Interaction -> bool) {
    forall a, b :: P(a) && P(b) && a.npc == b.npc && a.atMs % 256 == b.atMs % 256 ==> a == b
  }

  lemma {:induction false} FirstOfKeyFacts(v: seq<Interaction>)
    ensures KeysOf(FirstOfKey(v)) == KeysOf(v)
    ensures forall ix :: ix in FirstOfKey(v) ==> ix in v
    ensures forall i, j :: 0 <= i < j < |FirstOfKey(v)| ==>
      InteractionKey(FirstOfKey(v)[i]) != InteractionKey(FirstOfKey(v)[j])
  {
    hide Key;
    if v != [] {
      var init, last := v[..|v| - 1], v[|v| - 1];
      FirstOfKeyFacts(init);
      assert v == init + [last];
      assert KeysOf(v) == KeysOf(init) + {InteractionKey(last)};
      var f := FirstOfKey(init);
      assert KeysOf(f + [last]) == KeysOf(f) + {InteractionKey(last)};
      forall i | 0 <= i < |f| && InteractionKey(last) !in KeysOf(init)
        ensures InteractionKey(f[i]) != InteractionKey(last) {
        assert f[i] in f && InteractionKey(f[i]) in KeysOf(f);
      }
    }
  }

  lemma {:induction false} OnceEach(v: seq<Interaction>, ix: Interaction)
    requires forall i, j :: 0 <= i < j < |v| ==> v[i] != v[j]
    ensures multiset(v)[ix] == if ix in v then 1 else 0
  {
    if v != [] {
      var init, last := v[..|v| - 1], v[|v| - 1];
      assert v == init + [last];
      OnceEach(init, ix);
    }
  }

  /** Each member comes up exactly once exactly when no two different ones agree. */
  lemma OnceIff(v: seq<Interaction>)
    ensures (forall ix :: ix in v ==> multiset(FirstOfKey(v))[ix] == 1) <==> NoneAgree(ix => ix in v)
  {
    var f := FirstOfKey(v);
    FirstOfKeyFacts(v);
    hide FirstOfKey;
    forall ix ensures multiset(f)[ix] == if ix in f then 1 else 0 {
      OnceEach(f, ix);
    }
    forall a, b ensures InteractionKey(a) == InteractionKey(b) <==> a.npc == b.npc && a.atMs % 256 == b.atMs % 256 {
      KeyInjective(a.npc, a.atMs, b.npc, b.atMs);
    }
    hide InteractionKey;
    if NoneAgree(ix => ix in v) {
      forall ix | ix in v ensures ix in f {
        assert InteractionKey(ix) in KeysOf(f);
        var g :| g in f && InteractionKey(g) == InteractionKey(ix);
      }
    }
    if forall ix :: ix in v ==> multiset(f)[ix] == 1 {
      forall a, b | a in v && b in v && a.npc == b.npc && a.atMs % 256 == b.atMs % 256 ensures a == b {
        assert a in f && b in f;
      }
    }
  }

  // ---- What a run serves ----

  /** The interaction of `npc`, if it is to be handled now. */
  function Due(sc: Scene, st: Intent, npc: nat, now: Time): seq<Interaction> {
    var ix := ActiveInteraction(sc.interactions, npc, now / 1000);
    if ix.Some? && InteractionKey(ix.value) !in st.handled then [ix.value] else []
  }

  /** The interactions that the first `n` visits of a tick handle. */
  function HandledBy(ip: IntentConfig, sc: Scene, st: Intent, n: nat, now: Time): seq<Interaction>
    requires n <= |sc.npcs|
  {
    if n == 0 then []
    else HandledBy(ip, sc, st, n - 1, now) + Due(sc, VisitNpcs(ip, sc, st, n - 1, now).0, sc.npcs[n - 1].id, now)
  }

  predicate IsTick(w: World) {
    w.items != [] && w.items[0].ev.PredictorTick?
  }

  /** The times of the ticks among the first `n` firings. */
  function TicksOf(r: seq<World>, n: nat): seq<Time>
    requires n <= |r|
  {
    if n == 0 then [] else TicksOf(r, n - 1) + if IsTick(r[n - 1]) then [r[n - 1].items[0].when] else []
  }

  /** The interactions that the first `n` firings of a run handle, in that order. */
  function Service(s: Setup, r: seq<World>, n: nat): seq<Interaction>
    requires s.kind.ByIntent? && n <= |r| && forall i :: 0 <= i < |r| ==> r[i].pred.Intents?
  {
    if n == 0 then []
    else
      Service(s, r, n - 1)
      + if IsTick(r[n - 1]) then
          HandledBy(s.kind.ip, s.sc, ReleaseExpired(r[n - 1].pred.intent, r[n - 1].items[0].when / 1000),
                    |s.sc.npcs|, r[n - 1].items[0].when)
        else []
  }

  lemma ActiveNpc(ixs: seq<Interaction>, npc: nat, t: int)
    ensures ActiveInteraction(ixs, npc, t).Some? ==> ActiveInteraction(ixs, npc, t).value.npc == npc
  {
  }

  lemma KeysMore(v: seq<Interaction>, ix: Interaction)
    ensures KeysOf(v + [ix]) == KeysOf(v) + {InteractionKey(ix)}
    ensures FirstOfKey(v + [ix]) == FirstOfKey(v) + if InteractionKey(ix) in KeysOf(v) then [] else [ix]
  {
    assert (v + [ix])[..|v|] == v;
    hide InteractionKey;
  }

  /** A visit handles the interaction that it meets exactly when its key is new. */
  lemma VisitHandles(ip: IntentConfig, sc: Scene, st: Intent, npc: Npc, now: Time, v: seq<Interaction>)
    requires st.handled == KeysOf(v)
    ensures var st' := VisitNpc(ip, sc, st, npc, now).0;
      var v' := v + AsSeq(ActiveInteraction(sc.interactions, npc.id, now / 1000));
      && st'.handled == KeysOf(v')
      && FirstOfKey(v') == FirstOfKey(v) + Due(sc, st, npc.id, now)
      && st'.kpi.hits + st'.kpi.misses == st.kpi.hits + st.kpi.misses + |Due(sc, st, npc.id, now)|
  {
    hide FirstOfKey, KeysOf, BestResident, Touched, AcquireSlot, Key;
    var ix := ActiveInteraction(sc.interactions, npc.id, now / 1000);
    ActiveNpc(sc.interactions, npc.id, now / 1000);
    if ix.Some? {
      KeysMore(v, ix.value);
    } else {
      assert v + [] == v;
    }
  }

  lemma {:induction false} TickHandles(ip: IntentConfig, sc: Scene, st: Intent, n: nat, now: Time, v: seq<Interaction>)
    requires st.handled == KeysOf(v) && n <= |sc.npcs|
    ensures var st' := VisitNpcs(ip, sc, st, n, now).0;
      var v' := v + Met(sc, n, now / 1000);
      && st'.handled == KeysOf(v')
      && FirstOfKey(v') == FirstOfKey(v) + HandledBy(ip, sc, st, n, now)
      && st'.kpi.hits + st'.kpi.misses == st.kpi.hits + st.kpi.misses + |HandledBy(ip, sc, st, n, now)|
  {
    hide FirstOfKey, KeysOf, VisitNpc, ActiveInteraction;
    if n == 0 {
      assert v + Met(sc, n, now / 1000) == v;
    } else {
      TickHandles(ip, sc, st, n - 1, now, v);
      VisitHandles(ip, sc, VisitNpcs(ip, sc, st, n - 1, now).0, sc.npcs[n - 1], now, v + Met(sc, n - 1, now / 1000));
      var more := AsSeq(ActiveInteraction(sc.interactions, sc.npcs[n - 1].id, now / 1000));
      assert v + Met(sc, n - 1, now / 1000) + more == v + (Met(sc, n - 1, now / 1000) + more);
    }
  }

  lemma ServiceStep(s: Setup, w: World, w': World, v: seq<Interaction>)
    requires s.kind.ByIntent? && Step(s, w, w') && w.pred.Intents? && w.pred.intent.handled == KeysOf(v)
    ensures w'.pred.Intents?
    ensures var when, k, k' := w.items[0].when, w.pred.intent.kpi, w'.pred.intent.kpi;
      var st := ReleaseExpired(w.pred.intent, when / 1000);
      if IsTick(w) then
        var v' := v + Met(s.sc, |s.sc.npcs|, when / 1000);
        var more := HandledBy(s.kind.ip, s.sc, st, |s.sc.npcs|, when);
        && w'.pred.intent.handled == KeysOf(v')
        && FirstOfKey(v') == FirstOfKey(v) + more && k'.hits + k'.misses == k.hits + k.misses + |more|
      else w'.pred.intent.handled == KeysOf(v) && k'.hits + k'.misses == k.hits + k.misses
  {
    StepPred(s, w, w');
    hide Step, KeysOf, FirstOfKey, VisitNpcs, HandledBy, Met, ReleaseFrom, Decode, KnownLevels, Admits;
    if IsTick(w) {
      var when := w.items[0].when;
      TickHandles(s.kind.ip, s.sc, ReleaseExpired(w.pred.intent, when / 1000), |s.sc.npcs|, when, v);
    }
  }

  lemma {:induction false} RunIntents(s: Setup, r: seq<World>, n: nat)
    requires s.kind.ByIntent? && History(s, r) && n < |r|
    ensures r[n].pred.Intents?
  {
    hide Initial, Step;
    if n == 0 {
      InitialPred(s);
    } else {
      RunIntents(s, r, n - 1);
      assert StepsAt(s, r, n - 1);
      StepPred(s, r[n - 1], r[n]);
    }
  }

  lemma InitialPred(s: Setup)
    ensures Initial(s).pred == FreshPredictor(s.kind)
  {
    hide Insert, Fresh, FreshPredictor, PostAll;
    BurstsPred(s, StartAudio(s, Nothing(s)), |s.bursts|);
    var w := StartBursts(s, StartAudio(s, Nothing(s)), |s.bursts|);
    PostAllPred(s, w, ScriptRequests(s.sc, |s.sc.npcs|));
  }

  lemma {:induction false} BurstsPred(s: Setup, w: World, n: nat)
    requires n <= |s.bursts|
    ensures StartBursts(s, w, n).pred == w.pred
  {
    if n > 0 {
      BurstsPred(s, w, n - 1);
    }
  }

  /** In every state of every run the handled keys are those of the interactions that the ticks so far have
      met, and served were, once per key, the first of each: as many as there are hits and misses. */
  lemma {:induction false} ServiceIsFirstOfKey(s: Setup, r: seq<World>, n: nat)
    requires s.kind.ByIntent? && History(s, r) && n < |r| && forall i :: 0 <= i < |r| ==> r[i].pred.Intents?
    ensures var met, i := MetAt(s.sc, TicksOf(r, n)), r[n].pred.intent;
      i.handled == KeysOf(met) && Service(s, r, n) == FirstOfKey(met) && i.kpi.hits + i.kpi.misses == |Service(s, r, n)|
  {
    hide Initial, Step, KeysOf, FirstOfKey, HandledBy, Met;
    if n == 0 {
      InitialPred(s);
      EmptyKeys();
    } else {
      ServiceIsFirstOfKey(s, r, n - 1);
      assert StepsAt(s, r, n - 1);
      var ticks := TicksOf(r, n - 1);
      ServiceStep(s, r[n - 1], r[n], MetAt(s.sc, ticks));
      if IsTick(r[n - 1]) {
        TickAdded(s.sc, ticks, r[n - 1].items[0].when);
        assert TicksOf(r, n) == ticks + [r[n - 1].items[0].when];
      } else {
        assert TicksOf(r, n) == ticks && Service(s, r, n) == Service(s, r, n - 1);
      }
    }
  }

  lemma TickAdded(sc: Scene, ticks: seq<Time>, t: Time)
    ensures MetAt(sc, ticks + [t]) == MetAt(sc, ticks) + Met(sc, |sc.npcs|, t / 1000)
  {
    assert (ticks + [t])[..|ticks|] == ticks;
  }

  lemma EmptyKeys()
    ensures KeysOf([]) == {} && FirstOfKey([]) == []
  {
  }

  // ---- The ticks of a run ----

  function TickAt(s: Setup, k: nat): Time {
    k * s.tickUs
  }

  /** The predictor ticks at the start, and then as long as the scenario lasts. */
  predicate Ticks(s: Setup, k: nat) {
    k == 0 || TickAt(s, k) < s.sc.durationMs * 1000
  }

  function FirstTicks(s: Setup, m: nat): seq<Time> {
    if m == 0 then [] else FirstTicks(s, m - 1) + [TickAt(s, m - 1)]
  }

  lemma OnTickTicks(s: Setup, w: World)
    requires PendingTimes(w.items, Predicting) == []
    ensures PendingTimes(OnTick(s, w).items, Predicting) ==
      if w.bus.now + s.tickUs < s.sc.durationMs * 1000 then [w.bus.now + s.tickUs] else []
  {
    hide PendingTimes, Insert, Tick, PostAll;
    var (p, rs) := Tick(s, w.pred, w.bus.now);
    PostAllPending(s, w.(pred := p), rs, Predicting);
    PostAllBus(s, w.(pred := p), rs);
    PostPending(PostAll(s, w.(pred := p), rs), w.bus.now + s.tickUs, PredictorTick, Predicting);
  }

  lemma StepTicks(s: Setup, w: World, w': World)
    requires Step(s, w, w') && |PendingTimes(w.items, Predicting)| <= 1
    ensures PendingTimes(w'.items, Predicting) ==
      if !IsTick(w) then PendingTimes(w.items, Predicting)
      else if w.items[0].when + s.tickUs < s.sc.durationMs * 1000 then [w.items[0].when + s.tickUs] else []
    ensures IsTick(w) ==> PendingTimes(w.items, Predicting) == [w.items[0].when]
  {
    var w1 := Pull(w);
    FirstPending(w, Predicting);
    hide PendingTimes, OnAudio, OnTexture, OnWeight, Install, OnTick, Noted, QuantumEnd, KnownLevels;
    match w.items[0].ev
    case AudioTick => AudioPending(s, w1, Predicting);
    case TextureBlock(at, burstEnd, period) => TexturePending(s, w1, at, burstEnd, period, Predicting);
    case WeightIssue(npc, size) => WeightPending(s, w1, npc, size, Predicting);
    case PredictorTick => OnTickTicks(s, w1);
    case QuantumDone(_) => InstallPending(w1, QuantumEnd(w1.bus), Predicting);
  }

  lemma InitialTicks(s: Setup)
    requires !s.kind.Scripted?
    ensures PendingTimes(Initial(s).items, Predicting) == [0]
  {
    assert PendingTimes(Nothing(s).items, Predicting) == [];
    hide PendingTimes, Insert, Fresh, FreshPredictor, AudioPeriod;
    PostPending(Nothing(s), Nothing(s).bus.now + AudioPeriod(s), AudioTick, Predicting);
    var w1 := StartAudio(s, Nothing(s));
    BurstPending(s, w1, |s.bursts|, Predicting);
    PostPending(StartBursts(s, w1, |s.bursts|), 0, PredictorTick, Predicting);
  }

  lemma NextTick(s: Setup, k: nat)
    ensures TickAt(s, k) + s.tickUs == TickAt(s, k + 1)
  {
  }

  /** The ticks that have fired are the first so many multiples of the period, and the next is pending
      unless the scenario is over by then. */
  lemma {:induction false} TicksAreRegular(s: Setup, r: seq<World>, n: nat)
    requires !s.kind.Scripted? && History(s, r) && n < |r|
    ensures var m := |TicksOf(r, n)|;
      && TicksOf(r, n) == FirstTicks(s, m) && (forall k :: 0 <= k < m ==> Ticks(s, k))
      && PendingTimes(r[n].items, Predicting) == if Ticks(s, m) then [TickAt(s, m)] else []
  {
    hide Initial, Step, PendingTimes;
    if n == 0 {
      InitialTicks(s);
    } else {
      TicksAreRegular(s, r, n - 1);
      assert StepsAt(s, r, n - 1);
      StepTicks(s, r[n - 1], r[n]);
      NextTick(s, |TicksOf(r, n - 1)|);
      hide TickAt;
    }
  }

  // ---- Served once ----

  /** The interaction of `npc` whose window, in milliseconds, contains `t`. */
  predicate GoingOn(ix: Interaction, npc: nat, t: int) {
    ix.npc == npc && ix.atMs <= t < ix.atMs + ix.durationMs
  }

  /** The `j`-th interaction is the first listed one of `npc` that is going on at `t`. */
  predicate FirstGoingOn(ixs: seq<Interaction>, npc: nat, t: int, j: nat)
    requires j < |ixs|
  {
    GoingOn(ixs[j], npc, t) && forall i :: 0 <= i < j ==> !GoingOn(ixs[i], npc, t)
  }

  /** The scan finds the first listed interaction that is going on, if there is one. */
  lemma {:induction false} ActiveIsFirst(ixs: seq<Interaction>, npc: nat, t: int)
    ensures match ActiveInteraction(ixs, npc, t)
      case None => forall j :: 0 <= j < |ixs| ==> !GoingOn(ixs[j], npc, t)
      case Some(ix) => exists j :: 0 <= j < |ixs| && ixs[j] == ix && FirstGoingOn(ixs, npc, t, j)
  {
    if ixs != [] {
      if GoingOn(ixs[0], npc, t) {
        assert FirstGoingOn(ixs, npc, t, 0);
      } else {
        ActiveIsFirst(ixs[1..], npc, t);
        if ActiveInteraction(ixs, npc, t).Some? {
          var rest, found := ixs[1..], ActiveInteraction(ixs, npc, t).value;
          var j :| 0 <= j < |rest| && rest[j] == found && FirstGoingOn(rest, npc, t, j);
          forall i | 0 <= i < j + 1 ensures !GoingOn(ixs[i], npc, t) {
            if i > 0 {
              assert ixs[i] == ixs[1..][i - 1];
            }
          }
          assert ixs[j + 1] == ixs[1..][j] && FirstGoingOn(ixs, npc, t, j + 1);
        } else {
          forall j | 0 <= j < |ixs| ensures !GoingOn(ixs[j], npc, t) {
            if j > 0 {
              assert ixs[j] == ixs[1..][j - 1];
            }
          }
        }
      }
    }
  }

  lemma ActiveIff(ixs: seq<Interaction>, npc: nat, t: int, ix: Interaction)
    ensures ActiveInteraction(ixs, npc, t) == Some(ix) <==>
      exists j :: 0 <= j < |ixs| && ixs[j] == ix && FirstGoingOn(ixs, npc, t, j)
  {
    ActiveIsFirst(ixs, npc, t);
    hide ActiveInteraction;
    if j :| 0 <= j < |ixs| && ixs[j] == ix && FirstGoingOn(ixs, npc, t, j) {
      assert ActiveInteraction(ixs, npc, t).Some? by {
        assert GoingOn(ixs[j], npc, t);
      }
      var i :| 0 <= i < |ixs| && ixs[i] == ActiveInteraction(ixs, npc, t).value && FirstGoingOn(ixs, npc, t, i);
      if i != j {
        assert GoingOn(ixs[i], npc, t) && GoingOn(ixs[j], npc, t);
      }
    }
  }

  /** What the predictor sees at tick `k` is what is going on. */
  lemma SeesIff(s: Setup, ix: Interaction, k: nat)
    ensures MeetsAt(s, ix, k) <==>
      exists i :: 0 <= i < |s.sc.npcs|
        && ActiveInteraction(s.sc.interactions, s.sc.npcs[i].id, TickAt(s, k) / 1000) == Some(ix)
  {
    hide ActiveInteraction, FirstGoingOn, TickAt;
    forall i | 0 <= i < |s.sc.npcs|
      ensures ActiveInteraction(s.sc.interactions, s.sc.npcs[i].id, TickAt(s, k) / 1000) == Some(ix) <==>
        exists j :: 0 <= j < |s.sc.interactions| && s.sc.interactions[j] == ix
          && FirstGoingOn(s.sc.interactions, s.sc.npcs[i].id, TickAt(s, k) / 1000, j)
    {
      ActiveIff(s.sc.interactions, s.sc.npcs[i].id, TickAt(s, k) / 1000, ix);
    }
  }

  /** The interaction is going on at tick `k`, and the first listed one of a visited NPC. */
  predicate MeetsAt(s: Setup, ix: Interaction, k: nat) {
    exists i, j :: 0 <= i < |s.sc.npcs| && 0 <= j < |s.sc.interactions| && s.sc.interactions[j] == ix
      && FirstGoingOn(s.sc.interactions, s.sc.npcs[i].id, TickAt(s, k) / 1000, j)
  }

  ghost predicate Meets(s: Setup, ix: Interaction) {
    exists k: nat :: Ticks(s, k) && MeetsAt(s, ix, k)
  }

  lemma {:induction false} MetMember(sc: Scene, n: nat, t: int, ix: Interaction)
    requires n <= |sc.npcs|
    ensures ix in Met(sc, n, t) <==>
      exists i :: 0 <= i < n && ActiveInteraction(sc.interactions, sc.npcs[i].id, t) == Some(ix)
  {
    hide ActiveInteraction;
    if n > 0 {
      MetMember(sc, n - 1, t, ix);
    }
  }

  lemma {:induction false} MetAtMember(s: Setup, m: nat, ix: Interaction)
    ensures ix in MetAt(s.sc, FirstTicks(s, m)) <==> exists k: nat :: k < m && MeetsAt(s, ix, k)
  {
    hide ActiveInteraction, Met, TickAt;
    if m > 0 {
      MetAtMember(s, m - 1, ix);
      TickAdded(s.sc, FirstTicks(s, m - 1), TickAt(s, m - 1));
      MetMember(s.sc, |s.sc.npcs|, TickAt(s, m - 1) / 1000, ix);
      SeesIff(s, ix, m - 1);
      hide MeetsAt, MetAt;
    }
  }

  lemma TicksBelow(s: Setup, m: nat, k: nat)
    requires !Ticks(s, m) && Ticks(s, k)
    ensures k < m
  {
  }

  lemma MetOverRun(s: Setup, r: seq<World>, ix: Interaction)
    requires !s.kind.Scripted? && History(s, r) && r[|r| - 1].items == []
    ensures ix in MetAt(s.sc, TicksOf(r, |r| - 1)) <==> Meets(s, ix)
  {
    hide Initial, Step, MeetsAt, Ticks, MetAt, TicksOf;
    var m := |TicksOf(r, |r| - 1)|;
    TicksAreRegular(s, r, |r| - 1);
    assert PendingTimes([], Predicting) == [];
    MetAtMember(s, m, ix);
    if k: nat :| Ticks(s, k) && MeetsAt(s, ix, k) {
      TicksBelow(s, m, k);
    }
  }

  /** Over a whole simulation: handled are exactly the interactions going on at some tick of the schedule, by
      key, and each of them is served exactly once if and only if no two of one NPC agree modulo 256. */
  lemma ServedOnceIff(s: Setup, r: seq<World>)
    requires s.kind.ByIntent? && History(s, r) && r[|r| - 1].items == []
    ensures forall i :: 0 <= i < |r| ==> r[i].pred.Intents?
    ensures var end, served := r[|r| - 1].pred.intent, Service(s, r, |r| - 1);
      && end.kpi.hits + end.kpi.misses == |served|
      && (forall k :: k in end.handled <==> exists ix :: Meets(s, ix) && InteractionKey(ix) == k)
      && (forall ix :: ix in served ==> Meets(s, ix))
      && ((forall ix :: Meets(s, ix) ==> multiset(served)[ix] == 1) <==> NoneAgree(ix => Meets(s, ix)))
  {
    hide Initial, Step, MetAt, TicksOf, Meets, FirstOfKey, InteractionKey, StepsAt;
    forall i | 0 <= i < |r| ensures r[i].pred.Intents? {
      RunIntents(s, r, i);
    }
    var v := MetAt(s.sc, TicksOf(r, |r| - 1));
    ServiceIsFirstOfKey(s, r, |r| - 1);
    forall ix ensures ix in v <==> Meets(s, ix) {
      MetOverRun(s, r, ix);
    }
    ListOfMet(s, v);
    hide Service, KeysOf, History;
  }

  lemma ListOfMet(s: Setup, v: seq<Interaction>)
    requires forall ix :: ix in v <==> Meets(s, ix)
    ensures forall k :: k in KeysOf(v) <==> exists ix :: Meets(s, ix) && InteractionKey(ix) == k
    ensures forall ix :: ix in FirstOfKey(v) ==> Meets(s, ix)
    ensures (forall ix :: Meets(s, ix) ==> multiset(FirstOfKey(v))[ix] == 1) <==> NoneAgree(ix => Meets(s, ix))
  {
    hide Meets, FirstOfKey, InteractionKey;
    FirstOfKeyFacts(v);
    OnceIff(v);
  }
}
