/** The prefetch protocol over whole runs: predictor, injector, scheduler and cache agree on which
    weights are under way. */
module PrefetchProtocol {
  import opened Base
  import opened Configuration
  import opened Scheduling
  import opened Lifecycle
  import opened LaneSums
  import opened Events
  import opened EventQueues
  import opened Prefetching
  import opened SlotSafety
  import opened Simulation
  import opened SimulationSafety

  // ---- Weights under way ----

  /** Pending issue events for the weights of `npc` whose size is `size`. */
  function IssueOf(npc: nat, size: nat): Item -> nat {
    (it: Item) => if it.ev.WeightIssue? && it.ev.npc == npc && it.ev.size == size then 1 else 0
  }

  predicate Carries(tx: Txn, npc: nat, size: nat) {
    tx.source == Weight && tx.deadline == 0 && tx.inst == npc && tx.size == size
  }

  function CarrierOf(npc: nat, size: nat): Pending -> nat {
    (p: Pending) => if Carries(p.tx, npc, size) then 1 else 0
  }

  /** Weights of `npc` of that size between the scheduling of their issue and their completion. */
  function Loads(w: World, npc: nat, size: nat): nat {
    SumItems(w.items, IssueOf(npc, size)) + SystemSum(w.bus, CarrierOf(npc, size))
  }

  function InFlightCount(p: Predictor, npc: nat, lod: int): (n: nat)
    ensures n <= 1
  {
    if Key(npc, lod) in InFlight(p) then 1 else 0
  }

  /** A key is in flight exactly when one load of its weights is under way, and there are never two. */
  ghost predicate Tracked(s: Setup, w: World, npc: nat, lod: int) {
    Loads(w, npc, Encode(s.cfg.lodSizes, lod)) == InFlightCount(w.pred, npc, lod)
  }

  // ---- What each operation does to the loads ----

  lemma PostLoads(w: World, when: Time, ev: Event, npc: nat, size: nat)
    ensures Loads(Post(w, when, ev), npc, size) == Loads(w, npc, size) + IssueOf(npc, size)(Item(when, w.next, ev))
  {
    SumInsert(w.items, Item(when, w.next, ev), IssueOf(npc, size));
  }

  lemma InstallLoads(w: World, bus: Bus, npc: nat, size: nat)
    ensures Loads(Install(w, bus), npc, size) ==
      SumItems(w.items, IssueOf(npc, size)) + SystemSum(bus, CarrierOf(npc, size))
  {
    if bus.slot.Some? {
      PostLoads(w.(bus := bus), bus.slot.value.fireAt, QuantumDone(bus.slot.value.p), npc, size);
    }
  }

  /** Weights have no deadline, so starting the next quantum never loses them. */
  lemma StartKeepsLoads(b: Bus, npc: nat, size: nat)
    ensures SystemSum(StartIfIdle(b), CarrierOf(npc, size)) == SystemSum(b, CarrierOf(npc, size))
  {
    StartSum(b, CarrierOf(npc, size));
  }

  lemma SubmitLoads(w: World, tx: Txn, npc: nat, size: nat)
    ensures Loads(Submit(w, tx), npc, size) == Loads(w, npc, size) + if Carries(tx, npc, size) then 1 else 0
    ensures Submit(w, tx).pred == w.pred
  {
    AdmitSum(w.bus, tx, CarrierOf(npc, size));
    StartKeepsLoads(Admit(w.bus, tx), npc, size);
    InstallLoads(w, Accept(w.bus, tx), npc, size);
    hide SystemSum, SumItems, StartIfIdle, Admit;
  }

  lemma QuantumEndLoads(b: Bus, npc: nat, size: nat)
    requires b.slot.Some?
    ensures SystemSum(QuantumEnd(b), CarrierOf(npc, size)) ==
      SystemSum(b, CarrierOf(npc, size)) -
      if !Requeues(b) && Carries(b.slot.value.p.tx, npc, size) then 1 else 0
  {
    RetireSum(b, CarrierOf(npc, size));
    StartKeepsLoads(Retire(b), npc, size);
  }

  /** Fetches of the weights of (npc, lod) among `rs`. */
  function Fetches(rs: seq<Request>, npc: nat, lod: int): nat {
    if rs == [] then 0
    else Fetches(rs[..|rs| - 1], npc, lod) + if rs[|rs| - 1] == Request(npc, lod) then 1 else 0
  }

  lemma {:induction false} PostAllLoads(s: Setup, w: World, rs: seq<Request>, npc: nat, lod: int)
    requires Distinguishable(s.cfg.lodSizes) && IsLod(lod) && AllLevels(rs)
    ensures Loads(PostAll(s, w, rs), npc, Encode(s.cfg.lodSizes, lod)) ==
      Loads(w, npc, Encode(s.cfg.lodSizes, lod)) + Fetches(rs, npc, lod)
    ensures PostAll(s, w, rs).pred == w.pred
  {
    if rs != [] {
      var init, r := rs[..|rs| - 1], rs[|rs| - 1];
      PostAllLoads(s, w, init, npc, lod);
      hide Loads, Encode, Distinguishable;
      EncodeInjective(s.cfg.lodSizes, r.lod, lod);
      PostLoads(PostAll(s, w, init), w.bus.now, WeightIssue(r.npc, Encode(s.cfg.lodSizes, r.lod)),
                npc, Encode(s.cfg.lodSizes, lod));
      PostAllBus(s, w, init);
    }
  }

  /** Requests have distinct keys, so weights are asked for at most once. */
  lemma {:induction false} FetchesOnce(rs: seq<Request>, npc: nat, lod: int)
    requires IsLod(lod) && AllLevels(rs)
    requires forall i, j :: 0 <= i < j < |rs| ==> KeyOf(rs[i]) != KeyOf(rs[j])
    ensures Fetches(rs, npc, lod) == if Wanted(rs, Key(npc, lod)) then 1 else 0
  {
    if rs != [] {
      var init, r := rs[..|rs| - 1], rs[|rs| - 1];
      FetchesOnce(init, npc, lod);
      assert rs == init + [r];
      WantedMore(init, r, Key(npc, lod));
      KeyInjective(r.npc, r.lod, npc, lod);
      if r == Request(npc, lod) {
        assert !Wanted(init, Key(npc, lod));
      }
    }
  }

  // ---- Steps ----

  lemma FetchTracked(s: Setup, w: World, npc: nat, lod: int, p: Predictor, rs: seq<Request>)
    requires Distinguishable(s.cfg.lodSizes) && IsLod(lod) && Tracked(s, w, npc, lod)
    requires Asked(InFlight(w.pred), InFlight(p), rs) && AllLevels(rs)
    ensures Tracked(s, PostAll(s, w.(pred := p), rs), npc, lod)
  {
    var w1 := w.(pred := p);
    assert Loads(w1, npc, Encode(s.cfg.lodSizes, lod)) == Loads(w, npc, Encode(s.cfg.lodSizes, lod));
    hide Distinguishable, Encode, Loads;
    PostAllLoads(s, w1, rs, npc, lod);
    FetchesOnce(rs, npc, lod);
  }

  lemma TickTracked(s: Setup, w: World, npc: nat, lod: int)
    requires WorldInv(s, w) && KnownLevels(s, w) && Distinguishable(s.cfg.lodSizes) && IsLod(lod)
    requires Tracked(s, w, npc, lod)
    ensures Tracked(s, OnTick(s, w), npc, lod)
  {
    hide WorldInv, Tick, Distinguishable, Encode, PredictorOk, Insert, Loads, Asked, PostAll, AllLevels, IsLod;
    PredictorFine(s, w);
    var (p, rs) := Tick(s, w.pred, w.bus.now);
    TickAsks(s, w.pred, w.bus.now, w.bus.now);
    FetchTracked(s, w, npc, lod, p, rs);
    var w2 := PostAll(s, w.(pred := p), rs);
    PostLoads(w2, w2.bus.now + s.tickUs, PredictorTick, npc, Encode(s.cfg.lodSizes, lod));
  }

  lemma AudioTracked(s: Setup, w: World, npc: nat, lod: int)
    requires Tracked(s, w, npc, lod)
    ensures Tracked(s, OnAudio(s, w), npc, lod)
  {
    var size := Encode(s.cfg.lodSizes, lod);
    hide Encode, Submit;
    var w1 := w.(ids := w.ids.(audio := w.ids.audio + 1));
    assert Loads(w1, npc, size) == Loads(w, npc, size);
    hide Loads;
    SubmitLoads(w1, AudioTxn(s, w), npc, size);
    var w2 := Submit(w1, AudioTxn(s, w));
    PostLoads(w2, w2.bus.now + AudioPeriod(s), AudioTick, npc, size);
  }

  lemma TextureTracked(s: Setup, w: World, at: Time, burstEnd: Time, period: pos, npc: nat, lod: int)
    requires Tracked(s, w, npc, lod)
    ensures Tracked(s, OnTexture(s, w, at, burstEnd, period), npc, lod)
  {
    var size := Encode(s.cfg.lodSizes, lod);
    hide Encode, Submit;
    var w1 := w.(ids := w.ids.(texture := w.ids.texture + 1));
    assert Loads(w1, npc, size) == Loads(w, npc, size);
    hide Loads;
    SubmitLoads(w1, TextureTxn(s, w), npc, size);
    PostLoads(Submit(w1, TextureTxn(s, w)), at + period, TextureBlock(at + period, burstEnd, period), npc, size);
  }

  /** The issue event turns into the transaction. */
  lemma WeightLoads(s: Setup, w: World, n: nat, z: nat, npc: nat, size: nat)
    ensures Loads(OnWeight(s, w, n, z), npc, size) == Loads(w, npc, size) + if n == npc && z == size then 1 else 0
    ensures OnWeight(s, w, n, z).pred == w.pred
  {
    var w1 := w.(ids := w.ids.(weight := w.ids.weight + 1));
    assert Loads(w1, npc, size) == Loads(w, npc, size);
    hide Loads, Submit;
    SubmitLoads(w1, WeightTxn(s, w, n, z), npc, size);
  }

  /** A completed transfer carries the size of exactly one level, which decoding recovers. */
  lemma DeliveredLevel(s: Setup, tx: Txn, npc: nat, lod: int)
    requires Distinguishable(s.cfg.lodSizes) && IsLod(lod)
    requires tx.source == Weight && tx.deadline == 0 && IsSize(s, tx.size)
    ensures Carries(tx, npc, Encode(s.cfg.lodSizes, lod)) <==>
      Key(tx.inst, Decode(s.cfg.lodSizes, tx.size)) == Key(npc, lod)
  {
    var l :| IsLod(l) && tx.size == Encode(s.cfg.lodSizes, l);
    EncodeInjective(s.cfg.lodSizes, l, lod);
    KeyInjective(tx.inst, l, npc, lod);
  }

  lemma QuantumTracked(s: Setup, w: World, w': World, npc: nat, lod: int)
    requires Distinguishable(s.cfg.lodSizes) && IsLod(lod) && Tracked(s, w, npc, lod)
    requires w.bus.slot.Some? && TxnOk(s, w.bus.slot.value.p.tx) && OnQuantum(s, w, w')
    requires PredictorOk(s, w.pred, w.bus.now)
    ensures Tracked(s, w', npc, lod)
  {
    var size, tx := Encode(s.cfg.lodSizes, lod), w.bus.slot.value.p.tx;
    QuantumEndLoads(w.bus, npc, size);
    InstallLoads(w, QuantumEnd(w.bus), npc, size);
    assert Loads(w', npc, size) == Loads(Install(w, QuantumEnd(w.bus)), npc, size);
    hide SystemSum, SumItems, Noted, PredictorOk, Encode, Decode, Distinguishable, Install, QuantumEnd;
    if DeliversWeights(w.bus) {
      NotedKeeps(s, w.pred, tx.inst, Decode(s.cfg.lodSizes, tx.size), w.bus.now, w'.pred);
      DeliveredLevel(s, tx, npc, lod);
    }
  }

  lemma PullLoads(w: World, npc: nat, size: nat)
    requires w.items != []
    ensures Loads(w, npc, size) == Loads(Pull(w), npc, size) + IssueOf(npc, size)(w.items[0])
  {
    assert SystemSum(Pull(w).bus, CarrierOf(npc, size)) == SystemSum(w.bus, CarrierOf(npc, size));
  }

  lemma SlotTxnOk(s: Setup, b: Bus)
    requires BusOk(s, b) && b.slot.Some?
    ensures TxnOk(s, b.slot.value.p.tx)
  {
    assert Stray(s)(b.slot.value.p) == 0;
  }

  /** Every step of the simulation keeps the predictor's in-flight set right. */
  lemma StepTracked(s: Setup, w: World, w': World, npc: nat, lod: int)
    requires WellPosed(s) && Distinguishable(s.cfg.lodSizes) && IsLod(lod)
    requires WorldInv(s, w) && Step(s, w, w') && Tracked(s, w, npc, lod)
    ensures Tracked(s, w', npc, lod)
  {
    var w1, size := Pull(w), Encode(s.cfg.lodSizes, lod);
    PullInv(s, w);
    PullLoads(w, npc, size);
    hide Loads, Encode, Distinguishable, SystemSum;
    assert EventOk(s, w.bus, w.items[0]);
    match w.items[0].ev
    case AudioTick => AudioTracked(s, w1, npc, lod);
    case TextureBlock(at, burstEnd, period) => TextureTracked(s, w1, at, burstEnd, period, npc, lod);
    case WeightIssue(n, z) => WeightLoads(s, w1, n, z, npc, size);
    case PredictorTick => TickTracked(s, w1, npc, lod);
    case QuantumDone(_) =>
      SlotTxnOk(s, w1.bus);
      QuantumTracked(s, w1, w', npc, lod);
  }

  lemma NothingLoads(s: Setup, npc: nat, size: nat)
    ensures Loads(Nothing(s), npc, size) == 0 && InFlight(Nothing(s).pred) == {}
  {
    hide Fresh, SystemSum;
    FreshSum(s.cfg, CarrierOf(npc, size));
  }

  lemma AudioLoads(s: Setup, npc: nat, size: nat)
    ensures Loads(StartAudio(s, Nothing(s)), npc, size) == 0
    ensures InFlight(StartAudio(s, Nothing(s)).pred) == {}
  {
    hide AudioPeriod, Insert, Loads, Nothing;
    NothingLoads(s, npc, size);
    PostLoads(Nothing(s), Nothing(s).bus.now + AudioPeriod(s), AudioTick, npc, size);
  }

  lemma InitialTracked(s: Setup, npc: nat, lod: int)
    requires !s.kind.Scripted?
    ensures Tracked(s, Initial(s), npc, lod)
  {
    hide Encode, Loads, StartBursts, StartAudio, Nothing, Insert, Key;
    var size := Encode(s.cfg.lodSizes, lod);
    var w1 := StartAudio(s, Nothing(s));
    AudioLoads(s, npc, size);
    BurstsLoads(s, w1, |s.bursts|, npc, size);
    PostLoads(StartBursts(s, w1, |s.bursts|), 0, PredictorTick, npc, size);
  }

  lemma {:induction false} BurstsLoads(s: Setup, w: World, n: nat, npc: nat, size: nat)
    requires n <= |s.bursts|
    ensures Loads(StartBursts(s, w, n), npc, size) == Loads(w, npc, size) && StartBursts(s, w, n).pred == w.pred
  {
    hide Loads;
    if n > 0 {
      BurstsLoads(s, w, n - 1, npc, size);
      var b := s.bursts[n - 1];
      if b.rate > 0 && b.durationMs > 0 {
        var at, burstEnd := b.atMs * 1000, b.atMs * 1000 + b.durationMs * 1000;
        var period := Period(s.texture.blockBytes, b.rate);
        PostLoads(StartBursts(s, w, n - 1), at, TextureBlock(at, burstEnd, period), npc, size);
      }
    }
  }

  /** The prefetch protocol: in every state of every run, with distinguishable sizes, a key (npc, lod)
      is in flight exactly when one load of its weights is between issue and completion, never two. */
  lemma {:induction false} InFlightExactly(s: Setup, r: seq<World>, n: nat, npc: nat, lod: int)
    requires WellPosed(s) && !s.kind.Scripted? && Distinguishable(s.cfg.lodSizes) && IsLod(lod)
    requires History(s, r) && n < |r|
    ensures Loads(r[n], npc, Encode(s.cfg.lodSizes, lod)) == InFlightCount(r[n].pred, npc, lod) <= 1
  {
    hide Loads, Encode, Distinguishable, WorldInv, Initial, Step, InFlightCount, WellPosed;
    if n == 0 {
      InitialTracked(s, npc, lod);
    } else {
      InFlightExactly(s, r, n - 1, npc, lod);
      HistoryInv(s, r, n - 1);
      assert StepsAt(s, r, n - 1);
      StepTracked(s, r[n - 1], r[n], npc, lod);
    }
  }
}
