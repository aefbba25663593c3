/** One simulation as `run_one` drives it: the wired components, the drain loop, and what is known when
    the loop ends. */
module Runner {
  import opened Base
  import opened Configuration
  import opened Scheduling
  import opened Events
  import opened EventQueues
  import opened Prefetching
  import opened Simulation
  import opened SimulationSafety
  import opened Termination
  import opened FiringOrder
  import opened Schedulers
  import opened Injectors
  import opened LatencyHistograms
  import opened AudioGuarantee
  import opened RunGuarantee
  import opened Runs
  import opened Predictors

  datatype AnyPredictor =
    | WithScript(script: ScriptedPredictor)
    | WithLod(lod: LodPredictor)
    | WithIntent(intent: IntentPredictor)
  {
    ghost function Objects(): set<object> {
      match this
      case WithScript(p) => {p}
      case WithLod(p) => {p}
      case WithIntent(p) => {p, p.cache}
    }

    ghost function Model(): Predictor
      reads Objects()
    {
      match this
      case WithScript(_) => Script
      case WithLod(p) => Distances(p.Model())
      case WithIntent(p) => Intents(p.Model())
    }

    ghost predicate Serves(s: Setup)
      reads Objects()
    {
      match this
      case WithScript(p) => p.s == s && s.kind.Scripted?
      case WithLod(p) => p.s == s && s.kind.ByDistance?
      case WithIntent(p) => p.s == s && p.Valid()
    }
  }

  /** A whole run: from the wiring to an empty event queue. */
  ghost predicate Complete(s: Setup, r: seq<World>) {
    History(s, r) && r[|r| - 1].items == []
  }

  datatype RunResult = RunResult(kpi: Kpi, audioP99Us: Time, predictorKpi: PredictorKpi, wallClockUs: Time)

  /** The result of a run that ended in `w`; the histogram stands in for the list of samples. */
  ghost predicate Reports(w: World, r: RunResult) {
    && r.kpi == w.bus.kpi.(audioSamples := [])
    && r.audioP99Us == PercentileOf(w.bus.kpi.audioSamples, 0.99)
    && r.wallClockUs == w.bus.now
    && r.predictorKpi == match w.pred
                         case Script => PredictorKpi(0, 0, 0, 0, 0, 0, 0)
                         case Distances(_) => PredictorKpi(0, 0, 0, 0, 0, 0, 0)
                         case Intents(i) => i.kpi
  }

  /** How `run_one` ends. */
  datatype Outcome = Done(result: RunResult) | ClockException | PrefetchException

  /** How one round of the drain loop ends. */
  datatype Round = Fired | Finished | ClockThrew | PrefetchThrew

  /** Wiring only posts events. */
  lemma {:induction false} StartOnlyPosts(s: Setup, w: World, n: nat)
    requires n <= |s.bursts|
    ensures var w' := StartBursts(s, w, n); w'.bus == w.bus && w'.ids == w.ids && w'.pred == w.pred
    ensures var w' := StartAudio(s, w); w'.bus == w.bus && w'.ids == w.ids && w'.pred == w.pred
  {
    hide Insert, Period;
    if n > 0 {
      StartOnlyPosts(s, w, n - 1);
    }
  }

  lemma StartOf(s: Setup)
    ensures var w := StartBursts(s, StartAudio(s, Nothing(s)), |s.bursts|);
      w.bus == Fresh(s.cfg) && w.ids == Ids(0, 0, 0) && w.pred == FreshPredictor(s.kind) && w.bus.now == 0
  {
    StartOnlyPosts(s, Nothing(s), 0);
    StartOnlyPosts(s, StartAudio(s, Nothing(s)), |s.bursts|);
    hide Insert, StartBursts, StartAudio, FreshPredictor;
  }

  /** So does starting the predictor. */
  lemma PredictorOnlyPosts(s: Setup, w: World)
    ensures var w' := StartPredictor(s, w); w'.bus == w.bus && w'.ids == w.ids && w'.pred == w.pred
  {
    hide Insert, PostAll, ScriptRequests;
    PostAllBus(s, w, ScriptRequests(s.sc, |s.sc.npcs|));
    PostAllIds(s, w, ScriptRequests(s.sc, |s.sc.npcs|));
    PostAllPred(s, w, ScriptRequests(s.sc, |s.sc.npcs|));
  }

  lemma InitialIs(s: Setup)
    ensures var w := StartBursts(s, StartAudio(s, Nothing(s)), |s.bursts|);
      var w' := StartPredictor(s, w);
      w.bus.now == 0 && Initial(s) == World(Nothing(s).bus, w'.items, w'.next, Nothing(s).ids, Nothing(s).pred)
    ensures Nothing(s).bus.now == 0
  {
    StartOf(s);
    PredictorOnlyPosts(s, StartBursts(s, StartAudio(s, Nothing(s)), |s.bursts|));
    hide StartAudio, StartBursts, Fresh, FreshPredictor, StartPredictor;
  }

  class Simulator {
    const s: Setup
    const clock: Clock
    const q: EventQueue
    const sched: Scheduler
    const audio: AudioTrafficGen
    const texture: TextureTrafficGen
    const weights: AIWeightInjector
    const predictor: AnyPredictor

    ghost function Parts(): set<object>
    {
      {clock, q, sched, sched.hist, sched.hist.counts, audio, texture, weights} + predictor.Objects()
    }

    /** The state on values that the components represent. */
    ghost function State(): World
      requires Wired()
      reads Parts()
    {
      World(sched.Model(), q.pending, q.nextSeq, Ids(audio.nextId, texture.nextId, weights.nextId), predictor.Model())
    }

    ghost predicate Wired()
    {
      && sched.clock == clock && sched.q == q && sched.cfg == s.cfg
      && audio.cfg == s.audio && audio.periodUs == AudioPeriod(s)
      && texture.cfg == s.texture && weights.sizes == s.cfg.lodSizes && weights.qos == s.weightQos
    }

    ghost predicate Valid()
      reads Parts(), q.Handles()
    {
      Wired() && sched.Valid() && q.Valid() && predictor.Serves(s)
    }

    constructor (s: Setup, clock: Clock, q: EventQueue, sched: Scheduler, audio: AudioTrafficGen,
                 texture: TextureTrafficGen, weights: AIWeightInjector, predictor: AnyPredictor)
      requires sched.clock == clock && sched.q == q && sched.Valid() && q.Valid() && predictor.Serves(s)
      requires sched.Model() == Fresh(s.cfg) && q.pending == [] && q.nextSeq == 0
        && predictor.Model() == FreshPredictor(s.kind)
      requires audio.cfg == s.audio && audio.periodUs == AudioPeriod(s) && audio.nextId == 0
      requires texture.cfg == s.texture && texture.nextId == 0
      requires weights.sizes == s.cfg.lodSizes && weights.qos == s.weightQos && weights.nextId == 0
      ensures Valid() && State() == Nothing(s)
      ensures this.s == s && this.clock == clock && this.q == q && this.sched == sched && this.audio == audio
      ensures this.texture == texture && this.weights == weights && this.predictor == predictor
      ensures Parts() == {clock, q, sched, sched.hist, sched.hist.counts, audio, texture, weights} + predictor.Objects()
    {
      this.s, this.clock, this.q, this.sched, this.audio := s, clock, q, sched, audio;
      this.texture, this.weights, this.predictor := texture, weights, predictor;
      new;
      hide Fresh, FreshPredictor, AnyPredictor.Serves, AnyPredictor.Model;
    }

    /** Audio first, then the texture bursts, then the first predictor tick. */
    method Start()
      requires Valid() && State() == Nothing(s)
      modifies q
      ensures Valid() && State() == Initial(s)
    {
      hide StartAudio, StartBursts, Fresh, FreshPredictor, StartPredictor, Initial, Nothing;
      ghost var w := StartBursts(s, StartAudio(s, Nothing(s)), |s.bursts|);
      InitialIs(s);
      StartSources(Nothing(s));
      BeginPredictor(w);
    }

    method BeginPredictor(ghost w: World)
      requires Valid() && Holds(w, q) && w.bus.now == 0
      modifies q
      ensures Valid() && Holds(StartPredictor(s, w), q)
    {
      hide PostAll, ScriptRequests, Insert;
      match predictor {
        case WithScript(p) => p.Start(w, q, weights);
        case WithLod(_) => var h := q.Schedule(0, PredictorTick);
        case WithIntent(_) => var h := q.Schedule(0, PredictorTick);
      }
    }

    method StartSources(ghost w: World)
      requires Valid() && Holds(w, q) && w.bus.now == clock.now
      modifies q
      ensures Valid() && Holds(StartBursts(s, StartAudio(s, w), |s.bursts|), q)
    {
      hide ScheduleAudio, StartBursts, AudioPeriod;
      if s.audioOn {
        audio.ScheduleNext(s, w, clock, q, StopAt(s));
      }
      StartBurstsOf(StartAudio(s, w));
    }

    method StartBurstsOf(ghost w: World)
      requires Valid() && Holds(w, q)
      modifies q
      ensures Valid() && Holds(StartBursts(s, w, |s.bursts|), q)
    {
      hide StartBurst;
      for i := 0 to |s.bursts|
        invariant Valid() && Holds(StartBursts(s, w, i), q)
      {
        texture.ScheduleBurst(s, StartBursts(s, w, i), q, s.bursts[i]);
      }
    }

    // ---- The handlers ----

    method FireAudio(ghost w: World)
      requires Valid() && State() == w
      modifies audio, sched, q
      ensures Valid() && State() == OnAudio(s, w)
    {
      AudioKeepsPred(s, w);
      hide OnAudio;
      audio.Fire(s, w, clock, q, sched, StopAt(s));
    }

    method FireTexture(ghost w: World, at: Time, burstEnd: Time, period: pos)
      requires Valid() && State() == w
      modifies texture, sched, q
      ensures Valid() && State() == OnTexture(s, w, at, burstEnd, period)
    {
      TextureKeepsPred(s, w, at, burstEnd, period);
      hide OnTexture;
      texture.Fire(s, w, clock, q, sched, at, burstEnd, period);
    }

    method FireWeight(ghost w: World, npc: nat, size: nat)
      requires Valid() && State() == w
      modifies weights, sched, q
      ensures Valid() && State() == OnWeight(s, w, npc, size)
    {
      WeightKeepsPred(s, w, npc, size);
      hide OnWeight;
      weights.Fire(s, w, clock, q, sched, npc, size);
    }

    /** False where a fetch throws. */
    method FireTick(ghost w: World) returns (ok: bool)
      requires Valid() && State() == w && !s.kind.Scripted?
      modifies q, predictor.Objects()
      ensures (ok <==> KnownLevels(s, w)) && (ok ==> Valid() && State() == OnTick(s, w))
    {
      TickKeepsRest(s, w);
      hide OnTick;
      match predictor {
        case WithScript(_) => assert false;
        case WithLod(p) => ok := p.Tick(w, clock, q, weights);
        case WithIntent(p) =>
          p.Tick(w, clock, q, weights);
          IntentLevels(s, w);
          ok := true;
      }
    }

    /** Weights have arrived: tell the predictor. */
    method Deliver(npc: nat, lod: int)
      requires Valid()
      modifies predictor.Objects()
      ensures Valid() && Noted(s, old(predictor.Model()), npc, lod, clock.now, predictor.Model())
      ensures State() == old(State()).(pred := predictor.Model())
    {
      hide Noted;
      Note(npc, lod);
    }

    method Note(npc: nat, lod: int)
      requires predictor.Serves(s)
      modifies predictor.Objects()
      ensures predictor.Serves(s) && Noted(s, old(predictor.Model()), npc, lod, clock.now, predictor.Model())
    {
      match predictor {
        case WithScript(_) =>
        case WithLod(p) => p.OnComplete(npc, lod);
        case WithIntent(p) => p.OnComplete(npc, lod, s.place(npc, clock.now / 1000), clock.now);
      }
    }

    method EndQuantum(ghost w: World, p: Pending) returns (delivered: Option<Txn>)
      requires Valid() && State() == w && w.bus.slot.Some? && w.bus.slot.value.p == p
      modifies sched, q, sched.hist, sched.hist.counts
      ensures Valid() && State() == Install(w, QuantumEnd(w.bus))
      ensures delivered == if DeliversWeights(w.bus) then Some(p.tx) else None
    {
      hide Booked, QuantumEnd, Install, LatencyHistogram.Valid;
      InstallBooks(w, QuantumEnd(w.bus));
      delivered := sched.OnQuantumEnd(p);
    }

    method FireQuantum(ghost w: World, p: Pending)
      requires Valid() && State() == w && w.bus.slot.Some? && w.bus.slot.value.p == p
      modifies sched, q, sched.hist, sched.hist.counts, predictor.Objects()
      ensures Valid() && OnQuantum(s, w, State())
    {
      InstallKeepsPred(w, QuantumEnd(w.bus));
      hide Valid, QuantumEnd, Install, Decode, Noted, DeliversWeights;
      var delivered := EndQuantum(w, p);
      if delivered.Some? {
        Deliver(delivered.value.inst, Decode(s.cfg.lodSizes, delivered.value.size));
      }
    }

    /** Run the handler of the event that was taken off the queue; false where it throws. */
    method Dispatch(ghost w: World, ev: Event) returns (ok: bool)
      requires Valid() && w.items != [] && ClockAccepts(w) && ev == w.items[0].ev
      requires State() == Pull(w) && Expected(s, w)
      modifies Parts()
      ensures if ok then Valid() && Step(s, w, State()) else Stuck(s, w)
    {
      hide Valid, OnAudio, OnTexture, OnWeight, OnTick, OnQuantum, KnownLevels;
      ghost var w1 := Pull(w);
      ok := true;
      match ev {
        case AudioTick => FireAudio(w1);
        case TextureBlock(at, burstEnd, period) => FireTexture(w1, at, burstEnd, period);
        case WeightIssue(npc, size) => FireWeight(w1, npc, size);
        case PredictorTick => ok := FireTick(w1);
        case QuantumDone(p) => FireQuantum(w1, p);
      }
    }

    /** Take the next event and move the clock to its time. */
    method Take(ghost w: World) returns (r: Popped)
      requires Valid() && State() == w
      modifies q, clock
      ensures w.items == [] ==> Valid() && r == Drained && State() == w
      ensures w.items != [] && !ClockAccepts(w) ==> r == ClockError
      ensures w.items != [] && ClockAccepts(w) ==> Valid() && r == Took(w.items[0].ev) && State() == Pull(w)
    {
      r := q.PopNext(clock);
    }

    /** One round of the drain loop. */
    method PopAndRun() returns (round: Round)
      requires Valid() && (ClockAccepts(State()) ==> Expected(s, State()))
      modifies Parts()
      ensures round == ClockThrew <==> !ClockAccepts(old(State()))
      ensures match round
              case Fired => Valid() && Step(s, old(State()), State())
              case Finished => Valid() && State() == old(State()) && State().items == []
              case ClockThrew => true
              case PrefetchThrew => Stuck(s, old(State()))
    {
      ghost var w := State();
      hide Valid, Step, Expected, Stuck;
      assert w.items == [] ==> ClockAccepts(w);
      var r := Take(w);
      match r {
        case Drained => round := Finished;
        case ClockError => round := ClockThrew;
        case Took(ev) =>
          var ok := Dispatch(w, ev);
          round := if ok then Fired else PrefetchThrew;
      }
    }

    /** The drain loop. It ends, because every round burns fuel: with no event pending, or with one of the two
        exceptions, of which the clock's comes only at the start. */
    method Drain() returns (end: Round, ghost r: seq<World>)
      requires Valid() && State() == Initial(s)
      modifies Parts()
      ensures end != Fired && (end == ClockThrew <==> !WellPosed(s))
      ensures end != ClockThrew ==> r != [] && History(s, r)
      ensures end == Finished ==> Valid() && Complete(s, r) && r[|r| - 1] == State()
      ensures end == PrefetchThrew ==> Stuck(s, r[|r| - 1])
    {
      hide Fuel, WorldInv, Step, Initial, State, Stuck, Expected, WellPosed, ClockAccepts;
      StartAccepted(s);
      r := [State()];
      end := Fired;
      while end == Fired
        invariant r != []
        invariant WellPosed(s) ==> end != ClockThrew && History(s, r) && WorldInv(s, r[|r| - 1])
        invariant !WellPosed(s) ==> end == ClockThrew || (end == Fired && !ClockAccepts(State()))
        invariant end == Fired || end == Finished ==> Valid() && r[|r| - 1] == State()
        invariant end == Finished ==> State().items == []
        invariant end == PrefetchThrew ==> Stuck(s, r[|r| - 1])
        decreases end == Fired, if end == Fired then Fuel(s, State()) else 0
      {
        ghost var w := State();
        if WellPosed(s) {
          NextEvent(s, w);
        }
        end := PopAndRun();
        if end == Fired {
          StepInv(s, w, State());
          StepBurns(s, w, State());
          HistoryMore(s, r, State());
          r := r + [State()];
        }
      }
    }

    method Result(ghost w: World) returns (r: RunResult)
      requires Valid() && State() == w
      ensures Reports(w, r)
    {
      var p99 := sched.hist.Percentile(0.99);
      var pk := PredictorKpi(0, 0, 0, 0, 0, 0, 0);
      if predictor.WithIntent? {
        pk := predictor.intent.kpi;
      }
      r := RunResult(sched.kpi.(audioSamples := []), p99, pk, clock.now);
    }
  }

  /** A quantum end that is next ends the quantum of the transaction on the bus, and a tick that is next is
      that of a predictor that ticks. */
  predicate Expected(s: Setup, w: World) {
    && (w.items != [] && w.items[0].ev.QuantumDone? ==> w.bus.slot.Some? && w.bus.slot.value.p == w.items[0].ev.p)
    && (w.items != [] && w.items[0].ev.PredictorTick? ==> !s.kind.Scripted?)
  }

  /** The tick that is next asks for a level that has no weights. */
  predicate Stuck(s: Setup, w: World) {
    w.items != [] && w.items[0].ev.PredictorTick? && !KnownLevels(s, Pull(w))
  }

  /** What the next event can rely on. */
  lemma NextEvent(s: Setup, w: World)
    requires WorldInv(s, w)
    ensures ClockAccepts(w) && Expected(s, w)
  {
    if w.items != [] {
      PullInv(s, w);
      assert EventOk(s, w.bus, w.items[0]);
    }
  }

  /** The clock throws at the start exactly when a burst starts before time zero. */
  lemma StartAccepted(s: Setup)
    ensures ClockAccepts(Initial(s)) <==> WellPosed(s)
    ensures WellPosed(s) ==> WorldInv(s, Initial(s))
  {
    hide WorldInv, Initial;
    FirstEventAcceptedIff(s);
    if WellPosed(s) {
      InitialInv(s);
      forall i | 0 <= i < |s.bursts| && Effective(s.bursts[i]) ensures s.bursts[i].atMs >= 0 {
        assert s.bursts[i] in s.bursts;
      }
    }
  }

  /** Whoever names only levels that have weights is never stuck. */
  lemma NeverStuck(s: Setup, w: World)
    requires Levels(s) && WorldInv(s, w)
    ensures !Stuck(s, w)
  {
    if w.items != [] {
      PullFacts(s, w);
      TickAsks(s, Pull(w).pred, Pull(w).bus.now, Pull(w).bus.now);
    }
  }

  lemma IntentLevels(s: Setup, w: World)
    requires PredictorShape(s, w.pred) && s.kind.ByIntent?
    ensures KnownLevels(s, w)
  {
    RequestLevels(s.kind.ip, s.sc, ReleaseExpired(w.pred.intent, w.bus.now / 1000), |s.sc.npcs|, w.bus.now);
  }

  predicate PredictorShape(s: Setup, p: Predictor) {
    s.kind.ByIntent? <==> p.Intents?
  }

  lemma {:induction false} RequestLevels(ip: IntentConfig, sc: Scene, st: Intent, n: nat, now: Time)
    requires n <= |sc.npcs|
    ensures AllLevels(VisitNpcs(ip, sc, st, n, now).1)
  {
    if n > 0 {
      RequestLevels(ip, sc, st, n - 1, now);
      hide Serve;
    }
  }

  lemma HistoryMore(s: Setup, r: seq<World>, w: World)
    requires History(s, r) && Step(s, r[|r| - 1], w)
    ensures History(s, r + [w])
  {
    hide Step, Initial;
    var r' := r + [w];
    forall i | 0 <= i < |r'| - 1 ensures StepsAt(s, r', i) {
      if i < |r| - 1 {
        assert StepsAt(s, r, i);
      }
    }
  }

  /** `make_predictor`, for the three policies. */
  method MakePredictor(s: Setup) returns (p: AnyPredictor)
    ensures p.Serves(s) && p.Model() == FreshPredictor(s.kind) && fresh(p.Objects())
  {
    hide FreshPredictor;
    if s.kind.Scripted? {
      var o := new ScriptedPredictor(s);
      p := WithScript(o);
    } else if s.kind.ByDistance? {
      var l := new LodPredictor(s);
      p := WithLod(l);
    } else {
      var i := new IntentPredictor(s);
      p := WithIntent(i);
    }
  }

  /** Construct and connect the components. */
  method Wire(s: Setup) returns (sim: Simulator)
    ensures sim.s == s && sim.Valid() && sim.State() == Nothing(s)
    ensures fresh(sim) && fresh(sim.clock) && fresh(sim.q) && fresh(sim.sched) && fresh(sim.sched.hist)
    ensures fresh(sim.sched.hist.counts) && fresh(sim.audio) && fresh(sim.texture) && fresh(sim.weights)
    ensures fresh(sim.predictor.Objects())
  {
    assert Fresh(s.cfg).(now := 0) == Fresh(s.cfg);
    hide Fresh, FreshPredictor, AnyPredictor.Serves, AnyPredictor.Model, AnyPredictor.Objects;
    var clock := new Clock();
    var q := new EventQueue();
    var sched := new Scheduler(s.cfg, clock, q);
    var audio := new AudioTrafficGen(s.audio);
    var texture := new TextureTrafficGen(s.texture);
    var weights := new AIWeightInjector(s.cfg.lodSizes, s.weightQos);
    var predictor := MakePredictor(s);
    hide Period, Simulator.Parts;
    sim := new Simulator(s, clock, q, sched, audio, texture, weights, predictor);
  }

  // ---- A run that throws does not also complete ----

  /** Under the distance predictor the machine is deterministic. */
  lemma StepUnique(s: Setup, w: World, a: World, b: World)
    requires s.kind.ByDistance? && Step(s, w, a) && Step(s, w, b)
    ensures a == b
  {
    hide OnAudio, OnTexture, OnWeight, OnTick, Install, QuantumEnd, Decode, Key, DeliversWeights, KnownLevels;
  }

  lemma {:induction false} HistoriesAgree(s: Setup, g: seq<World>, h: seq<World>, n: nat)
    requires s.kind.ByDistance? && History(s, g) && History(s, h) && n < |g| && n < |h|
    ensures g[n] == h[n]
  {
    hide Initial, Step;
    if n > 0 {
      HistoriesAgree(s, g, h, n - 1);
      assert StepsAt(s, g, n - 1) && StepsAt(s, h, n - 1);
      StepUnique(s, g[n - 1], g[n], h[n]);
    }
  }

  /** Nothing follows a tick that throws. */
  lemma NothingFollows(s: Setup, w: World, w': World)
    requires Stuck(s, w)
    ensures !Step(s, w, w')
  {
    hide KnownLevels;
  }

  lemma NeverBoth(s: Setup, g: seq<World>, h: seq<World>)
    requires s.kind.ByDistance? && History(s, g) && Stuck(s, g[|g| - 1]) && History(s, h)
    ensures h[|h| - 1].items != []
  {
    hide Initial, Step, Stuck;
    var n := if |g| <= |h| then |g| - 1 else |h| - 1;
    HistoriesAgree(s, g, h, n);
    StuckHasTick(s, g[|g| - 1]);
    if |g| < |h| {
      assert StepsAt(s, h, n);
      NothingFollows(s, h[n], h[n + 1]);
    } else if |h| < |g| {
      assert StepsAt(s, g, n);
      StepHasEvent(s, g[n], g[n + 1]);
    }
  }

  lemma StuckHasTick(s: Setup, w: World)
    requires Stuck(s, w)
    ensures w.items != []
  {
  }

  /** Some run of the set-up comes to a tick that throws. */
  ghost predicate CanThrow(s: Setup) {
    exists h: seq<World> :: History(s, h) && Stuck(s, h[|h| - 1])
  }

  lemma DoneNeverThrows(s: Setup, h: seq<World>)
    requires WellPosed(s) && Complete(s, h)
    ensures !CanThrow(s)
  {
    hide Initial, Step, Stuck, WellPosed, Levels;
    if g: seq<World> :| History(s, g) && Stuck(s, g[|g| - 1]) {
      StuckFacts(s, g);
      NoLevels(s);
      NeverBoth(s, g, h);
    }
  }

  lemma NoLevels(s: Setup)
    requires !Levels(s)
    ensures s.kind.ByDistance?
  {
  }

  /** One simulation, whatever the set-up. It always ends: with the clock's exception exactly when a burst
      starts before time zero; otherwise with the injector's exception exactly when a run comes to a tick that
      asks for a level without weights, which takes a band that names one; otherwise with the result of a
      complete run. Then nothing is left over under FIFO, only audio was ever dropped, and with a feasible
      audio flow every transaction completed. */
  method RunOne(s: Setup) returns (r: Outcome)
    ensures r == ClockException <==> !WellPosed(s)
    ensures r == PrefetchException <==> WellPosed(s) && CanThrow(s)
    ensures r == PrefetchException ==> !Levels(s)
    ensures r.Done? ==>
      && (exists h: seq<World> :: Complete(s, h) && Reports(h[|h| - 1], r.result))
      && (s.cfg.policy == Fifo ==> r.result.kpi.issued == r.result.kpi.completed + r.result.kpi.dropped)
      && r.result.kpi.dropped == r.result.kpi.audioDropped
      && ((exists f: Flow :: Fits(s, f)) ==> r.result.kpi.dropped == 0 && r.result.kpi.issued == r.result.kpi.completed)
  {
    hide Initial, Nothing, Reports, WellPosed, Fits, Stuck, Levels, Step;
    var sim := Wire(s);
    sim.Start();
    ghost var h: seq<World>;
    var end;
    end, h := sim.Drain();
    match end {
      case ClockThrew => r := ClockException;
      case PrefetchThrew =>
        StuckFacts(s, h);
        r := PrefetchException;
      case Finished =>
        EndFacts(s, h);
        DoneNeverThrows(s, h);
        hide Complete;
        var result := sim.Result(h[|h| - 1]);
        ReportsKpi(h[|h| - 1], result);
        r := Done(result);
    }
  }

  lemma StuckFacts(s: Setup, h: seq<World>)
    requires WellPosed(s) && History(s, h) && Stuck(s, h[|h| - 1])
    ensures !Levels(s)
  {
    HistoryInv(s, h, |h| - 1);
    if Levels(s) {
      NeverStuck(s, h[|h| - 1]);
    }
  }

  lemma ReportsKpi(w: World, r: RunResult)
    requires Reports(w, r)
    ensures r.kpi.issued == w.bus.kpi.issued && r.kpi.completed == w.bus.kpi.completed
    ensures r.kpi.dropped == w.bus.kpi.dropped && r.kpi.audioDropped == w.bus.kpi.audioDropped
  {
  }

  lemma EndFacts(s: Setup, h: seq<World>)
    requires WellPosed(s) && Complete(s, h)
    ensures var b := h[|h| - 1].bus;
      && (s.cfg.policy == Fifo ==> b.kpi.issued == b.kpi.completed + b.kpi.dropped)
      && b.kpi.dropped == b.kpi.audioDropped
      && ((exists f: Flow :: Fits(s, f)) ==> b.kpi.dropped == 0 && b.kpi.issued == b.kpi.completed)
  {
    hide Initial, Step, WellPosed, Fits, WorldInv, Termination.Drained, OnTime, Paced, Guaranteed;
    var w := h[|h| - 1];
    EndDrained(s, h);
    HistoryInv(s, h, |h| - 1);
    DrainedFifo(s, w);
    if f: Flow :| Fits(s, f) {
      var last := RunTimely(s, f, h, |h| - 1);
      DrainedTimely(f, w.bus, last);
    }
  }

  lemma DrainedFifo(s: Setup, w: World)
    requires WorldInv(s, w) && Termination.Drained(w.bus)
    ensures s.cfg.policy == Fifo ==> w.bus.kpi.issued == w.bus.kpi.completed + w.bus.kpi.dropped
    ensures w.bus.kpi.dropped == w.bus.kpi.audioDropped
  {
    ReachablePolicy(w.bus);
    hide Healthy;
  }

  lemma DrainedTimely(f: Flow, b: Bus, last: Time)
    requires OnTime(f, b, last) && Termination.Drained(b) && b.kpi.dropped == b.kpi.audioDropped
    ensures b.kpi.dropped == 0 && b.kpi.issued == b.kpi.completed
  {
  }
}
