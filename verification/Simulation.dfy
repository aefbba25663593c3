/** The whole simulation on values: clock, event queue, traffic generators, predictor and bus. */
module Simulation {
  import opened Base
  import opened Configuration
  import opened Scheduling
  import opened Events
  import opened EventQueues
  import opened LodSelection
  import opened Prefetching

  // ---- Set-up ----

  datatype AudioFlow = AudioFlow(rate: pos, packetBytes: nat, deadlineUs: int, qos: QosTag)

  datatype TextureFlow = TextureFlow(blockBytes: nat, qos: QosTag)

  datatype Burst = Burst(atMs: int, rate: int, durationMs: int)

  datatype PredictorKind =
    | Scripted
    | ByDistance(bands: seq<Band>, pct: nat)
    | ByIntent(ip: IntentConfig, capacity: Word, cores: nat)

  /** A configuration and a scenario. `place` is the distance of an NPC when its weights arrive. */
  datatype Setup = Setup(cfg: Config, audio: AudioFlow, audioOn: bool, texture: TextureFlow,
                         bursts: seq<Burst>, weightQos: QosTag, tickUs: pos, kind: PredictorKind,
                         sc: Scene, place: (nat, int) -> real)

  /** `llround` of the exact quotient, and never zero. */
  function Period(bytes: nat, rate: pos): pos {
    Max(1, (2 * bytes + rate) / (2 * rate))
  }

  function StopAt(s: Setup): Time {
    s.sc.durationMs * 1000
  }

  function AudioPeriod(s: Setup): pos {
    Period(s.audio.packetBytes, s.audio.rate)
  }

  // ---- State ----

  datatype Predictor = Script | Distances(dist: Distance) | Intents(intent: Intent)

  datatype Ids = Ids(audio: nat, texture: nat, weight: nat)

  /** `items` are the pending events in firing order. */
  datatype World = World(bus: Bus, items: seq<Item>, next: nat, ids: Ids, pred: Predictor)

  function InFlight(p: Predictor): set<nat> {
    match p
    case Script => {}
    case Distances(d) => d.inFlight
    case Intents(i) => i.inFlight
  }

  function Post(w: World, when: Time, ev: Event): World {
    w.(items := Insert(w.items, Item(when, w.next, ev)), next := w.next + 1)
  }

  /** Install a new bus state; if a quantum was started, its end is an event. */
  function Install(w: World, bus: Bus): World {
    var w1 := w.(bus := bus);
    if bus.slot.Some? then Post(w1, bus.slot.value.fireAt, QuantumDone(bus.slot.value.p)) else w1
  }

  /** A transaction arrives at the scheduler. */
  function Submit(w: World, tx: Txn): World {
    if w.bus.slot.Some? then w.(bus := Accept(w.bus, tx)) else Install(w, Accept(w.bus, tx))
  }

  // ---- Handlers ----

  function ScheduleAudio(s: Setup, w: World): World {
    var when := w.bus.now + AudioPeriod(s);
    if when >= StopAt(s) then w else Post(w, when, AudioTick)
  }

  function AudioTxn(s: Setup, w: World): Txn {
    Txn(w.ids.audio + 1, Audio, 0, s.audio.qos, s.audio.packetBytes, w.bus.now, w.bus.now + s.audio.deadlineUs)
  }

  function OnAudio(s: Setup, w: World): World {
    ScheduleAudio(s, Submit(w.(ids := w.ids.(audio := w.ids.audio + 1)), AudioTxn(s, w)))
  }

  function ScheduleBlock(w: World, at: Time, burstEnd: Time, period: pos): World {
    if at >= burstEnd then w else Post(w, at, TextureBlock(at, burstEnd, period))
  }

  function TextureTxn(s: Setup, w: World): Txn {
    Txn(w.ids.texture + 1, Texture, 0, s.texture.qos, s.texture.blockBytes, w.bus.now, 0)
  }

  function OnTexture(s: Setup, w: World, at: Time, burstEnd: Time, period: pos): World {
    ScheduleBlock(Submit(w.(ids := w.ids.(texture := w.ids.texture + 1)), TextureTxn(s, w)),
                  at + period, burstEnd, period)
  }

  function WeightTxn(s: Setup, w: World, npc: nat, size: nat): Txn {
    Txn(w.ids.weight + 1, Weight, npc, s.weightQos, size, w.bus.now, 0)
  }

  function OnWeight(s: Setup, w: World, npc: nat, size: nat): World {
    Submit(w.(ids := w.ids.(weight := w.ids.weight + 1)), WeightTxn(s, w, npc, size))
  }

  function PostAll(s: Setup, w: World, rs: seq<Request>): World {
    if rs == [] then w
    else
      var r := rs[|rs| - 1];
      Post(PostAll(s, w, rs[..|rs| - 1]), w.bus.now, WeightIssue(r.npc, Encode(s.cfg.lodSizes, r.lod)))
  }

  function Tick(s: Setup, p: Predictor, now: Time): (Predictor, seq<Request>) {
    match (s.kind, p)
    case (ByDistance(bands, pct), Distances(d)) =>
      var (d', rs) := VisitAllByDistance(bands, pct, s.sc, d, |s.sc.npcs|, now);
      (Distances(d'), rs)
    case (ByIntent(ip, _, _), Intents(i)) =>
      var (i', rs) := IntentTick(ip, s.sc, i, now);
      (Intents(i'), rs)
    case (_, _) => (p, [])
  }

  /** The tick that is due asks only for levels that have weights. */
  predicate KnownLevels(s: Setup, w: World) {
    AllLevels(Tick(s, w.pred, w.bus.now).1)
  }

  function Rearm(s: Setup, w: World): World {
    var next := w.bus.now + s.tickUs;
    if next < StopAt(s) then Post(w, next, PredictorTick) else w
  }

  function OnTick(s: Setup, w: World): World {
    var (pred, rs) := Tick(s, w.pred, w.bus.now);
    Rearm(s, PostAll(s, w.(pred := pred), rs))
  }

  /** What the predictor does when weights arrive. */
  ghost predicate Noted(s: Setup, p: Predictor, npc: nat, lod: int, now: Time, p': Predictor) {
    match (s.kind, p, p')
    case (Scripted, Script, Script) => true
    case (ByDistance(_, _), Distances(d), Distances(d')) => d' == DistanceComplete(d, npc, lod)
    case (ByIntent(_, capacity, _), Intents(i), Intents(i')) =>
      IntentComplete(s.cfg.lodSizes, capacity, s.sc, i, npc, lod, s.place(npc, now / 1000), now, i')
    case (_, _, _) => false
  }

  /** The running quantum is the last one of a weight transfer. */
  predicate DeliversWeights(b: Bus) {
    b.slot.Some? && b.slot.value.p.tx.source == Weight && AfterQuantum(b.slot.value.p).remaining == 0
  }

  ghost predicate OnQuantum(s: Setup, w: World, w': World)
    requires w.bus.slot.Some?
  {
    var tx := w.bus.slot.value.p.tx;
    && w' == Install(w, QuantumEnd(w.bus)).(pred := w'.pred)
    && (if DeliversWeights(w.bus) then Noted(s, w.pred, tx.inst, Decode(s.cfg.lodSizes, tx.size), w.bus.now, w'.pred)
        else w'.pred == w.pred)
  }

  // ---- Steps ----

  /** The clock accepts the time of the next event. */
  predicate ClockAccepts(w: World) {
    w.items != [] ==> w.bus.now <= w.items[0].when
  }

  /** The next event has been taken and the clock advanced. */
  function Pull(w: World): World
    requires w.items != []
  {
    w.(items := w.items[1..], bus := w.bus.(now := w.items[0].when))
  }

  /** One round of the drain loop of `run_one`: the next event fires. */
  ghost predicate Step(s: Setup, w: World, w': World) {
    && w.items != [] && ClockAccepts(w)
    && var w1 := Pull(w);
       match w.items[0].ev
       case AudioTick => w' == OnAudio(s, w1)
       case TextureBlock(at, burstEnd, period) => w' == OnTexture(s, w1, at, burstEnd, period)
       case WeightIssue(npc, size) => w' == OnWeight(s, w1, npc, size)
       case PredictorTick => KnownLevels(s, w1) && w' == OnTick(s, w1)
       case QuantumDone(_) => w1.bus.slot.Some? && OnQuantum(s, w1, w')
  }

  // ---- Start of a run ----

  function FreshPredictor(k: PredictorKind): Predictor {
    match k
    case Scripted => Script
    case ByDistance(_, _) => Distances(Distance(map[], {}, {}))
    case ByIntent(_, _, cores) => Intents(FreshIntent(cores))
  }

  function Nothing(s: Setup): World {
    World(Fresh(s.cfg), [], 0, Ids(0, 0, 0), FreshPredictor(s.kind))
  }

  function StartAudio(s: Setup, w: World): World {
    if s.audioOn then ScheduleAudio(s, w) else w
  }

  function StartBurst(s: Setup, w: World, b: Burst): World {
    if b.rate <= 0 || b.durationMs <= 0 then w
    else ScheduleBlock(w, b.atMs * 1000, b.atMs * 1000 + b.durationMs * 1000, Period(s.texture.blockBytes, b.rate))
  }

  function StartBursts(s: Setup, w: World, n: nat): World
    requires n <= |s.bursts|
  {
    if n == 0 then w else StartBurst(s, StartBursts(s, w, n - 1), s.bursts[n - 1])
  }

  /** The finest weights of the first `n` NPCs. */
  function ScriptRequests(sc: Scene, n: nat): seq<Request>
    requires n <= |sc.npcs|
  {
    if n == 0 then [] else ScriptRequests(sc, n - 1) + [Request(sc.npcs[n - 1].id, 0)]
  }

  /** The scripted predictor asks for everything while the clock stands at zero; the others begin to tick. */
  function StartPredictor(s: Setup, w: World): World {
    if s.kind.Scripted? then PostAll(s, w, ScriptRequests(s.sc, |s.sc.npcs|)) else Post(w, 0, PredictorTick)
  }

  /** The wiring of `run_one`, up to the drain loop. */
  function Initial(s: Setup): World {
    StartPredictor(s, StartBursts(s, StartAudio(s, Nothing(s)), |s.bursts|))
  }

  // ---- Runs ----

  ghost predicate StepsAt(s: Setup, r: seq<World>, i: nat)
    requires i + 1 < |r|
  {
    Step(s, r[i], r[i + 1])
  }

  ghost predicate History(s: Setup, r: seq<World>) {
    r != [] && r[0] == Initial(s) && forall i :: 0 <= i < |r| - 1 ==> StepsAt(s, r, i)
  }
}
