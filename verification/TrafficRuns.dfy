/** What the generators offer to the scheduler over whole simulations: exactly which transactions, and when. */
module TrafficRuns {
  import opened Base
  import opened Configuration
  import opened Scheduling
  import opened Events
  import opened EventQueues
  import opened Prefetching
  import opened Simulation
  import opened SimulationSafety
  import opened PrefetchProtocol
  import opened EventTimes
  import opened Interactions

  // ---- Arrivals in the trace ----

  datatype Arrival = Arrival(tx: Txn, at: Time)

  /** Everything the scheduler has accepted, in order. */
  function Arrivals(log: Trace): seq<Arrival> {
    match log
    case Empty => []
    case Snoc(past, Arrived(p, at)) => Arrivals(past) + [Arrival(p.tx, at)]
    case Snoc(past, _) => Arrivals(past)
  }

  lemma {:induction false} DropsArriveNothing(b: Bus)
    requires b.slot.None?
    ensures Arrivals(DropExpired(b).log) == Arrivals(b.log)
    decreases |Queue(b.d, GuardedLane(b.d))|
  {
    if HeadExpired(b) {
      DropsArriveNothing(DropHead(b));
    }
  }

  lemma StartArrivesNothing(b: Bus)
    ensures Arrivals(StartIfIdle(b).log) == Arrivals(b.log)
  {
    if b.slot.None? {
      DropsArriveNothing(Do(b, Refill));
      hide DropExpired;
    }
  }

  lemma AcceptArrives(b: Bus, tx: Txn)
    ensures Arrivals(Accept(b, tx).log) == Arrivals(b.log) + [Arrival(tx, b.now)]
  {
    StartArrivesNothing(Admit(b, tx));
    hide StartIfIdle;
  }

  lemma QuantumArrivesNothing(b: Bus)
    requires b.slot.Some?
    ensures Arrivals(QuantumEnd(b).log) == Arrivals(b.log)
  {
    StartArrivesNothing(Retire(b));
    hide StartIfIdle;
  }

  lemma SubmitArrives(w: World, tx: Txn)
    ensures Arrivals(Submit(w, tx).bus.log) == Arrivals(w.bus.log) + [Arrival(tx, w.bus.now)]
    ensures Submit(w, tx).ids == w.ids
  {
    AcceptArrives(w.bus, tx);
    hide Accept, Insert, Arrivals;
  }

  /** What the next event offers. */
  function Offered(s: Setup, w: World): seq<Txn>
    requires w.items != []
  {
    match w.items[0].ev
    case AudioTick => [AudioTxn(s, Pull(w))]
    case TextureBlock(_, _, _) => [TextureTxn(s, Pull(w))]
    case WeightIssue(npc, size) => [WeightTxn(s, Pull(w), npc, size)]
    case _ => []
  }

  function IdsAfter(w: World): Ids
    requires w.items != []
  {
    match w.items[0].ev
    case AudioTick => w.ids.(audio := w.ids.audio + 1)
    case TextureBlock(_, _, _) => w.ids.(texture := w.ids.texture + 1)
    case WeightIssue(_, _) => w.ids.(weight := w.ids.weight + 1)
    case _ => w.ids
  }

  lemma StepArrives(s: Setup, w: World, w': World)
    requires Step(s, w, w')
    ensures w.items != [] && w'.ids == IdsAfter(w)
    ensures Arrivals(w'.bus.log) ==
      Arrivals(w.bus.log) + (if Offered(s, w) == [] then [] else [Arrival(Offered(s, w)[0], w.items[0].when)])
  {
    var w1 := Pull(w);
    hide Arrivals, OnAudio, OnTexture, OnWeight, OnTick, Insert, QuantumEnd, Noted, KnownLevels;
    hide AudioTxn, TextureTxn, WeightTxn;
    match w.items[0].ev
    case AudioTick => AudioArrives(s, w1);
    case TextureBlock(at, burstEnd, period) => TextureArrives(s, w1, at, burstEnd, period);
    case WeightIssue(npc, size) => WeightArrives(s, w1, npc, size);
    case PredictorTick => TickKeepsRest(s, w1);
    case QuantumDone(_) => QuantumArrivesNothing(w1.bus);
  }

  lemma AudioArrives(s: Setup, w: World)
    ensures Arrivals(OnAudio(s, w).bus.log) == Arrivals(w.bus.log) + [Arrival(AudioTxn(s, w), w.bus.now)]
    ensures OnAudio(s, w).ids == w.ids.(audio := w.ids.audio + 1)
  {
    hide Arrivals, Submit, Insert, AudioPeriod;
    SubmitArrives(w.(ids := w.ids.(audio := w.ids.audio + 1)), AudioTxn(s, w));
  }

  lemma TextureArrives(s: Setup, w: World, at: Time, burstEnd: Time, period: pos)
    ensures var w' := OnTexture(s, w, at, burstEnd, period);
      && Arrivals(w'.bus.log) == Arrivals(w.bus.log) + [Arrival(TextureTxn(s, w), w.bus.now)]
      && w'.ids == w.ids.(texture := w.ids.texture + 1)
  {
    hide Arrivals, Submit, Insert;
    SubmitArrives(w.(ids := w.ids.(texture := w.ids.texture + 1)), TextureTxn(s, w));
  }

  lemma WeightArrives(s: Setup, w: World, npc: nat, size: nat)
    ensures Arrivals(OnWeight(s, w, npc, size).bus.log) ==
      Arrivals(w.bus.log) + [Arrival(WeightTxn(s, w, npc, size), w.bus.now)]
    ensures OnWeight(s, w, npc, size).ids == w.ids.(weight := w.ids.weight + 1)
  {
    hide Arrivals, Submit;
    SubmitArrives(w.(ids := w.ids.(weight := w.ids.weight + 1)), WeightTxn(s, w, npc, size));
  }

  function Only(v: seq<Arrival>, source: Source): seq<Arrival> {
    if v == [] then []
    else Only(v[..|v| - 1], source) + if v[|v| - 1].tx.source == source then [v[|v| - 1]] else []
  }

  lemma OnlyMore(v: seq<Arrival>, a: Arrival, source: Source)
    ensures Only(v + [a], source) == Only(v, source) + if a.tx.source == source then [a] else []
  {
    assert (v + [a])[..|v|] == v;
  }

  // ---- Every transaction is what its generator makes ----

  /** What a transaction of each source looks like, `id` and, for weights, NPC and level being free. */
  ghost predicate Genuine(s: Setup, a: Arrival) {
    match a.tx.source
    case Audio => a.tx == Txn(a.tx.id, Audio, 0, s.audio.qos, s.audio.packetBytes, a.at, a.at + s.audio.deadlineUs)
    case Texture => a.tx == Txn(a.tx.id, Texture, 0, s.texture.qos, s.texture.blockBytes, a.at, 0)
    case Weight =>
      && a.tx == Txn(a.tx.id, Weight, a.tx.inst, s.weightQos, a.tx.size, a.at, 0)
      && LevelBytes(s, a.tx.size)
  }

  /** The size is that of the configured weights of some level. */
  ghost predicate LevelBytes(s: Setup, size: nat) {
    exists lod :: IsLod(lod) && size == (SizeMb(s.cfg.lodSizes, lod) % 4096) * MB
  }

  function CountOf(ids: Ids, source: Source): nat {
    match source
    case Audio => ids.audio
    case Texture => ids.texture
    case Weight => ids.weight
  }

  /** Each source numbers its transactions from one on. */
  ghost predicate Numbered(v: seq<Arrival>, ids: Ids) {
    forall source :: |Only(v, source)| == CountOf(ids, source) &&
      forall i :: 0 <= i < |Only(v, source)| ==> Only(v, source)[i].tx.id == i + 1
  }

  /** What the next event of a run carries. */
  lemma FirstEvent(s: Setup, w: World)
    requires WorldInv(s, w) && w.items != []
    ensures match w.items[0].ev
      case TextureBlock(at, burstEnd, _) => at == w.items[0].when < burstEnd
      case WeightIssue(_, size) => IsSize(s, size)
      case _ => true
  {
    assert EventOk(s, w.bus, w.items[0]);
    hide WorldInv, IsSize;
  }

  lemma LevelSize(s: Setup, size: nat)
    requires IsSize(s, size)
    ensures LevelBytes(s, size)
  {
    var lod :| IsLod(lod) && size == Encode(s.cfg.lodSizes, lod);
    EncodedMegabytes(s.cfg.lodSizes, lod);
  }

  lemma OfferedGenuine(s: Setup, w: World)
    requires WorldInv(s, w) && w.items != [] && Offered(s, w) != []
    ensures Genuine(s, Arrival(Offered(s, w)[0], w.items[0].when))
  {
    hide WorldInv, IsSize, LevelBytes;
    FirstEvent(s, w);
    if w.items[0].ev.WeightIssue? {
      LevelSize(s, w.items[0].ev.size);
    }
  }

  lemma OfferedNumber(s: Setup, w: World)
    requires w.items != [] && Offered(s, w) != []
    ensures Offered(s, w)[0].id == CountOf(IdsAfter(w), Offered(s, w)[0].source)
    ensures forall source ::
      CountOf(IdsAfter(w), source) == CountOf(w.ids, source) + if source == Offered(s, w)[0].source then 1 else 0
  {
  }

  lemma NumberedMore(v: seq<Arrival>, ids: Ids, a: Arrival, ids': Ids)
    requires Numbered(v, ids) && a.tx.id == CountOf(ids', a.tx.source)
    requires forall source :: CountOf(ids', source) == CountOf(ids, source) + if source == a.tx.source then 1 else 0
    ensures Numbered(v + [a], ids')
  {
    forall source
      ensures |Only(v + [a], source)| == CountOf(ids', source)
      ensures forall i :: 0 <= i < |Only(v + [a], source)| ==> Only(v + [a], source)[i].tx.id == i + 1
    {
      OnlyMore(v, a, source);
    }
  }

  ghost predicate AllGenuine(s: Setup, v: seq<Arrival>) {
    forall a :: a in v ==> Genuine(s, a)
  }

  lemma InitialArrivals(s: Setup)
    ensures Arrivals(Initial(s).bus.log) == [] && Initial(s).ids == Ids(0, 0, 0)
  {
    hide Insert, PostAll, TokenCapacity, RefillRate, FreshPredictor, ScriptRequests;
    StartKeepsBus(s, StartAudio(s, Nothing(s)), |s.bursts|);
    var w := StartBursts(s, StartAudio(s, Nothing(s)), |s.bursts|);
    PostAllBus(s, w, ScriptRequests(s.sc, |s.sc.npcs|));
    PostAllIds(s, w, ScriptRequests(s.sc, |s.sc.npcs|));
  }

  lemma {:induction false} StartKeepsBus(s: Setup, w: World, n: nat)
    requires n <= |s.bursts|
    ensures StartBursts(s, w, n).bus == w.bus && StartBursts(s, w, n).ids == w.ids
  {
    if n > 0 {
      StartKeepsBus(s, w, n - 1);
    }
  }

  /** In every run every accepted transaction is what its generator makes, accepted at the time it was issued,
      and numbered in order by its source. */
  lemma {:induction false} OffersAreGenuine(s: Setup, r: seq<World>, n: nat)
    requires WellPosed(s) && History(s, r) && n < |r|
    ensures AllGenuine(s, Arrivals(r[n].bus.log)) && Numbered(Arrivals(r[n].bus.log), r[n].ids)
  {
    hide Initial, Step, WorldInv, WellPosed, Arrivals, Genuine, Numbered;
    if n == 0 {
      InitialArrivals(s);
      NothingNumbered();
    } else {
      OffersAreGenuine(s, r, n - 1);
      HistoryInv(s, r, n - 1);
      assert StepsAt(s, r, n - 1);
      var w := r[n - 1];
      StepArrives(s, w, r[n]);
      if Offered(s, w) != [] {
        OfferedGenuine(s, w);
        OfferedNumber(s, w);
        var a := Arrival(Offered(s, w)[0], w.items[0].when);
        NumberedMore(Arrivals(w.bus.log), w.ids, a, r[n].ids);
      } else {
        assert Arrivals(w.bus.log) + [] == Arrivals(w.bus.log);
      }
    }
  }

  lemma NothingNumbered()
    ensures Numbered([], Ids(0, 0, 0))
  {
  }

  // ---- Audio ----

  function PacketAt(s: Setup, k: nat): Time {
    k * Period(s.audio.packetBytes, s.audio.rate)
  }

  /** The first `m` packets: one per period, the first after one period. */
  function Packets(s: Setup, m: nat): seq<Arrival> {
    if m == 0 then []
    else
      var t := PacketAt(s, m);
      Packets(s, m - 1)
      + [Arrival(Txn(m, Audio, 0, s.audio.qos, s.audio.packetBytes, t, t + s.audio.deadlineUs), t)]
  }

  /** The `k`-th packet is due in the scenario. */
  predicate Sounds(s: Setup, k: nat) {
    s.audioOn && PacketAt(s, k) < s.sc.durationMs * 1000
  }

  /** `m` packets have been offered, and the next is pending if it is due. */
  ghost predicate AudioUpTo(s: Setup, w: World, m: nat) {
    && w.ids.audio == m && Only(Arrivals(w.bus.log), Audio) == Packets(s, m)
    && (forall k :: 1 <= k <= m ==> Sounds(s, k))
    && PendingTimes(w.items, Sounding) == if Sounds(s, m + 1) then [PacketAt(s, m + 1)] else []
  }

  lemma OnAudioPending(s: Setup, w: World)
    requires PendingTimes(w.items, Sounding) == []
    ensures var next := w.bus.now + Period(s.audio.packetBytes, s.audio.rate);
      PendingTimes(OnAudio(s, w).items, Sounding) == if next < s.sc.durationMs * 1000 then [next] else []
  {
    hide PendingTimes, Submit, Insert, Period;
    var w1 := w.(ids := w.ids.(audio := w.ids.audio + 1));
    SubmitPending(w1, AudioTxn(s, w), Sounding);
    SubmitTime(w1, AudioTxn(s, w));
    var w2 := Submit(w1, AudioTxn(s, w));
    PostPending(w2, w2.bus.now + AudioPeriod(s), AudioTick, Sounding);
  }

  predicate IsAudio(w: World) {
    w.items != [] && w.items[0].ev.AudioTick?
  }

  lemma StepSounding(s: Setup, w: World, w': World)
    requires Step(s, w, w') && |PendingTimes(w.items, Sounding)| <= 1
    ensures var next := w.items[0].when + Period(s.audio.packetBytes, s.audio.rate);
      PendingTimes(w'.items, Sounding) ==
      if !IsAudio(w) then PendingTimes(w.items, Sounding)
      else if next < s.sc.durationMs * 1000 then [next] else []
    ensures IsAudio(w) ==> PendingTimes(w.items, Sounding) == [w.items[0].when]
  {
    var w1 := Pull(w);
    FirstPending(w, Sounding);
    hide PendingTimes, OnAudio, OnTexture, OnWeight, Install, OnTick, Noted, QuantumEnd, KnownLevels, Period;
    match w.items[0].ev
    case AudioTick => OnAudioPending(s, w1);
    case TextureBlock(at, burstEnd, period) => TexturePending(s, w1, at, burstEnd, period, Sounding);
    case WeightIssue(npc, size) => WeightPending(s, w1, npc, size, Sounding);
    case PredictorTick => TickPending(s, w1, Sounding);
    case QuantumDone(_) => InstallPending(w1, QuantumEnd(w1.bus), Sounding);
  }

  lemma NextPacketAt(s: Setup, k: nat)
    ensures PacketAt(s, k) + Period(s.audio.packetBytes, s.audio.rate) == PacketAt(s, k + 1)
    ensures PacketAt(s, 0) == 0 && PacketAt(s, 1) == Period(s.audio.packetBytes, s.audio.rate)
  {
    hide Period;
  }

  lemma OfferedAudio(s: Setup, w: World, w': World)
    requires Step(s, w, w')
    ensures var t := w.items[0].when;
      Only(Arrivals(w'.bus.log), Audio) == Only(Arrivals(w.bus.log), Audio) + if !IsAudio(w) then []
      else [Arrival(Txn(w.ids.audio + 1, Audio, 0, s.audio.qos, s.audio.packetBytes, t, t + s.audio.deadlineUs), t)]
    ensures w.items != [] && w'.ids.audio == w.ids.audio + if IsAudio(w) then 1 else 0
  {
    StepArrives(s, w, w');
    hide Step, Arrivals, Only;
    var v := Arrivals(w.bus.log);
    if Offered(s, w) != [] {
      OnlyMore(v, Arrival(Offered(s, w)[0], w.items[0].when), Audio);
    } else {
      assert v + [] == v;
    }
  }

  lemma StepAudio(s: Setup, w: World, w': World, m: nat)
    requires Step(s, w, w') && AudioUpTo(s, w, m)
    ensures AudioUpTo(s, w', if IsAudio(w) then m + 1 else m)
  {
    hide Step, Arrivals, Only, PendingTimes, PacketAt, Period;
    OfferedAudio(s, w, w');
    StepSounding(s, w, w');
    NextPacketAt(s, m + 1);
  }

  lemma InitialAudio(s: Setup)
    ensures AudioUpTo(s, Initial(s), 0)
  {
    InitialArrivals(s);
    NextPacketAt(s, 0);
    InitialSounding(s);
    hide Initial, PendingTimes, PacketAt, Period;
  }

  lemma InitialSounding(s: Setup)
    ensures var first := Period(s.audio.packetBytes, s.audio.rate);
      PendingTimes(Initial(s).items, Sounding) == if s.audioOn && first < s.sc.durationMs * 1000 then [first] else []
  {
    assert PendingTimes(Nothing(s).items, Sounding) == [] && Nothing(s).bus.now == 0;
    hide PendingTimes, Insert, Fresh, FreshPredictor, Period, PostAll;
    PostPending(Nothing(s), Nothing(s).bus.now + AudioPeriod(s), AudioTick, Sounding);
    var w1 := StartAudio(s, Nothing(s));
    BurstPending(s, w1, |s.bursts|, Sounding);
    var w2 := StartBursts(s, w1, |s.bursts|);
    PostPending(w2, 0, PredictorTick, Sounding);
    PostAllPending(s, w2, ScriptRequests(s.sc, |s.sc.npcs|), Sounding);
  }

  /** The audio of every run: what has been offered are the first packets, one per period, each issued at its
      time and with its deadline, and the next is pending exactly if audio is on and the scenario lasts. */
  lemma {:induction false} AudioIsRegular(s: Setup, r: seq<World>, n: nat)
    requires History(s, r) && n < |r|
    ensures AudioUpTo(s, r[n], r[n].ids.audio)
  {
    hide Initial, Step, AudioUpTo;
    if n == 0 {
      InitialAudio(s);
      AudioCount(s, r[0], 0);
    } else {
      AudioIsRegular(s, r, n - 1);
      assert StepsAt(s, r, n - 1);
      StepAudio(s, r[n - 1], r[n], r[n - 1].ids.audio);
      AudioCount(s, r[n], if IsAudio(r[n - 1]) then r[n - 1].ids.audio + 1 else r[n - 1].ids.audio);
    }
  }

  lemma AudioCount(s: Setup, w: World, m: nat)
    requires AudioUpTo(s, w, m)
    ensures w.ids.audio == m
  {
  }

  lemma SoundsBelow(s: Setup, m: nat, k: nat)
    requires !Sounds(s, m) && Sounds(s, k)
    ensures k < m
  {
    hide Period;
  }

  /** At the end of a run exactly the packets due in the scenario have been offered. */
  lemma AudioOfRun(s: Setup, r: seq<World>)
    requires History(s, r) && r[|r| - 1].items == []
    ensures var m := r[|r| - 1].ids.audio;
      && Only(Arrivals(r[|r| - 1].bus.log), Audio) == Packets(s, m)
      && forall k :: 1 <= k ==> (k <= m <==> s.audioOn && PacketAt(s, k) < s.sc.durationMs * 1000)
  {
    hide Initial, Step;
    AudioIsRegular(s, r, |r| - 1);
    var m := r[|r| - 1].ids.audio;
    assert PendingTimes([], Sounding) == [];
    assert !Sounds(s, m + 1);
    forall k | 1 <= k ensures k <= m <==> s.audioOn && PacketAt(s, k) < s.sc.durationMs * 1000 {
      if k <= m {
        assert Sounds(s, k);
      } else if Sounds(s, k) {
        SoundsBelow(s, m + 1, k);
      }
    }
  }

  // ---- Textures ----

  /** Blocks that the pending event will still offer at `t`. */
  function BlockAt(t: Time): Item -> nat {
    (it: Item) =>
      if it.ev.TextureBlock? && it.ev.at <= t < it.ev.burstEnd && (t - it.ev.at) % it.ev.period == 0 then 1 else 0
  }

  /** The burst has a block due at `t`. */
  predicate BlockDue(s: Setup, b: Burst, t: Time) {
    && b.rate > 0 && b.durationMs > 0 && b.atMs * 1000 <= t < (b.atMs + b.durationMs) * 1000
    && (t - b.atMs * 1000) % Period(s.texture.blockBytes, b.rate) == 0
  }

  /** How many of the first `n` bursts have a block due at `t`. */
  function BlocksDue(s: Setup, n: nat, t: Time): nat
    requires n <= |s.bursts|
  {
    if n == 0 then 0 else BlocksDue(s, n - 1, t) + if BlockDue(s, s.bursts[n - 1], t) then 1 else 0
  }

  /** Texture blocks accepted at `t`. */
  function BlocksAt(v: seq<Arrival>, t: Time): nat {
    if v == [] then 0
    else
      var a := v[|v| - 1];
      BlocksAt(v[..|v| - 1], t) + if a.tx.source == Texture && a.at == t then 1 else 0
  }

  lemma BlocksMore(v: seq<Arrival>, a: Arrival, t: Time)
    ensures BlocksAt(v + [a], t) == BlocksAt(v, t) + if a.tx.source == Texture && a.at == t then 1 else 0
  {
    assert (v + [a])[..|v|] == v;
  }

  /** A block at `at` is the first of those still due, and the rest are due a period later. */
  lemma BlockChain(at: Time, burstEnd: Time, period: pos, t: Time, id: nat, id': nat)
    requires at < burstEnd
    ensures BlockAt(t)(Item(at, id, TextureBlock(at, burstEnd, period))) ==
      (if t == at then 1 else 0)
      + BlockAt(t)(Item(at + period, id', TextureBlock(at + period, burstEnd, period)))
  {
    ModShift(t - at, period);
    if at < t < at + period {
      SmallMod(t - at, period);
    }
  }

  lemma ModShift(x: int, p: pos)
    ensures (x - p) % p == x % p
  {
    var q := x / p;
    assert x - p == p * (q - 1) + x % p;
    assert (x - p) / p == q - 1 by {
      assert 0 <= x % p < p;
      DivUnique(x - p, p, q - 1, x % p);
    }
  }

  lemma DivUnique(x: int, p: pos, q: int, r: int)
    requires x == p * q + r && 0 <= r < p
    ensures x / p == q && x % p == r
  {
    var d := x / p - q;
    assert p * d == r - x % p;
  }

  lemma SmallMod(x: int, p: pos)
    requires 0 < x < p
    ensures x % p != 0
  {
  }

  lemma PostBlocks(w: World, when: Time, ev: Event, t: Time)
    ensures SumItems(Post(w, when, ev).items, BlockAt(t)) ==
      SumItems(w.items, BlockAt(t)) + BlockAt(t)(Item(when, w.next, ev))
  {
    SumInsert(w.items, Item(when, w.next, ev), BlockAt(t));
  }

  lemma InstallBlocks(w: World, bus: Bus, t: Time)
    ensures SumItems(Install(w, bus).items, BlockAt(t)) == SumItems(w.items, BlockAt(t))
  {
    if bus.slot.Some? {
      PostBlocks(w.(bus := bus), bus.slot.value.fireAt, QuantumDone(bus.slot.value.p), t);
    }
  }

  lemma SubmitBlocks(w: World, tx: Txn, t: Time)
    ensures SumItems(Submit(w, tx).items, BlockAt(t)) == SumItems(w.items, BlockAt(t))
  {
    hide Install, Accept;
    InstallBlocks(w, Accept(w.bus, tx), t);
  }

  lemma {:induction false} PostAllBlocks(s: Setup, w: World, rs: seq<Request>, t: Time)
    ensures SumItems(PostAll(s, w, rs).items, BlockAt(t)) == SumItems(w.items, BlockAt(t))
  {
    hide SumItems, Insert, Encode;
    if rs != [] {
      var init, r := rs[..|rs| - 1], rs[|rs| - 1];
      PostAllBlocks(s, w, init, t);
      PostBlocks(PostAll(s, w, init), w.bus.now, WeightIssue(r.npc, Encode(s.cfg.lodSizes, r.lod)), t);
    }
  }

  lemma OnAudioBlocks(s: Setup, w: World, t: Time)
    ensures SumItems(OnAudio(s, w).items, BlockAt(t)) == SumItems(w.items, BlockAt(t))
  {
    hide SumItems, Submit, Insert, AudioPeriod;
    var w1 := w.(ids := w.ids.(audio := w.ids.audio + 1));
    SubmitBlocks(w1, AudioTxn(s, w), t);
    var w2 := Submit(w1, AudioTxn(s, w));
    PostBlocks(w2, w2.bus.now + AudioPeriod(s), AudioTick, t);
  }

  lemma OnTextureBlocks(s: Setup, w: World, at: Time, burstEnd: Time, period: pos, t: Time)
    requires at < burstEnd
    ensures SumItems(OnTexture(s, w, at, burstEnd, period).items, BlockAt(t)) + (if t == at then 1 else 0) ==
      SumItems(w.items, BlockAt(t)) + BlockAt(t)(Item(at, 0, TextureBlock(at, burstEnd, period)))
  {
    hide SumItems, Submit, Insert;
    var w1 := w.(ids := w.ids.(texture := w.ids.texture + 1));
    SubmitBlocks(w1, TextureTxn(s, w), t);
    var w2 := Submit(w1, TextureTxn(s, w));
    PostBlocks(w2, at + period, TextureBlock(at + period, burstEnd, period), t);
    BlockChain(at, burstEnd, period, t, 0, w2.next);
  }

  lemma OnTickBlocks(s: Setup, w: World, t: Time)
    ensures SumItems(OnTick(s, w).items, BlockAt(t)) == SumItems(w.items, BlockAt(t))
  {
    hide SumItems, Tick, Insert, PostAll;
    var (p, rs) := Tick(s, w.pred, w.bus.now);
    PostAllBlocks(s, w.(pred := p), rs, t);
    var w2 := PostAll(s, w.(pred := p), rs);
    PostBlocks(w2, w2.bus.now + s.tickUs, PredictorTick, t);
  }

  predicate IsBlock(w: World, t: Time) {
    w.items != [] && w.items[0].ev.TextureBlock? && w.items[0].when == t
  }

  lemma PulledBlocks(w: World, t: Time)
    requires w.items != []
    ensures SumItems(w.items, BlockAt(t)) == BlockAt(t)(w.items[0]) + SumItems(Pull(w).items, BlockAt(t))
  {
  }

  lemma BlockAtIs(it: Item, t: Time)
    ensures it.ev.TextureBlock? ==>
      BlockAt(t)(it) == BlockAt(t)(Item(it.ev.at, 0, TextureBlock(it.ev.at, it.ev.burstEnd, it.ev.period)))
    ensures !it.ev.TextureBlock? ==> BlockAt(t)(it) == 0
  {
  }

  lemma StepPending(s: Setup, w: World, w': World, t: Time)
    requires WorldInv(s, w) && Step(s, w, w')
    ensures SumItems(w'.items, BlockAt(t)) + (if IsBlock(w, t) then 1 else 0) == SumItems(w.items, BlockAt(t))
  {
    hide WorldInv, IsSize, SumItems, BlockAt, OnAudio, OnTexture, OnWeight, Install, OnTick, Noted, QuantumEnd;
    hide KnownLevels;
    var w1 := Pull(w);
    FirstEvent(s, w);
    PulledBlocks(w, t);
    BlockAtIs(w.items[0], t);
    match w.items[0].ev
    case AudioTick => OnAudioBlocks(s, w1, t);
    case TextureBlock(at, burstEnd, period) => OnTextureBlocks(s, w1, at, burstEnd, period, t);
    case WeightIssue(npc, size) => OnWeightBlocks(s, w1, npc, size, t);
    case PredictorTick => OnTickBlocks(s, w1, t);
    case QuantumDone(_) => InstallBlocks(w1, QuantumEnd(w1.bus), t);
  }

  lemma OnWeightBlocks(s: Setup, w: World, npc: nat, size: nat, t: Time)
    ensures SumItems(OnWeight(s, w, npc, size).items, BlockAt(t)) == SumItems(w.items, BlockAt(t))
  {
    hide SumItems, Submit;
    SubmitBlocks(w.(ids := w.ids.(weight := w.ids.weight + 1)), WeightTxn(s, w, npc, size), t);
  }

  lemma StepAccepted(s: Setup, w: World, w': World, t: Time)
    requires Step(s, w, w')
    ensures BlocksAt(Arrivals(w'.bus.log), t) == BlocksAt(Arrivals(w.bus.log), t) + if IsBlock(w, t) then 1 else 0
  {
    StepArrives(s, w, w');
    hide Step, BlocksAt, Arrivals;
    var v := Arrivals(w.bus.log);
    if Offered(s, w) != [] {
      BlocksMore(v, Arrival(Offered(s, w)[0], w.items[0].when), t);
    } else {
      assert v + [] == v;
    }
  }

  lemma StepBlocks(s: Setup, w: World, w': World, t: Time)
    requires WorldInv(s, w) && Step(s, w, w')
    ensures SumItems(w'.items, BlockAt(t)) + BlocksAt(Arrivals(w'.bus.log), t) ==
      SumItems(w.items, BlockAt(t)) + BlocksAt(Arrivals(w.bus.log), t)
  {
    hide WorldInv, Step, SumItems, BlocksAt, Arrivals;
    StepPending(s, w, w', t);
    StepAccepted(s, w, w', t);
  }

  lemma {:induction false} BurstBlocks(s: Setup, w: World, n: nat, t: Time)
    requires n <= |s.bursts|
    ensures SumItems(StartBursts(s, w, n).items, BlockAt(t)) == SumItems(w.items, BlockAt(t)) + BlocksDue(s, n, t)
  {
    hide SumItems, Insert, Period;
    if n > 0 {
      BurstBlocks(s, w, n - 1, t);
      var b := s.bursts[n - 1];
      if b.rate > 0 && b.durationMs > 0 {
        var at, burstEnd := b.atMs * 1000, b.atMs * 1000 + b.durationMs * 1000;
        var ev := TextureBlock(at, burstEnd, Period(s.texture.blockBytes, b.rate));
        PostBlocks(StartBursts(s, w, n - 1), at, ev, t);
      }
    }
  }

  lemma InitialBlocks(s: Setup, t: Time)
    ensures SumItems(Initial(s).items, BlockAt(t)) == BlocksDue(s, |s.bursts|, t)
  {
    assert SumItems(Nothing(s).items, BlockAt(t)) == 0;
    hide SumItems, Insert, Fresh, FreshPredictor, Period, PostAll;
    PostBlocks(Nothing(s), Nothing(s).bus.now + AudioPeriod(s), AudioTick, t);
    var w1 := StartAudio(s, Nothing(s));
    BurstBlocks(s, w1, |s.bursts|, t);
    var w2 := StartBursts(s, w1, |s.bursts|);
    PostBlocks(w2, 0, PredictorTick, t);
    PostAllBlocks(s, w2, ScriptRequests(s.sc, |s.sc.npcs|), t);
  }

  /** Texture blocks in every state of every run: those accepted at any time and those still to come at it are
      the blocks of the bursts due then. */
  lemma {:induction false} BlocksConserved(s: Setup, r: seq<World>, n: nat, t: Time)
    requires WellPosed(s) && History(s, r) && n < |r|
    ensures SumItems(r[n].items, BlockAt(t)) + BlocksAt(Arrivals(r[n].bus.log), t) == BlocksDue(s, |s.bursts|, t)
  {
    hide Initial, Step, WorldInv, WellPosed, SumItems, BlocksDue, BlocksAt;
    if n == 0 {
      InitialBlocks(s, t);
      InitialArrivals(s);
      assert BlocksAt([], t) == 0 by { NoBlocks(t); }
    } else {
      BlocksConserved(s, r, n - 1, t);
      HistoryInv(s, r, n - 1);
      assert StepsAt(s, r, n - 1);
      StepBlocks(s, r[n - 1], r[n], t);
    }
  }

  lemma NoBlocks(t: Time)
    ensures BlocksAt([], t) == 0 && SumItems([], BlockAt(t)) == 0
  {
  }

  /** At the end of a run there has been, at each time, one block for each burst that has one due then. */
  lemma BlocksOfRun(s: Setup, r: seq<World>, t: Time)
    requires WellPosed(s) && History(s, r) && r[|r| - 1].items == []
    ensures BlocksAt(Arrivals(r[|r| - 1].bus.log), t) == BlocksDue(s, |s.bursts|, t)
  {
    BlocksConserved(s, r, |r| - 1, t);
    NoBlocks(t);
    hide History, WellPosed;
  }

  // ---- Weights ----

  /** The pending issue of the weights of `npc` of that size, at `t`. */
  function IssueAt(npc: nat, size: nat, t: Time): Item -> nat {
    (it: Item) => if it.ev.WeightIssue? && it.ev.npc == npc && it.ev.size == size && it.when == t then 1 else 0
  }

  /** Transfers of the weights of `npc` of that size accepted at `t`. */
  function TransfersAt(v: seq<Arrival>, npc: nat, size: nat, t: Time): nat {
    if v == [] then 0
    else
      var a := v[|v| - 1];
      TransfersAt(v[..|v| - 1], npc, size, t)
      + if a.tx.source == Weight && a.tx.inst == npc && a.tx.size == size && a.at == t then 1 else 0
  }

  lemma TransfersMore(v: seq<Arrival>, a: Arrival, npc: nat, size: nat, t: Time)
    ensures TransfersAt(v + [a], npc, size, t) == TransfersAt(v, npc, size, t) +
      if a.tx.source == Weight && a.tx.inst == npc && a.tx.size == size && a.at == t then 1 else 0
  {
    assert (v + [a])[..|v|] == v;
  }

  /** How often the NPC is listed among the first `n`. */
  function Listed(sc: Scene, n: nat, npc: nat): nat
    requires n <= |sc.npcs|
  {
    if n == 0 then 0 else Listed(sc, n - 1, npc) + if sc.npcs[n - 1].id == npc then 1 else 0
  }

  /** The script asks for the finest weights of each listed NPC. */
  lemma {:induction false} ScriptAsks(sc: Scene, n: nat, npc: nat, lod: int)
    requires n <= |sc.npcs|
    ensures Fetches(ScriptRequests(sc, n), npc, lod) == if lod == 0 then Listed(sc, n, npc) else 0
  {
    if n > 0 {
      ScriptAsks(sc, n - 1, npc, lod);
      var rs := ScriptRequests(sc, n - 1);
      assert (rs + [Request(sc.npcs[n - 1].id, 0)])[..|rs|] == rs;
    }
  }

  /** Fetches of the weights of (npc, lod) that the firings before `n` asked for at `t`, and the script at zero. */
  function AskedAt(s: Setup, r: seq<World>, n: nat, npc: nat, lod: int, t: Time): nat
    requires n <= |r|
  {
    if n == 0 then if s.kind.Scripted? && t == 0 && lod == 0 then Listed(s.sc, |s.sc.npcs|, npc) else 0
    else
      AskedAt(s, r, n - 1, npc, lod, t)
      + if IsTick(r[n - 1]) && r[n - 1].items[0].when == t then
          Fetches(Tick(s, r[n - 1].pred, t).1, npc, lod)
        else 0
  }

  lemma PostIssues(w: World, when: Time, ev: Event, npc: nat, size: nat, t: Time)
    ensures SumItems(Post(w, when, ev).items, IssueAt(npc, size, t)) ==
      SumItems(w.items, IssueAt(npc, size, t)) + IssueAt(npc, size, t)(Item(when, w.next, ev))
  {
    SumInsert(w.items, Item(when, w.next, ev), IssueAt(npc, size, t));
  }

  lemma InstallIssues(w: World, bus: Bus, npc: nat, size: nat, t: Time)
    ensures SumItems(Install(w, bus).items, IssueAt(npc, size, t)) == SumItems(w.items, IssueAt(npc, size, t))
  {
    if bus.slot.Some? {
      PostIssues(w.(bus := bus), bus.slot.value.fireAt, QuantumDone(bus.slot.value.p), npc, size, t);
    }
  }

  lemma SubmitIssues(w: World, tx: Txn, npc: nat, size: nat, t: Time)
    ensures SumItems(Submit(w, tx).items, IssueAt(npc, size, t)) == SumItems(w.items, IssueAt(npc, size, t))
  {
    hide Install, Accept;
    InstallIssues(w, Accept(w.bus, tx), npc, size, t);
  }

  lemma {:induction false} PostAllIssues(s: Setup, w: World, rs: seq<Request>, npc: nat, lod: int, t: Time)
    requires Distinguishable(s.cfg.lodSizes) && IsLod(lod) && AllLevels(rs)
    ensures var f := IssueAt(npc, Encode(s.cfg.lodSizes, lod), t);
      SumItems(PostAll(s, w, rs).items, f) == SumItems(w.items, f) + if w.bus.now == t then Fetches(rs, npc, lod) else 0
  {
    if rs != [] {
      var init, r := rs[..|rs| - 1], rs[|rs| - 1];
      PostAllIssues(s, w, init, npc, lod, t);
      hide SumItems, Encode, Distinguishable;
      EncodeInjective(s.cfg.lodSizes, r.lod, lod);
      PostIssues(PostAll(s, w, init), w.bus.now, WeightIssue(r.npc, Encode(s.cfg.lodSizes, r.lod)),
                 npc, Encode(s.cfg.lodSizes, lod), t);
      PostAllBus(s, w, init);
    }
  }

  lemma OnAudioIssues(s: Setup, w: World, npc: nat, size: nat, t: Time)
    ensures SumItems(OnAudio(s, w).items, IssueAt(npc, size, t)) == SumItems(w.items, IssueAt(npc, size, t))
  {
    hide SumItems, Submit, Insert, AudioPeriod;
    var w1 := w.(ids := w.ids.(audio := w.ids.audio + 1));
    SubmitIssues(w1, AudioTxn(s, w), npc, size, t);
    var w2 := Submit(w1, AudioTxn(s, w));
    PostIssues(w2, w2.bus.now + AudioPeriod(s), AudioTick, npc, size, t);
  }

  lemma OnTextureIssues(s: Setup, w: World, at: Time, burstEnd: Time, period: pos, npc: nat, size: nat, t: Time)
    ensures SumItems(OnTexture(s, w, at, burstEnd, period).items, IssueAt(npc, size, t)) ==
      SumItems(w.items, IssueAt(npc, size, t))
  {
    hide SumItems, Submit, Insert;
    var w1 := w.(ids := w.ids.(texture := w.ids.texture + 1));
    SubmitIssues(w1, TextureTxn(s, w), npc, size, t);
    PostIssues(Submit(w1, TextureTxn(s, w)), at + period, TextureBlock(at + period, burstEnd, period), npc, size, t);
  }

  lemma OnWeightIssues(s: Setup, w: World, n: nat, z: nat, npc: nat, size: nat, t: Time)
    ensures SumItems(OnWeight(s, w, n, z).items, IssueAt(npc, size, t)) == SumItems(w.items, IssueAt(npc, size, t))
  {
    hide SumItems, Submit;
    SubmitIssues(w.(ids := w.ids.(weight := w.ids.weight + 1)), WeightTxn(s, w, n, z), npc, size, t);
  }

  lemma OnTickIssues(s: Setup, w: World, npc: nat, lod: int, t: Time)
    requires Distinguishable(s.cfg.lodSizes) && IsLod(lod) && KnownLevels(s, w)
    ensures var f := IssueAt(npc, Encode(s.cfg.lodSizes, lod), t);
      SumItems(OnTick(s, w).items, f) ==
      SumItems(w.items, f) + if w.bus.now == t then Fetches(Tick(s, w.pred, w.bus.now).1, npc, lod) else 0
  {
    hide SumItems, Tick, Insert, PostAll, Encode, Distinguishable, AllLevels;
    var (p, rs) := Tick(s, w.pred, w.bus.now);
    PostAllIssues(s, w.(pred := p), rs, npc, lod, t);
    var w2 := PostAll(s, w.(pred := p), rs);
    PostIssues(w2, w2.bus.now + s.tickUs, PredictorTick, npc, Encode(s.cfg.lodSizes, lod), t);
  }

  predicate IsIssue(w: World, npc: nat, size: nat, t: Time) {
    w.items != [] && IssueAt(npc, size, t)(w.items[0]) == 1
  }

  lemma PulledIssues(w: World, npc: nat, size: nat, t: Time)
    requires w.items != []
    ensures SumItems(w.items, IssueAt(npc, size, t)) ==
      SumItems(Pull(w).items, IssueAt(npc, size, t)) + if IsIssue(w, npc, size, t) then 1 else 0
  {
  }

  lemma StepIssues(s: Setup, w: World, w': World, npc: nat, lod: int, t: Time)
    requires Distinguishable(s.cfg.lodSizes) && IsLod(lod) && Step(s, w, w')
    ensures var size := Encode(s.cfg.lodSizes, lod);
      SumItems(w'.items, IssueAt(npc, size, t)) + (if IsIssue(w, npc, size, t) then 1 else 0) ==
      SumItems(w.items, IssueAt(npc, size, t))
      + if IsTick(w) && w.items[0].when == t then Fetches(Tick(s, w.pred, t).1, npc, lod) else 0
  {
    var w1, size := Pull(w), Encode(s.cfg.lodSizes, lod);
    PulledIssues(w, npc, size, t);
    hide SumItems, OnAudio, OnTexture, OnWeight, Install, OnTick, Noted, QuantumEnd, KnownLevels, Tick, Encode;
    hide Distinguishable;
    match w.items[0].ev
    case AudioTick => OnAudioIssues(s, w1, npc, size, t);
    case TextureBlock(at, burstEnd, period) => OnTextureIssues(s, w1, at, burstEnd, period, npc, size, t);
    case WeightIssue(n, z) => OnWeightIssues(s, w1, n, z, npc, size, t);
    case PredictorTick => OnTickIssues(s, w1, npc, lod, t);
    case QuantumDone(_) => InstallIssues(w1, QuantumEnd(w1.bus), npc, size, t);
  }

  lemma StepTransfers(s: Setup, w: World, w': World, npc: nat, size: nat, t: Time)
    requires Step(s, w, w')
    ensures TransfersAt(Arrivals(w'.bus.log), npc, size, t) ==
      TransfersAt(Arrivals(w.bus.log), npc, size, t) + if IsIssue(w, npc, size, t) then 1 else 0
  {
    StepArrives(s, w, w');
    hide Step, TransfersAt, Arrivals;
    var v := Arrivals(w.bus.log);
    if Offered(s, w) != [] {
      TransfersMore(v, Arrival(Offered(s, w)[0], w.items[0].when), npc, size, t);
    } else {
      assert v + [] == v;
    }
  }

  lemma {:induction false} BurstIssues(s: Setup, w: World, n: nat, npc: nat, size: nat, t: Time)
    requires n <= |s.bursts|
    ensures SumItems(StartBursts(s, w, n).items, IssueAt(npc, size, t)) == SumItems(w.items, IssueAt(npc, size, t))
  {
    hide SumItems, Insert, Period;
    if n > 0 {
      BurstIssues(s, w, n - 1, npc, size, t);
      var b := s.bursts[n - 1];
      if b.rate > 0 && b.durationMs > 0 {
        var at, burstEnd := b.atMs * 1000, b.atMs * 1000 + b.durationMs * 1000;
        var ev := TextureBlock(at, burstEnd, Period(s.texture.blockBytes, b.rate));
        PostIssues(StartBursts(s, w, n - 1), at, ev, npc, size, t);
      }
    }
  }

  lemma InitialIssues(s: Setup, npc: nat, lod: int, t: Time)
    requires Distinguishable(s.cfg.lodSizes) && IsLod(lod)
    ensures SumItems(Initial(s).items, IssueAt(npc, Encode(s.cfg.lodSizes, lod), t)) ==
      if s.kind.Scripted? && t == 0 && lod == 0 then Listed(s.sc, |s.sc.npcs|, npc) else 0
  {
    var size := Encode(s.cfg.lodSizes, lod);
    assert SumItems(Nothing(s).items, IssueAt(npc, size, t)) == 0;
    StartKeepsBus(s, StartAudio(s, Nothing(s)), |s.bursts|);
    assert Nothing(s).bus.now == 0;
    hide SumItems, Insert, Fresh, FreshPredictor, Period, PostAll, Encode, Distinguishable, ScriptRequests;
    PostIssues(Nothing(s), Nothing(s).bus.now + AudioPeriod(s), AudioTick, npc, size, t);
    var w1 := StartAudio(s, Nothing(s));
    BurstIssues(s, w1, |s.bursts|, npc, size, t);
    var w2 := StartBursts(s, w1, |s.bursts|);
    PostIssues(w2, 0, PredictorTick, npc, size, t);
    ScriptLevels(s.sc, |s.sc.npcs|);
    ScriptAsks(s.sc, |s.sc.npcs|, npc, lod);
    PostAllIssues(s, w2, ScriptRequests(s.sc, |s.sc.npcs|), npc, lod, t);
  }

  /** Weights in every state of every run: each fetch that was asked for at any time has become one transfer
      accepted at that time, or is about to. */
  lemma {:induction false} FetchesConserved(s: Setup, r: seq<World>, n: nat, npc: nat, lod: int, t: Time)
    requires Distinguishable(s.cfg.lodSizes) && IsLod(lod) && History(s, r) && n < |r|
    ensures var size := Encode(s.cfg.lodSizes, lod);
      SumItems(r[n].items, IssueAt(npc, size, t)) + TransfersAt(Arrivals(r[n].bus.log), npc, size, t)
      == AskedAt(s, r, n, npc, lod, t)
  {
    hide Initial, Step, SumItems, TransfersAt, Distinguishable, Encode, Tick, ScriptRequests;
    var size := Encode(s.cfg.lodSizes, lod);
    if n == 0 {
      InitialIssues(s, npc, lod, t);
      InitialArrivals(s);
      NoTransfers(npc, size, t);
    } else {
      FetchesConserved(s, r, n - 1, npc, lod, t);
      assert StepsAt(s, r, n - 1);
      StepIssues(s, r[n - 1], r[n], npc, lod, t);
      StepTransfers(s, r[n - 1], r[n], npc, size, t);
    }
  }

  lemma NoTransfers(npc: nat, size: nat, t: Time)
    ensures TransfersAt([], npc, size, t) == 0 && SumItems([], IssueAt(npc, size, t)) == 0
  {
  }

  /** At the end of a run each fetch has become one transfer, accepted at the time of the tick that asked, or at
      zero for the scripted predictor, with the configured bytes of its level. */
  lemma FetchesOfRun(s: Setup, r: seq<World>, npc: nat, lod: int, t: Time)
    requires Distinguishable(s.cfg.lodSizes) && IsLod(lod) && History(s, r) && r[|r| - 1].items == []
    ensures TransfersAt(Arrivals(r[|r| - 1].bus.log), npc, (SizeMb(s.cfg.lodSizes, lod) % 4096) * MB, t) ==
      AskedAt(s, r, |r| - 1, npc, lod, t)
  {
    FetchesConserved(s, r, |r| - 1, npc, lod, t);
    EncodedMegabytes(s.cfg.lodSizes, lod);
    NoTransfers(npc, Encode(s.cfg.lodSizes, lod), t);
    hide History, Encode, Distinguishable, TransfersAt;
  }
}
