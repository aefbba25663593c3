/** What every step of the whole simulation keeps. */
module SimulationSafety {
  import opened Base
  import opened Configuration
  import opened Scheduling
  import opened Runs
  import opened Slicing
  import opened Operations
  import opened LaneSums
  import opened Events
  import opened EventQueues
  import opened LodSelection
  import opened Prefetching
  import opened SlotSafety
  import opened Simulation

  // ---- Sums over pending events ----

  function SumItems(items: seq<Item>, f: Item -> nat): nat {
    if items == [] then 0 else f(items[0]) + SumItems(items[1..], f)
  }

  lemma {:induction false} SumInsert(items: seq<Item>, it: Item, f: Item -> nat)
    ensures SumItems(Insert(items, it), f) == SumItems(items, f) + f(it)
  {
    if items == [] || Earlier(it, items[0]) {
      assert ([it] + items)[1..] == items;
    } else {
      assert Insert(items, it)[1..] == Insert(items[1..], it);
      SumInsert(items[1..], it, f);
    }
  }

  lemma {:induction false} SumPositive(items: seq<Item>, f: Item -> nat) returns (it: Item)
    requires SumItems(items, f) > 0
    ensures it in items && f(it) > 0
  {
    if f(items[0]) > 0 {
      it := items[0];
    } else {
      it := SumPositive(items[1..], f);
    }
  }

  lemma {:induction false} SumMember(items: seq<Item>, it: Item, f: Item -> nat)
    requires it in items
    ensures SumItems(items, f) >= f(it)
  {
    if it != items[0] {
      SumMember(items[1..], it, f);
    }
  }

  // ---- Handlers take no simulated time ----

  lemma SubmitTime(w: World, tx: Txn)
    ensures Submit(w, tx).bus.now == w.bus.now && Submit(w, tx).bus.cfg == w.bus.cfg
  {
    StartTime(Admit(w.bus, tx));
  }

  lemma {:induction false} PostAllBus(s: Setup, w: World, rs: seq<Request>)
    ensures PostAll(s, w, rs).bus == w.bus
  {
    if rs != [] {
      PostAllBus(s, w, rs[..|rs| - 1]);
    }
  }

  // ---- Only ticks and arriving weights reach the predictor ----

  lemma InstallKeepsPred(w: World, bus: Bus)
    ensures Install(w, bus).pred == w.pred
  {
  }

  lemma AudioKeepsPred(s: Setup, w: World)
    ensures OnAudio(s, w).pred == w.pred
  {
    hide Insert, Accept;
  }

  lemma TextureKeepsPred(s: Setup, w: World, at: Time, burstEnd: Time, period: pos)
    ensures OnTexture(s, w, at, burstEnd, period).pred == w.pred
  {
    hide Insert, Accept;
  }

  lemma WeightKeepsPred(s: Setup, w: World, npc: nat, size: nat)
    ensures OnWeight(s, w, npc, size).pred == w.pred
  {
    hide Insert, Accept;
  }

  /** What a step makes of the predictor. */
  lemma StepPred(s: Setup, w: World, w': World)
    requires Step(s, w, w')
    ensures match w.items[0].ev
      case PredictorTick => KnownLevels(s, Pull(w)) && w'.pred == Tick(s, w.pred, w.items[0].when).0
      case QuantumDone(_) =>
        var b := Pull(w).bus;
        && b.slot.Some?
        && var tx := b.slot.value.p.tx;
           if DeliversWeights(b) then Noted(s, w.pred, tx.inst, Decode(s.cfg.lodSizes, tx.size), b.now, w'.pred)
           else w'.pred == w.pred
      case _ => w'.pred == w.pred
  {
    var w1 := Pull(w);
    hide OnAudio, OnTexture, OnWeight, Tick, PostAll, Insert, Noted, QuantumEnd;
    match w.items[0].ev
    case AudioTick => AudioKeepsPred(s, w1);
    case TextureBlock(at, burstEnd, period) => TextureKeepsPred(s, w1, at, burstEnd, period);
    case WeightIssue(npc, size) => WeightKeepsPred(s, w1, npc, size);
    case PredictorTick =>
      var (p, rs) := Tick(s, w1.pred, w1.bus.now);
      PostAllPred(s, w1.(pred := p), rs);
    case QuantumDone(_) =>
  }

  lemma {:induction false} PostAllPred(s: Setup, w: World, rs: seq<Request>)
    ensures PostAll(s, w, rs).pred == w.pred
  {
    if rs != [] {
      PostAllPred(s, w, rs[..|rs| - 1]);
    }
  }

  lemma {:induction false} PostAllIds(s: Setup, w: World, rs: seq<Request>)
    ensures PostAll(s, w, rs).ids == w.ids
  {
    if rs != [] {
      PostAllIds(s, w, rs[..|rs| - 1]);
    }
  }

  lemma TickKeepsRest(s: Setup, w: World)
    ensures OnTick(s, w).bus == w.bus && OnTick(s, w).ids == w.ids
  {
    hide Tick, PostAll, Insert;
    var (p, rs) := Tick(s, w.pred, w.bus.now);
    PostAllBus(s, w.(pred := p), rs);
    PostAllIds(s, w.(pred := p), rs);
  }

  // ---- Hypotheses on the set-up ----

  /** Every band names a level that has weights. */
  predicate Levels(s: Setup) {
    s.kind.ByDistance? ==> forall b :: b in s.kind.bands ==> IsLod(b.lod)
  }

  /** No burst starts before time zero. */
  predicate WellPosed(s: Setup) {
    forall b :: b in s.bursts && b.rate > 0 && b.durationMs > 0 ==> b.atMs >= 0
  }

  // ---- The invariant ----

  ghost predicate IsSize(s: Setup, size: nat) {
    exists lod :: IsLod(lod) && size == Encode(s.cfg.lodSizes, lod)
  }

  predicate IsQuantum(ev: Event) {
    ev.QuantumDone?
  }

  function QuantumOf(it: Item): nat {
    if IsQuantum(it.ev) then 1 else 0
  }

  /** An event lies ahead and carries what its handler relies on. */
  ghost predicate EventOk(s: Setup, b: Bus, it: Item) {
    match it.ev
    case AudioTick => b.now <= it.when < StopAt(s)
    case TextureBlock(at, burstEnd, _) => b.now <= at == it.when < burstEnd
    case WeightIssue(_, size) => b.now <= it.when && IsSize(s, size)
    case PredictorTick => b.now <= it.when && !s.kind.Scripted?
    case QuantumDone(p) => b.now <= it.when && b.slot.Some? && b.slot.value.p == p && b.slot.value.fireAt == it.when
  }

  ghost predicate QueueOk(s: Setup, w: World) {
    Good(Eager(w.items, w.next)) && forall it :: it in w.items ==> EventOk(s, w.bus, it)
  }

  /** Only audio has a deadline, and weights have the size of a level and the class that is set up. */
  ghost predicate TxnOk(s: Setup, tx: Txn) {
    (tx.source != Audio ==> tx.deadline == 0) && (tx.source == Weight ==> IsSize(s, tx.size) && tx.qos == s.weightQos)
  }

  /** Counts transactions that break that rule. */
  ghost function Stray(s: Setup): Pending -> nat {
    (p: Pending) => if TxnOk(s, p.tx) then 0 else 1
  }

  ghost predicate BusOk(s: Setup, b: Bus) {
    && Reachable(b) && Settled(b) && b.cfg == s.cfg && SystemSum(b, Stray(s)) == 0
    && b.kpi.dropped == b.kpi.audioDropped
  }

  ghost predicate PredictorOk(s: Setup, p: Predictor, now: Time) {
    match (s.kind, p)
    case (Scripted, Script) => true
    case (ByDistance(_, _), Distances(_)) => true
    case (ByIntent(_, _, _), Intents(i)) => IntentInv(s.sc, i, now / 1000)
    case (_, _) => false
  }

  function QuantaPending(items: seq<Item>): nat {
    SumItems(items, QuantumOf)
  }

  ghost predicate Healthy(s: Setup, w: World) {
    QueueOk(s, w) && BusOk(s, w.bus) && PredictorOk(s, w.pred, w.bus.now)
  }

  /** One quantum end is pending on a busy bus, and none on an idle one. */
  ghost predicate WorldInv(s: Setup, w: World) {
    match w.bus.slot
    case None => Healthy(s, w) && QuantaPending(w.items) == 0
    case Some(_) => Healthy(s, w) && QuantaPending(w.items) == 1
  }

  // ---- Posting events ----

  lemma PostQueue(s: Setup, w: World, when: Time, ev: Event)
    requires QueueOk(s, w) && EventOk(s, w.bus, Item(when, w.next, ev))
    ensures QueueOk(s, Post(w, when, ev))
    ensures forall f :: SumItems(Post(w, when, ev).items, f) == SumItems(w.items, f) + f(Item(when, w.next, ev))
  {
    var it := Item(when, w.next, ev);
    ApplyGood(Eager(w.items, w.next), Push(when, ev));
    forall f ensures SumItems(Insert(w.items, it), f) == SumItems(w.items, f) + f(it) {
      SumInsert(w.items, it, f);
    }
  }

  /** Posting anything but a quantum end keeps the invariant. */
  lemma PostInv(s: Setup, w: World, when: Time, ev: Event)
    requires WorldInv(s, w) && EventOk(s, w.bus, Item(when, w.next, ev)) && !ev.QuantumDone?
    ensures WorldInv(s, Post(w, when, ev))
  {
    PostQueue(s, w, when, ev);
  }

  lemma EventOkKept(s: Setup, b: Bus, b': Bus, it: Item)
    requires EventOk(s, b, it) && b'.now == b.now && (b'.slot == b.slot || !it.ev.QuantumDone?)
    ensures EventOk(s, b', it)
  {
  }

  /** The fired item has been taken off: no quantum end is pending. */
  ghost predicate NoQuantum(w: World) {
    forall it :: it in w.items ==> !it.ev.QuantumDone?
  }

  lemma ExclusiveIdle(w: World)
    requires QuantaPending(w.items) == 0
    ensures NoQuantum(w)
  {
    forall it | it in w.items ensures !it.ev.QuantumDone? {
      SumMember(w.items, it, QuantumOf);
    }
  }

  /** Installing a bus state after the previous quantum is over, or while the bus was idle. */
  lemma InstallInv(s: Setup, w: World, bus: Bus)
    requires Good(Eager(w.items, w.next)) && QuantaPending(w.items) == 0
    requires forall it :: it in w.items && !it.ev.QuantumDone? ==> EventOk(s, w.bus, it)
    requires bus.now == w.bus.now && BusOk(s, bus) && PredictorOk(s, w.pred, w.bus.now) && SlotTimes(bus)
    ensures WorldInv(s, Install(w, bus))
  {
    ExclusiveIdle(w);
    var w1 := w.(bus := bus);
    forall it | it in w1.items ensures EventOk(s, bus, it) {
      EventOkKept(s, w.bus, bus, it);
    }
    if bus.slot.Some? {
      PostQueue(s, w1, bus.slot.value.fireAt, QuantumDone(bus.slot.value.p));
    }
  }

  // ---- Transactions ----

  function BulkDrops(k: Kpi): int {
    k.dropped - k.audioDropped
  }

  /** Nothing but audio is ever dropped. */
  lemma {:induction false} ExpiredAreAudio(s: Setup, b: Bus)
    requires b.slot.None? && SystemSum(b, Stray(s)) == 0
    ensures BulkDrops(DropExpired(b).kpi) == BulkDrops(b.kpi)
    decreases |Queue(b.d, GuardedLane(b.d))|
  {
    if HeadExpired(b) {
      DropSum(b, Stray(s));
      hide SystemSum;
      assert Stray(s)(Queue(b.d, GuardedLane(b.d))[0]) == 0;
      ExpiredAreAudio(s, DropHead(b));
    }
  }

  lemma StartDropsAudio(s: Setup, b: Bus)
    requires SystemSum(b, Stray(s)) == 0
    ensures BulkDrops(StartIfIdle(b).kpi) == BulkDrops(b.kpi)
  {
    if b.slot.None? {
      RefillSum(b, Stray(s));
      hide SystemSum, Stray;
      ExpiredAreAudio(s, Do(b, Refill));
    }
  }

  lemma RetireDropsAudio(s: Setup, b: Bus)
    requires b.slot.Some? && SystemSum(b, Stray(s)) == 0
    ensures BulkDrops(Retire(b).kpi) == BulkDrops(b.kpi)
  {
    assert Stray(s)(b.slot.value.p) == 0;
    hide SystemSum;
  }

  lemma AcceptOk(s: Setup, b: Bus, tx: Txn)
    requires BusOk(s, b) && tx.issuedAt <= b.now
    requires TxnOk(s, tx)
    ensures BusOk(s, Accept(b, tx)) && Accept(b, tx).now == b.now
  {
    AcceptRuns(b, tx);
    OperationsSettle(b, tx);
    AdmitSum(b, tx, Stray(s));
    StartSum(Admit(b, tx), Stray(s));
    StartDropsAudio(s, Admit(b, tx));
  }

  lemma QuantumEndOk(s: Setup, b: Bus)
    requires b.slot.Some? && b.slot.value.fireAt == b.now && BusOk(s, b)
    ensures BusOk(s, QuantumEnd(b)) && QuantumEnd(b).now == b.now
  {
    QuantumEndRuns(b);
    OperationsSettle(b, b.slot.value.p.tx);
    RetireSum(b, Stray(s));
    StartSum(Retire(b), Stray(s));
    RetireDropsAudio(s, b);
    StartDropsAudio(s, Retire(b));
  }

  lemma SubmitInv(s: Setup, w: World, tx: Txn)
    requires WorldInv(s, w) && tx.issuedAt <= w.bus.now
    requires TxnOk(s, tx)
    ensures WorldInv(s, Submit(w, tx)) && Submit(w, tx).bus.now == w.bus.now
    ensures Submit(w, tx).pred == w.pred
  {
    AcceptOk(s, w.bus, tx);
    var bus := Accept(w.bus, tx);
    if w.bus.slot.Some? {
      forall it | it in w.items ensures EventOk(s, bus, it) {
        EventOkKept(s, w.bus, bus, it);
      }
    } else {
      ReachableAccounted(bus);
      InstallInv(s, w, bus);
    }
  }

  // ---- Handlers ----

  /** Transaction numbers do not matter. */
  lemma IdsInv(s: Setup, w: World, ids: Ids)
    requires WorldInv(s, w)
    ensures WorldInv(s, w.(ids := ids))
  {
    hide EventOk, BusOk, PredictorOk, SumItems;
  }

  lemma AudioInv(s: Setup, w: World)
    requires WorldInv(s, w)
    ensures WorldInv(s, OnAudio(s, w)) && OnAudio(s, w).bus.now == w.bus.now
  {
    hide WorldInv, Healthy, BusOk, PredictorOk, Submit, Insert;
    var w1 := w.(ids := w.ids.(audio := w.ids.audio + 1));
    IdsInv(s, w, w1.ids);
    SubmitInv(s, w1, AudioTxn(s, w));
    var w2 := Submit(w1, AudioTxn(s, w));
    if w2.bus.now + AudioPeriod(s) < StopAt(s) {
      PostInv(s, w2, w2.bus.now + AudioPeriod(s), AudioTick);
    }
  }

  lemma TextureInv(s: Setup, w: World, at: Time, burstEnd: Time, period: pos)
    requires WorldInv(s, w) && at == w.bus.now
    ensures WorldInv(s, OnTexture(s, w, at, burstEnd, period))
  {
    hide WorldInv, Healthy, BusOk, PredictorOk, Submit, Insert;
    var w1 := w.(ids := w.ids.(texture := w.ids.texture + 1));
    IdsInv(s, w, w1.ids);
    SubmitInv(s, w1, TextureTxn(s, w));
    var w2 := Submit(w1, TextureTxn(s, w));
    if at + period < burstEnd {
      PostInv(s, w2, at + period, TextureBlock(at + period, burstEnd, period));
    }
  }

  lemma WeightInv(s: Setup, w: World, npc: nat, size: nat)
    requires WorldInv(s, w) && IsSize(s, size)
    ensures WorldInv(s, OnWeight(s, w, npc, size))
  {
    hide WorldInv, Healthy, BusOk, PredictorOk, Submit;
    var w1 := w.(ids := w.ids.(weight := w.ids.weight + 1));
    IdsInv(s, w, w1.ids);
    SubmitInv(s, w1, WeightTxn(s, w, npc, size));
  }

  lemma {:induction false} PostAllInv(s: Setup, w: World, rs: seq<Request>)
    requires WorldInv(s, w) && AllLevels(rs)
    ensures WorldInv(s, PostAll(s, w, rs)) && PostAll(s, w, rs).bus == w.bus && PostAll(s, w, rs).pred == w.pred
  {
    if rs != [] {
      var r := rs[|rs| - 1];
      PostAllInv(s, w, rs[..|rs| - 1]);
      PostInv(s, PostAll(s, w, rs[..|rs| - 1]), w.bus.now, WeightIssue(r.npc, Encode(s.cfg.lodSizes, r.lod)));
    }
  }

  /** The distance predictor asks only for what is neither in flight nor resident, and only once. */
  lemma {:induction false} VisitByDistanceAsks(bands: seq<Band>, pct: nat, sc: Scene, st: Distance, n: nat, now: Time)
    requires n <= |sc.npcs|
    ensures var (st', rs) := VisitAllByDistance(bands, pct, sc, st, n, now);
      && Asked(st.inFlight, st'.inFlight, rs) && |rs| <= n
      && st'.resident == st.resident && forall i :: 0 <= i < |rs| ==> KeyOf(rs[i]) !in st.resident
    ensures (forall b :: b in bands ==> IsLod(b.lod)) ==> AllLevels(VisitAllByDistance(bands, pct, sc, st, n, now).1)
  {
    if n > 0 {
      VisitByDistanceAsks(bands, pct, sc, st, n - 1, now);
      var (st1, rs) := VisitAllByDistance(bands, pct, sc, st, n - 1, now);
      var npc := sc.npcs[n - 1];
      var prev := if npc.id in st1.lastLod then st1.lastLod[npc.id] else COLD;
      var lod := Select(bands, pct, sc.view(npc.id, now / 1000).distance, prev);
      SelectLevels(bands, pct, sc.view(npc.id, now / 1000).distance, prev);
      if VisitByDistance(bands, pct, sc, st1, npc, now).1.Some? {
        AskedMore(st.inFlight, st1.inFlight, rs, Request(npc.id, lod));
      }
    }
  }

  lemma SelectLevels(bands: seq<Band>, pct: nat, d: real, last: int)
    ensures var r := Select(bands, pct, d, last);
      (forall b :: b in bands ==> IsLod(b.lod)) ==> r == OFF || IsLod(r)
  {
    if forall b :: b in bands ==> IsLod(b.lod) {
      OutermostFacts(bands, d);
      if Find(bands, last).Some? {
        FindIsMember(bands, last);
      }
      UpgradeFacts(bands, d, last);
      DemoteFacts(bands, d, last);
    }
  }

  /** A tick keeps the predictor well and asks for weights that are not in flight; when every band names a
      level with weights, it asks for nothing else. */
  lemma TickAsks(s: Setup, p: Predictor, now: Time, later: Time)
    requires PredictorOk(s, p, now) && now <= later
    ensures var (p', rs) := Tick(s, p, later);
      && PredictorOk(s, p', later) && Asked(InFlight(p), InFlight(p'), rs) && |rs| <= |s.sc.npcs|
      && (Levels(s) ==> AllLevels(rs))
  {
    match s.kind
    case Scripted =>
    case ByDistance(bands, pct) => VisitByDistanceAsks(bands, pct, s.sc, p.dist, |s.sc.npcs|, later);
    case ByIntent(ip, _, _) => TickKeeps(ip, s.sc, p.intent, now / 1000, later);
  }

  lemma PredictorFine(s: Setup, w: World)
    requires WorldInv(s, w)
    ensures PredictorOk(s, w.pred, w.bus.now)
  {
  }

  lemma PredictorLater(s: Setup, p: Predictor, now: Time, later: Time)
    requires PredictorOk(s, p, now) && now <= later
    ensures PredictorOk(s, p, later)
  {
    if s.kind.ByIntent? && Disjoint(s.sc.interactions) {
      BackedMore(s.sc.interactions, p.intent.slots, p.intent.handled, p.intent.handled, now / 1000, later / 1000);
    }
  }

  lemma PredInv(s: Setup, w: World, p: Predictor)
    requires WorldInv(s, w) && PredictorOk(s, p, w.bus.now)
    ensures WorldInv(s, w.(pred := p))
  {
    hide EventOk, BusOk, PredictorOk, SumItems;
  }

  lemma FetchInv(s: Setup, w: World)
    requires WorldInv(s, w) && KnownLevels(s, w)
    ensures var (p, rs) := Tick(s, w.pred, w.bus.now);
      var w' := PostAll(s, w.(pred := p), rs);
      WorldInv(s, w') && w'.bus == w.bus && w'.pred == p
  {
    var (p, rs) := Tick(s, w.pred, w.bus.now);
    TickAsks(s, w.pred, w.bus.now, w.bus.now);
    PredInv(s, w, p);
    hide WorldInv, PredictorOk, Tick;
    PostAllInv(s, w.(pred := p), rs);
  }

  lemma TickInv(s: Setup, w: World)
    requires WorldInv(s, w) && KnownLevels(s, w) && !s.kind.Scripted?
    ensures WorldInv(s, OnTick(s, w))
  {
    hide WorldInv, PostAll, Tick, Insert, EventOk, KnownLevels;
    FetchInv(s, w);
    var (p, rs) := Tick(s, w.pred, w.bus.now);
    var w2 := PostAll(s, w.(pred := p), rs);
    if w2.bus.now + s.tickUs < StopAt(s) {
      TickEventOk(s, w2.bus, w2.bus.now + s.tickUs, w2.next);
      PostInv(s, w2, w2.bus.now + s.tickUs, PredictorTick);
    }
  }

  lemma TickEventOk(s: Setup, b: Bus, when: Time, id: nat)
    requires b.now <= when && !s.kind.Scripted?
    ensures EventOk(s, b, Item(when, id, PredictorTick))
  {
  }

  lemma NotedKeeps(s: Setup, p: Predictor, npc: nat, lod: int, now: Time, p': Predictor)
    requires PredictorOk(s, p, now) && Noted(s, p, npc, lod, now, p')
    ensures PredictorOk(s, p', now) && InFlight(p') == InFlight(p) - {Key(npc, lod)}
  {
    match s.kind
    case Scripted =>
    case ByDistance(_, _) =>
    case ByIntent(_, capacity, _) =>
      CompleteKeeps(s.cfg.lodSizes, capacity, s.sc, p.intent, npc, lod, s.place(npc, now / 1000), now, p'.intent,
        now / 1000);
  }

  /** What a quantum end makes of the predictor. */
  lemma ArrivalKeeps(s: Setup, w: World, w': World)
    requires w.bus.slot.Some? && PredictorOk(s, w.pred, w.bus.now) && OnQuantum(s, w, w')
    ensures PredictorOk(s, w'.pred, w.bus.now)
  {
    hide PredictorOk, Noted, Install;
    if DeliversWeights(w.bus) {
      var tx := w.bus.slot.value.p.tx;
      NotedKeeps(s, w.pred, tx.inst, Decode(s.cfg.lodSizes, tx.size), w.bus.now, w'.pred);
    }
  }

  lemma QuantumInv(s: Setup, w: World)
    requires Good(Eager(w.items, w.next)) && QuantaPending(w.items) == 0
    requires forall it :: it in w.items && !it.ev.QuantumDone? ==> EventOk(s, w.bus, it)
    requires BusOk(s, w.bus) && PredictorOk(s, w.pred, w.bus.now) && Enabled(w.bus, Finish)
    ensures WorldInv(s, Install(w, QuantumEnd(w.bus))) && QuantumEnd(w.bus).now == w.bus.now
  {
    hide PredictorOk;
    QuantumEndOk(s, w.bus);
    ReachableAccounted(QuantumEnd(w.bus));
    InstallInv(s, w, QuantumEnd(w.bus));
  }

  // ---- One step ----

  /** The quantum end of a busy bus is pending at its due time. */
  lemma QuantumPending(s: Setup, w: World)
    requires WorldInv(s, w) && w.bus.slot.Some?
    ensures exists it :: it in w.items && it.ev == QuantumDone(w.bus.slot.value.p) && it.when == w.bus.slot.value.fireAt
  {
    var it := SumPositive(w.items, QuantumOf);
    assert EventOk(s, w.bus, it);
  }

  lemma FirstIsEarliest(items: seq<Item>, it: Item)
    requires Ordered(items) && it in items
    ensures items[0].when <= it.when
  {
    if it != items[0] {
      assert Before(items[0], it);
    }
  }

  lemma PullBus(s: Setup, b: Bus, t: Time)
    requires BusOk(s, b) && Enabled(b, Advance(t))
    ensures BusOk(s, b.(now := t))
  {
    AdvanceRuns(b, t);
    hide DisciplineSum, SlotSum, Stray, Reachable;
  }

  /** Taking the next event: the clock accepts its time, and time never passes a quantum end. */
  lemma PullInv(s: Setup, w: World)
    requires WorldInv(s, w) && w.items != []
    ensures ClockAccepts(w) && Enabled(w.bus, Advance(w.items[0].when))
    ensures var w1 := Pull(w);
      && Good(Eager(w1.items, w1.next)) && BusOk(s, w1.bus) && PredictorOk(s, w1.pred, w1.bus.now)
      && (forall it :: it in w1.items ==> EventOk(s, w1.bus, it))
      && QuantaPending(w1.items) + QuantumOf(w.items[0]) == (if w.bus.slot.Some? then 1 else 0)
  {
    hide BusOk, PredictorOk;
    var first := w.items[0];
    assert EventOk(s, w.bus, first);
    OrderedTail(w.items);
    if w.bus.slot.Some? {
      QuantumPending(s, w);
      var it :| it in w.items && it.ev == QuantumDone(w.bus.slot.value.p) && it.when == w.bus.slot.value.fireAt;
      FirstIsEarliest(w.items, it);
    }
    PredictorLater(s, w.pred, w.bus.now, first.when);
    PullBus(s, w.bus, first.when);
    PullEvents(s, w);
  }

  lemma PullEvents(s: Setup, w: World)
    requires QueueOk(s, w) && w.items != []
    ensures forall it :: it in w.items[1..] ==> EventOk(s, Pull(w).bus, it)
  {
    OrderedTail(w.items);
    forall it | it in w.items[1..] ensures EventOk(s, Pull(w).bus, it) {
      assert EventOk(s, w.bus, it) && Before(w.items[0], it);
    }
  }

  /** Unless a quantum has ended, the invariant survives the taking of the event. */
  lemma PullKeeps(s: Setup, w: World)
    requires WorldInv(s, w) && w.items != []
    ensures EventOk(s, w.bus, w.items[0])
    ensures !w.items[0].ev.QuantumDone? ==> WorldInv(s, Pull(w))
  {
    PullInv(s, w);
    assert w.items[0] in w.items;
    hide BusOk, PredictorOk, SumItems;
  }

  /** Every step of the simulation keeps the invariant. */
  lemma StepInv(s: Setup, w: World, w': World)
    requires WellPosed(s) && WorldInv(s, w) && Step(s, w, w')
    ensures WorldInv(s, w')
  {
    hide WorldInv, BusOk, PredictorOk, KnownLevels, OnAudio, OnTexture, OnWeight, OnTick;
    PullKeeps(s, w);
    var w1 := Pull(w);
    match w.items[0].ev
    case AudioTick => AudioInv(s, w1);
    case TextureBlock(at, burstEnd, period) => TextureInv(s, w1, at, burstEnd, period);
    case WeightIssue(npc, size) => WeightInv(s, w1, npc, size);
    case PredictorTick => TickInv(s, w1);
    case QuantumDone(_) =>
      PullInv(s, w);
      ArrivalKeeps(s, w1, w');
      QuantumInv(s, w1);
      PredInv(s, Install(w1, QuantumEnd(w1.bus)), w'.pred);
  }

  // ---- The start ----

  lemma FreshBusOk(s: Setup)
    ensures BusOk(s, Fresh(s.cfg))
  {
    var b := Fresh(s.cfg);
    LeadsSelf(b);
    FreshSum(s.cfg, Stray(s));
    hide SystemSum;
  }

  lemma FreshPredictorOk(s: Setup)
    ensures PredictorOk(s, FreshPredictor(s.kind), 0)
  {
    if s.kind.ByIntent? {
      var i := FreshPredictor(s.kind).intent;
      assert forall j :: 0 <= j < |i.slots| ==> !i.slots[j].occupied;
    }
  }

  lemma NothingInv(s: Setup)
    ensures WorldInv(s, Nothing(s))
  {
    FreshBusOk(s);
    FreshPredictorOk(s);
    hide BusOk, PredictorOk;
  }

  lemma {:induction false} BurstsInv(s: Setup, w: World, n: nat)
    requires WellPosed(s) && WorldInv(s, w) && w.bus.now == 0 && n <= |s.bursts|
    ensures WorldInv(s, StartBursts(s, w, n)) && StartBursts(s, w, n).bus == w.bus
  {
    hide WorldInv, Insert;
    if n > 0 {
      BurstsInv(s, w, n - 1);
      var b := s.bursts[n - 1];
      assert b in s.bursts;
      if b.rate > 0 && b.durationMs > 0 {
        var at := b.atMs * 1000;
        var burstEnd := at + b.durationMs * 1000;
        PostInv(s, StartBursts(s, w, n - 1), at, TextureBlock(at, burstEnd, Period(s.texture.blockBytes, b.rate)));
      }
    }
  }

  lemma NothingAtZero(s: Setup)
    ensures Nothing(s).bus.now == 0
  {
  }

  lemma {:induction false} ScriptLevels(sc: Scene, n: nat)
    requires n <= |sc.npcs|
    ensures AllLevels(ScriptRequests(sc, n))
  {
    if n > 0 {
      ScriptLevels(sc, n - 1);
    }
  }

  lemma PredictorStarts(s: Setup, w: World)
    requires WorldInv(s, w) && w.bus.now == 0
    ensures WorldInv(s, StartPredictor(s, w)) && StartPredictor(s, w).bus == w.bus
  {
    hide WorldInv, Insert, ScriptRequests, PostAll;
    if s.kind.Scripted? {
      ScriptLevels(s.sc, |s.sc.npcs|);
      PostAllInv(s, w, ScriptRequests(s.sc, |s.sc.npcs|));
    } else {
      PostInv(s, w, 0, PredictorTick);
    }
  }

  lemma InitialInv(s: Setup)
    requires WellPosed(s)
    ensures WorldInv(s, Initial(s))
  {
    hide WorldInv, Nothing, WellPosed, Insert, AudioPeriod, StopAt;
    NothingInv(s);
    NothingAtZero(s);
    var w0 := Nothing(s);
    if s.audioOn && AudioPeriod(s) < StopAt(s) {
      PostInv(s, w0, AudioPeriod(s), AudioTick);
    }
    var w1 := StartAudio(s, w0);
    BurstsInv(s, w1, |s.bursts|);
    PredictorStarts(s, StartBursts(s, w1, |s.bursts|));
  }

  /** The invariant holds in every state of every run. */
  lemma {:induction false} HistoryInv(s: Setup, r: seq<World>, n: nat)
    requires WellPosed(s) && History(s, r) && n < |r|
    ensures WorldInv(s, r[n])
  {
    hide WorldInv, WellPosed, Initial, Step;
    if n == 0 {
      InitialInv(s);
    } else {
      HistoryInv(s, r, n - 1);
      assert StepsAt(s, r, n - 1);
      StepInv(s, r[n - 1], r[n]);
    }
  }
}
