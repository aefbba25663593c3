/** Every simulation ends, and what is left when it does. */
module Termination {
  import opened Base
  import opened Configuration
  import opened Scheduling
  import opened Lifecycle
  import opened Slicing
  import opened Operations
  import opened LaneSums
  import opened Events
  import opened EventQueues
  import opened Prefetching
  import opened SlotSafety
  import opened Simulation
  import opened SimulationSafety

  // ---- The measure ----

  /** Quanta that a transaction of this kind needs. */
  function Cost(c: Config, source: Source, size: nat): nat {
    QuantaLeft(NewPending(c, 0, Txn(0, source, 0, Normal, size, 0, 0), 0))
  }

  function WeightCost(s: Setup, lod: int): nat {
    Cost(s.cfg, Weight, Encode(s.cfg.lodSizes, lod))
  }

  /** The dearest weight transfer. */
  function DearestWeight(s: Setup): nat {
    WeightCost(s, 0) + WeightCost(s, 1) + WeightCost(s, 2)
  }

  /** Most work that one predictor tick can cause, itself included. */
  function TickCost(s: Setup): pos {
    TimesNat(|s.sc.npcs|, 1 + DearestWeight(s));
    1 + |s.sc.npcs| * (1 + DearestWeight(s))
  }

  function TimeLeft(until: Time, t: Time): nat {
    Max(0, until - t)
  }

  /** Steps that an event can still cause: its remaining firings, each with the quanta it creates. */
  function Credit(s: Setup, it: Item): nat {
    match it.ev
    case AudioTick => Product(TimeLeft(StopAt(s), it.when), 1 + Cost(s.cfg, Audio, s.audio.packetBytes))
    case TextureBlock(_, burstEnd, _) =>
      Product(TimeLeft(burstEnd, it.when), 1 + Cost(s.cfg, Texture, s.texture.blockBytes))
    case WeightIssue(_, size) => 1 + Cost(s.cfg, Weight, size)
    case PredictorTick => Product(TimeLeft(StopAt(s), it.when) + 1, TickCost(s))
    case QuantumDone(_) => 0
  }

  function Product(a: nat, b: nat): nat {
    TimesNat(a, b);
    a * b
  }

  lemma TimesNat(a: nat, b: nat)
    ensures a * b >= 0
  {
  }

  function CreditOf(s: Setup): Item -> nat {
    (it: Item) => Credit(s, it)
  }

  /** Remaining generator steps weighted by the quanta they can create, plus the quanta left. */
  function Fuel(s: Setup, w: World): nat {
    SumItems(w.items, CreditOf(s)) + Work(w.bus)
  }

  // ---- Fuel of the operations ----

  lemma {:induction false} QuantaSame(p: Pending, q: Pending)
    requires p.remaining == q.remaining && p.bw == q.bw && p.quantum == q.quantum
    ensures QuantaLeft(p) == QuantaLeft(q)
    decreases p.remaining
  {
    if p.remaining > ChunkBytes(p) {
      QuantaSame(AfterQuantum(p), AfterQuantum(q));
    }
  }

  lemma StartWork(b: Bus)
    ensures Work(StartIfIdle(b)) <= Work(b)
  {
    forall p: Pending ensures QuantaLeft(p.(started := true)) == QuantaLeft(p) {
      QuantaIgnoreStart(p);
    }
    StartSum(b, QuantaLeft);
  }

  lemma AcceptWork(b: Bus, tx: Txn)
    ensures Work(Accept(b, tx)) <= Work(b) + Cost(b.cfg, tx.source, tx.size)
  {
    AdmitSum(b, tx, QuantaLeft);
    QuantaSame(NewPending(b.cfg, b.kpi.issued, tx, b.now),
               NewPending(b.cfg, 0, Txn(0, tx.source, 0, Normal, tx.size, 0, 0), 0));
    StartWork(Admit(b, tx));
  }

  lemma PostFuel(s: Setup, w: World, when: Time, ev: Event)
    ensures Fuel(s, Post(w, when, ev)) == Fuel(s, w) + Credit(s, Item(when, w.next, ev))
  {
    SumInsert(w.items, Item(when, w.next, ev), CreditOf(s));
  }

  lemma InstallFuel(s: Setup, w: World, bus: Bus)
    ensures Fuel(s, Install(w, bus)) == SumItems(w.items, CreditOf(s)) + Work(bus)
  {
    if bus.slot.Some? {
      PostFuel(s, w.(bus := bus), bus.slot.value.fireAt, QuantumDone(bus.slot.value.p));
    }
  }

  lemma SubmitFuel(s: Setup, w: World, tx: Txn)
    requires w.bus.cfg == s.cfg
    ensures Fuel(s, Submit(w, tx)) <= Fuel(s, w) + Cost(s.cfg, tx.source, tx.size)
  {
    AcceptWork(w.bus, tx);
    InstallFuel(s, w, Accept(w.bus, tx));
    hide Work, SumItems, Accept, Cost;
  }

  /** Time passes between two firings of a chain, and pays for one transaction. */
  lemma ChainPays(left: nat, left': nat, cost: nat)
    requires left' < left
    ensures Product(left', 1 + cost) + cost + 1 <= Product(left, 1 + cost)
  {
    assert left * (1 + cost) == left' * (1 + cost) + (left - left') * (1 + cost);
    assert (left - left' - 1) * (1 + cost) >= 0;
    assert (left - left') * (1 + cost) == (left - left' - 1) * (1 + cost) + (1 + cost);
  }

  lemma AudioFuel(s: Setup, w: World)
    requires w.bus.cfg == s.cfg && w.bus.now < StopAt(s)
    ensures Fuel(s, OnAudio(s, w)) < Fuel(s, w) + Credit(s, Item(w.bus.now, 0, AudioTick))
  {
    hide Work, Cost, Product, Submit;
    var w1 := w.(ids := w.ids.(audio := w.ids.audio + 1));
    assert Fuel(s, w1) == Fuel(s, w);
    hide Fuel;
    SubmitFuel(s, w1, AudioTxn(s, w));
    SubmitTime(w1, AudioTxn(s, w));
    var w2 := Submit(w1, AudioTxn(s, w));
    var when := w2.bus.now + AudioPeriod(s);
    PostFuel(s, w2, when, AudioTick);
    ChainPays(TimeLeft(StopAt(s), w.bus.now), TimeLeft(StopAt(s), when), Cost(s.cfg, Audio, s.audio.packetBytes));
  }

  lemma TextureFuel(s: Setup, w: World, at: Time, burstEnd: Time, period: pos)
    requires w.bus.cfg == s.cfg && at < burstEnd
    ensures Fuel(s, OnTexture(s, w, at, burstEnd, period)) <
      Fuel(s, w) + Credit(s, Item(at, 0, TextureBlock(at, burstEnd, period)))
  {
    hide Work, Cost, Product, Submit;
    var w1 := w.(ids := w.ids.(texture := w.ids.texture + 1));
    assert Fuel(s, w1) == Fuel(s, w);
    hide Fuel;
    SubmitFuel(s, w1, TextureTxn(s, w));
    PostFuel(s, Submit(w1, TextureTxn(s, w)), at + period, TextureBlock(at + period, burstEnd, period));
    ChainPays(TimeLeft(burstEnd, at), TimeLeft(burstEnd, at + period), Cost(s.cfg, Texture, s.texture.blockBytes));
  }

  lemma WeightFuel(s: Setup, w: World, npc: nat, size: nat)
    requires w.bus.cfg == s.cfg
    ensures Fuel(s, OnWeight(s, w, npc, size)) < Fuel(s, w) + Credit(s, Item(w.bus.now, 0, WeightIssue(npc, size)))
  {
    hide Work, Cost, Submit;
    var w1 := w.(ids := w.ids.(weight := w.ids.weight + 1));
    assert Fuel(s, w1) == Fuel(s, w);
    hide Fuel;
    SubmitFuel(s, w1, WeightTxn(s, w, npc, size));
  }

  lemma IssueCredit(s: Setup, it: Item, lod: int)
    requires IsLod(lod) && it.ev.WeightIssue? && it.ev.size == Encode(s.cfg.lodSizes, lod)
    ensures Credit(s, it) <= 1 + DearestWeight(s)
  {
    assert WeightCost(s, lod) <= DearestWeight(s);
  }

  lemma OneMore(n: nat, k: nat)
    ensures (n + 1) * k == n * k + k
  {
  }

  lemma {:induction false} PostAllFuel(s: Setup, w: World, rs: seq<Request>)
    requires AllLevels(rs)
    ensures Fuel(s, PostAll(s, w, rs)) <= Fuel(s, w) + |rs| * (1 + DearestWeight(s))
    ensures PostAll(s, w, rs).bus == w.bus
  {
    hide Fuel, Encode, Credit, DearestWeight, Insert;
    if rs != [] {
      var init, r := rs[..|rs| - 1], rs[|rs| - 1];
      PostAllFuel(s, w, init);
      var w1 := PostAll(s, w, init);
      var ev := WeightIssue(r.npc, Encode(s.cfg.lodSizes, r.lod));
      PostFuel(s, w1, w.bus.now, ev);
      IssueCredit(s, Item(w.bus.now, w1.next, ev), r.lod);
      OneMore(|init|, 1 + DearestWeight(s));
    }
  }

  /** A tick pays for all the fetches it can ask for. */
  lemma TickPays(left: nat, left': nat, n: nat, m: nat, each: pos, cost: pos)
    requires m <= n && cost == 1 + n * each && left' < left
    ensures m * each + Product(left' + 1, cost) < Product(left + 1, cost)
    ensures m * each < Product(left + 1, cost)
  {
    MulMono(m, n, each);
    ChainPays(left + 1, left' + 1, cost - 1);
    TimesNat(left, cost);
    assert Product(left + 1, cost) == left * cost + cost;
  }

  lemma LastTickPays(left: nat, n: nat, m: nat, each: pos, cost: pos)
    requires m <= n && cost == 1 + n * each
    ensures m * each < Product(left + 1, cost)
  {
    MulMono(m, n, each);
    TimesNat(left, cost);
    assert Product(left + 1, cost) == left * cost + cost;
  }

  lemma FetchFuel(s: Setup, w: World, p: Predictor, rs: seq<Request>)
    requires AllLevels(rs)
    ensures var w2 := PostAll(s, w.(pred := p), rs);
      Fuel(s, w2) <= Fuel(s, w) + |rs| * (1 + DearestWeight(s)) && w2.bus == w.bus
  {
    var w1 := w.(pred := p);
    assert Fuel(s, w1) == Fuel(s, w);
    PostAllFuel(s, w1, rs);
  }

  lemma TickFuel(s: Setup, w: World)
    requires PredictorOk(s, w.pred, w.bus.now) && KnownLevels(s, w)
    ensures Fuel(s, OnTick(s, w)) < Fuel(s, w) + Credit(s, Item(w.bus.now, 0, PredictorTick))
  {
    hide Tick, PredictorOk, DearestWeight, Product, AllLevels, Fuel, InFlight, PostAll, Insert, Asked;
    var (p, rs) := Tick(s, w.pred, w.bus.now);
    TickAsks(s, w.pred, w.bus.now, w.bus.now);
    FetchFuel(s, w, p, rs);
    var w2 := PostAll(s, w.(pred := p), rs);
    var next := w2.bus.now + s.tickUs;
    PostFuel(s, w2, next, PredictorTick);
    if next < StopAt(s) {
      TickPays(TimeLeft(StopAt(s), w.bus.now), TimeLeft(StopAt(s), next), |s.sc.npcs|, |rs|,
               1 + DearestWeight(s), TickCost(s));
    } else {
      LastTickPays(TimeLeft(StopAt(s), w.bus.now), |s.sc.npcs|, |rs|, 1 + DearestWeight(s), TickCost(s));
    }
  }

  lemma QuantumFuel(s: Setup, w: World, w': World)
    requires w.bus.slot.Some? && OnQuantum(s, w, w')
    ensures Fuel(s, w') < Fuel(s, w)
  {
    QuantumEndWorks(w.bus);
    hide Noted, Work;
    InstallFuel(s, w, QuantumEnd(w.bus));
    assert Fuel(s, w') == Fuel(s, Install(w, QuantumEnd(w.bus)));
  }

  lemma PullFuel(s: Setup, w: World)
    requires w.items != []
    ensures Fuel(s, w) == Fuel(s, Pull(w)) + Credit(s, w.items[0])
  {
    assert Work(Pull(w).bus) == Work(w.bus);
  }

  /** What the handler of the next event relies on. */
  lemma PullFacts(s: Setup, w: World)
    requires WorldInv(s, w) && w.items != []
    ensures var w1 := Pull(w);
      EventOk(s, w.bus, w.items[0]) && w1.bus.cfg == s.cfg && PredictorOk(s, w1.pred, w1.bus.now)
  {
    PullInv(s, w);
    PullKeeps(s, w);
  }

  /** Every step of the simulation burns fuel. */
  lemma StepBurns(s: Setup, w: World, w': World)
    requires WellPosed(s) && WorldInv(s, w) && Step(s, w, w')
    ensures Fuel(s, w') < Fuel(s, w)
  {
    hide Fuel, WorldInv, PredictorOk, Noted, Cost, Product, TickCost, KnownLevels, WellPosed;
    hide OnAudio, OnTexture, OnWeight, OnTick, OnQuantum;
    var first, w1 := w.items[0], Pull(w);
    PullFacts(s, w);
    PullFuel(s, w);
    match first.ev
    case AudioTick => AudioFuel(s, w1);
    case TextureBlock(at, burstEnd, period) => TextureFuel(s, w1, at, burstEnd, period);
    case WeightIssue(npc, size) => WeightFuel(s, w1, npc, size);
    case PredictorTick => TickFuel(s, w1);
    case QuantumDone(_) => QuantumFuel(s, w1, w');
  }

  /** Termination: no run has more steps than the fuel it starts with. */
  lemma {:induction false} RunsEnd(s: Setup, r: seq<World>, n: nat)
    requires WellPosed(s) && History(s, r) && n < |r|
    ensures n + Fuel(s, r[n]) <= Fuel(s, Initial(s))
  {
    hide Fuel, Initial, WorldInv, WellPosed, Step;
    if n > 0 {
      RunsEnd(s, r, n - 1);
      HistoryInv(s, r, n - 1);
      assert StepsAt(s, r, n - 1);
      StepBurns(s, r[n - 1], r[n]);
    }
  }

  // ---- What is left at the end ----

  /** FIFO drains completely; QoS drains its bulk queues, and leaves only critical transactions
      behind a head that the tokens do not cover. */
  predicate Drained(b: Bus) {
    && b.slot.None?
    && match b.d
       case FifoQ(q) => q == [] && b.kpi.issued == b.kpi.completed + b.kpi.dropped
       case QosQ(crit, high, norm, tokens, _, _, _, _, _) =>
         && high == [] && norm == []
         && (crit != [] ==> ChargeOf(b.cfg, CritLane, crit[0]) as real > tokens)
         && b.kpi.issued == b.kpi.completed + b.kpi.dropped + |crit|
  }

  lemma SettledDrained(b: Bus)
    requires Coherent(b) && Settled(b) && b.slot.None?
    ensures Drained(b)
  {
    match b.d
    case FifoQ(q) => assert System(b) == multiset{};
    case QosQ(crit, _, _, _, _, _, _, _, _) => assert System(b) == multiset(crit);
  }

  /** The end of a run: no event is pending, and the scheduler is drained. */
  lemma EndDrained(s: Setup, r: seq<World>)
    requires WellPosed(s) && History(s, r) && r[|r| - 1].items == []
    ensures Drained(r[|r| - 1].bus)
  {
    hide Initial, Step, WellPosed, WorldInv, Drained;
    HistoryInv(s, r, |r| - 1);
    QuietIsDrained(s, r[|r| - 1]);
  }

  lemma QuietIsDrained(s: Setup, w: World)
    requires WorldInv(s, w) && w.items == []
    ensures Drained(w.bus)
  {
    assert SumItems(w.items, QuantumOf) == 0;
    ReachableCoherent(w.bus);
    SettledDrained(w.bus);
  }
}
