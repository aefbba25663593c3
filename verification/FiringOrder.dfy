/** The composed system respects the event queue's contract: firings are strictly ordered by time and
    number, and the clock never refuses an event. */
module FiringOrder {
  import opened Base
  import opened Scheduling
  import opened Events
  import opened EventQueues
  import opened Prefetching
  import opened Operations
  import opened Simulation
  import opened SimulationSafety

  /** Whatever is new was numbered after everything old. */
  ghost predicate Grown(w: World, w': World) {
    w.next <= w'.next && forall it :: it in w'.items ==> it in w.items || it.id >= w.next
  }

  lemma GrownTrans(a: World, b: World, c: World)
    requires Grown(a, b) && Grown(b, c)
    ensures Grown(a, c)
  {
  }

  lemma {:induction false} InsertMembers(items: seq<Item>, it: Item)
    ensures forall x :: x in Insert(items, it) <==> x in items || x == it
  {
    if items != [] {
      assert items == [items[0]] + items[1..];
      InsertMembers(items[1..], it);
    }
  }

  lemma PostGrown(w: World, when: Time, ev: Event)
    ensures Grown(w, Post(w, when, ev))
  {
    InsertMembers(w.items, Item(when, w.next, ev));
  }

  lemma InstallGrown(w: World, bus: Bus)
    ensures Grown(w, Install(w, bus))
  {
    if bus.slot.Some? {
      PostGrown(w.(bus := bus), bus.slot.value.fireAt, QuantumDone(bus.slot.value.p));
    }
  }

  lemma SubmitGrown(w: World, tx: Txn)
    ensures Grown(w, Submit(w, tx))
  {
    InstallGrown(w, Accept(w.bus, tx));
  }

  lemma {:induction false} PostAllGrown(s: Setup, w: World, rs: seq<Request>)
    ensures Grown(w, PostAll(s, w, rs))
  {
    if rs != [] {
      var init, r := rs[..|rs| - 1], rs[|rs| - 1];
      PostAllGrown(s, w, init);
      PostGrown(PostAll(s, w, init), w.bus.now, WeightIssue(r.npc, Encode(s.cfg.lodSizes, r.lod)));
      GrownTrans(w, PostAll(s, w, init), PostAll(s, w, rs));
    }
  }

  lemma ChainGrown(w: World, w1: World, when: Time, ev: Event)
    requires Grown(w, w1)
    ensures Grown(w, Post(w1, when, ev))
  {
    PostGrown(w1, when, ev);
    GrownTrans(w, w1, Post(w1, when, ev));
  }

  /** A step only adds events numbered after all pending ones. */
  lemma StepGrown(s: Setup, w: World, w': World)
    requires Step(s, w, w')
    ensures Grown(Pull(w), w')
  {
    hide Grown, Submit, Install, PostAll, Tick, Post, Noted;
    var w1 := Pull(w);
    match w.items[0].ev
    case AudioTick =>
      var w2 := w1.(ids := w1.ids.(audio := w1.ids.audio + 1));
      SubmitGrown(w2, AudioTxn(s, w1));
      SameGrown(w1, w2, Submit(w2, AudioTxn(s, w1)));
      ChainGrown(w1, Submit(w2, AudioTxn(s, w1)), Submit(w2, AudioTxn(s, w1)).bus.now + AudioPeriod(s), AudioTick);
    case TextureBlock(at, burstEnd, period) =>
      var w2 := w1.(ids := w1.ids.(texture := w1.ids.texture + 1));
      SubmitGrown(w2, TextureTxn(s, w1));
      SameGrown(w1, w2, Submit(w2, TextureTxn(s, w1)));
      ChainGrown(w1, Submit(w2, TextureTxn(s, w1)), at + period, TextureBlock(at + period, burstEnd, period));
    case WeightIssue(npc, size) =>
      var w2 := w1.(ids := w1.ids.(weight := w1.ids.weight + 1));
      SubmitGrown(w2, WeightTxn(s, w1, npc, size));
      SameGrown(w1, w2, Submit(w2, WeightTxn(s, w1, npc, size)));
    case PredictorTick =>
      var (p, rs) := Tick(s, w1.pred, w1.bus.now);
      var w2 := w1.(pred := p);
      PostAllGrown(s, w2, rs);
      SameGrown(w1, w2, PostAll(s, w2, rs));
      ChainGrown(w1, PostAll(s, w2, rs), PostAll(s, w2, rs).bus.now + s.tickUs, PredictorTick);
    case QuantumDone(_) =>
      InstallGrown(w1, QuantumEnd(w1.bus));
      GrownSame(w1, Install(w1, QuantumEnd(w1.bus)), w');
  }

  lemma SameGrown(w: World, w1: World, w2: World)
    requires w.items == w1.items && w.next == w1.next && Grown(w1, w2)
    ensures Grown(w, w2)
  {
  }

  lemma GrownSame(w: World, w1: World, w2: World)
    requires w1.items == w2.items && w1.next == w2.next && Grown(w, w1)
    ensures Grown(w, w2)
  {
  }

  /** After a step everything pending comes strictly after the event that fired. */
  lemma StepOrders(s: Setup, w: World, w': World)
    requires WellPosed(s) && WorldInv(s, w) && Step(s, w, w')
    ensures forall it :: it in w'.items ==> Earlier(w.items[0], it)
  {
    StepInv(s, w, w');
    StepGrown(s, w, w');
    StepTime(s, w, w');
    assert w.items[0] in w.items;
    OrderedTail(w.items);
    forall it | it in w'.items ensures Earlier(w.items[0], it) {
      assert EventOk(s, w'.bus, it);
      if it in w.items[1..] {
        assert Before(w.items[0], it);
      }
    }
  }

  lemma StepTime(s: Setup, w: World, w': World)
    requires WellPosed(s) && WorldInv(s, w) && Step(s, w, w')
    ensures w'.bus.now == w.items[0].when
  {
    hide WorldInv, Submit, Tick, Insert, Noted, PostAll, StartIfIdle;
    var w1 := Pull(w);
    match w.items[0].ev
    case AudioTick => SubmitTime(w1.(ids := w1.ids.(audio := w1.ids.audio + 1)), AudioTxn(s, w1));
    case TextureBlock(_, _, _) => SubmitTime(w1.(ids := w1.ids.(texture := w1.ids.texture + 1)), TextureTxn(s, w1));
    case WeightIssue(npc, size) =>
      SubmitTime(w1.(ids := w1.ids.(weight := w1.ids.weight + 1)), WeightTxn(s, w1, npc, size));
    case PredictorTick =>
      var (p, rs) := Tick(s, w1.pred, w1.bus.now);
      PostAllBus(s, w1.(pred := p), rs);
    case QuantumDone(_) => StartTime(Retire(w1.bus));
  }

  /** The event that fires first in a state of a run. */
  function FiringAt(r: seq<World>, i: nat): Item
    requires i < |r| && r[i].items != []
  {
    r[i].items[0]
  }

  lemma {:induction false} FiringsAfter(s: Setup, r: seq<World>, i: nat, j: nat)
    requires WellPosed(s) && History(s, r) && i < j < |r|
    ensures r[i].items != [] && forall it :: it in r[j].items ==> Earlier(FiringAt(r, i), it)
    decreases j
  {
    hide WorldInv, Step, WellPosed, Initial;
    HistoryInv(s, r, j - 1);
    assert StepsAt(s, r, j - 1);
    StepHasEvent(s, r[j - 1], r[j]);
    StepOrders(s, r[j - 1], r[j]);
    if i < j - 1 {
      FiringsAfter(s, r, i, j - 1);
      assert r[j - 1].items[0] in r[j - 1].items;
    }
  }

  lemma StepHasEvent(s: Setup, w: World, w': World)
    requires Step(s, w, w')
    ensures w.items != []
  {
  }

  /** Over a whole run the fired (time, number) pairs are strictly lexicographically increasing. */
  lemma RunFiresInOrder(s: Setup, r: seq<World>, i: nat, j: nat)
    requires WellPosed(s) && History(s, r) && i < j < |r| && r[j].items != []
    ensures r[i].items != []
    ensures var a, b := FiringAt(r, i), FiringAt(r, j); a.when < b.when || (a.when == b.when && a.id < b.id)
  {
    FiringsAfter(s, r, i, j);
    assert r[j].items[0] in r[j].items;
  }

  /** The exception of the monotone clock is unreachable. */
  lemma ClockNeverThrows(s: Setup, r: seq<World>, n: nat)
    requires WellPosed(s) && History(s, r) && n < |r|
    ensures ClockAccepts(r[n])
  {
    HistoryInv(s, r, n);
    if r[n].items != [] {
      PullInv(s, r[n]);
    }
  }

  // ---- The hypothesis on bursts is needed ----

  predicate Effective(b: Burst) {
    b.rate > 0 && b.durationMs > 0
  }

  /** The event that starts a burst. */
  function FirstBlock(s: Setup, b: Burst): Event
    requires Effective(b)
  {
    TextureBlock(b.atMs * 1000, b.atMs * 1000 + b.durationMs * 1000, Period(s.texture.blockBytes, b.rate))
  }

  lemma PostGood(w: World, when: Time, ev: Event)
    requires Good(Eager(w.items, w.next))
    ensures Good(Eager(Post(w, when, ev).items, Post(w, when, ev).next))
    ensures Item(when, w.next, ev) in Post(w, when, ev).items
    ensures forall it :: it in w.items ==> it in Post(w, when, ev).items
  {
    ApplyGood(Eager(w.items, w.next), Push(when, ev));
    InsertMembers(w.items, Item(when, w.next, ev));
  }

  lemma {:induction false} PostAllGood(s: Setup, w: World, rs: seq<Request>)
    requires Good(Eager(w.items, w.next))
    ensures var w' := PostAll(s, w, rs);
      && Good(Eager(w'.items, w'.next)) && (forall it :: it in w.items ==> it in w'.items)
      && (forall it :: it in w'.items ==> it in w.items || it.when == w.bus.now)
  {
    hide Insert, Good, Encode;
    if rs != [] {
      var init, r := rs[..|rs| - 1], rs[|rs| - 1];
      PostAllGood(s, w, init);
      var w1, ev := PostAll(s, w, init), WeightIssue(r.npc, Encode(s.cfg.lodSizes, r.lod));
      PostGood(w1, w.bus.now, ev);
      InsertMembers(w1.items, Item(w.bus.now, w1.next, ev));
    }
  }

  lemma PredictorGood(s: Setup, w: World)
    requires Good(Eager(w.items, w.next)) && w.bus.now == 0
    ensures var w' := StartPredictor(s, w);
      && Good(Eager(w'.items, w'.next)) && (forall it :: it in w.items ==> it in w'.items)
      && (forall it :: it in w'.items ==> it in w.items || it.when == 0) && w'.bus == w.bus
      && (!s.kind.Scripted? ==> w'.items != [])
  {
    hide Insert, Good, ScriptRequests, PostAll;
    if s.kind.Scripted? {
      PostAllGood(s, w, ScriptRequests(s.sc, |s.sc.npcs|));
      PostAllBus(s, w, ScriptRequests(s.sc, |s.sc.npcs|));
    } else {
      PostGood(w, 0, PredictorTick);
      InsertMembers(w.items, Item(0, w.next, PredictorTick));
    }
  }

  predicate Scheduled(w: World, t: Time) {
    exists it :: it in w.items && it.when == t
  }

  lemma {:induction false} BurstScheduled(s: Setup, w: World, n: nat, i: nat)
    requires Good(Eager(w.items, w.next)) && i < n <= |s.bursts| && Effective(s.bursts[i])
    ensures var w' := StartBursts(s, w, n); Good(Eager(w'.items, w'.next)) && Scheduled(w', s.bursts[i].atMs * 1000)
  {
    hide Insert, Good, Period;
    BurstsGood(s, w, n - 1);
    var w1, b := StartBursts(s, w, n - 1), s.bursts[n - 1];
    if i < n - 1 {
      BurstScheduled(s, w, n - 1, i);
    }
    if Effective(b) {
      PostGood(w1, b.atMs * 1000, FirstBlock(s, b));
    }
  }

  lemma {:induction false} BurstsGood(s: Setup, w: World, n: nat)
    requires Good(Eager(w.items, w.next)) && n <= |s.bursts|
    ensures var w' := StartBursts(s, w, n); Good(Eager(w'.items, w'.next)) && w'.bus == w.bus
  {
    hide Insert, Good, Period;
    if n > 0 {
      BurstsGood(s, w, n - 1);
      var w1, b := StartBursts(s, w, n - 1), s.bursts[n - 1];
      if Effective(b) {
        PostGood(w1, b.atMs * 1000, FirstBlock(s, b));
      }
    }
  }

  lemma StartGood(s: Setup)
    ensures var w := StartAudio(s, Nothing(s)); Good(Eager(w.items, w.next)) && w.bus.now == 0
  {
    hide Insert, Period, AudioPeriod, TokenCapacity, RefillRate;
    PostGood(Nothing(s), AudioPeriod(s), AudioTick);
  }

  /** The clock accepts the first event of a simulation exactly when no burst starts before time zero. */
  lemma FirstEventAcceptedIff(s: Setup)
    ensures ClockAccepts(Initial(s)) <==>
      forall i :: 0 <= i < |s.bursts| && Effective(s.bursts[i]) ==> s.bursts[i].atMs >= 0
  {
    hide Insert, StartAudio, Nothing, Period, Fresh;
    var w1 := StartAudio(s, Nothing(s));
    StartGood(s);
    BurstsGood(s, w1, |s.bursts|);
    var w2 := StartBursts(s, w1, |s.bursts|);
    PredictorGood(s, w2);
    var w := Initial(s);
    if i :| 0 <= i < |s.bursts| && Effective(s.bursts[i]) && s.bursts[i].atMs < 0 {
      BurstScheduled(s, w1, |s.bursts|, i);
      var it :| it in w2.items && it.when == s.bursts[i].atMs * 1000;
      FirstIsEarliest(w.items, it);
    } else {
      StartsLater(s);
    }
  }

  lemma StartsLater(s: Setup)
    requires forall i :: 0 <= i < |s.bursts| && Effective(s.bursts[i]) ==> s.bursts[i].atMs >= 0
    ensures ClockAccepts(Initial(s)) && Initial(s).bus.now == 0
  {
    hide Insert, StartAudio, Nothing, Period, Fresh;
    StartGood(s);
    AudioStartsLater(s);
    BurstsStartLater(s, StartAudio(s, Nothing(s)), |s.bursts|);
    BurstsGood(s, StartAudio(s, Nothing(s)), |s.bursts|);
    PredictorGood(s, StartBursts(s, StartAudio(s, Nothing(s)), |s.bursts|));
    assert forall it :: it in Initial(s).items ==> it.when >= 0;
  }

  lemma AudioStartsLater(s: Setup)
    ensures forall it :: it in StartAudio(s, Nothing(s)).items ==> it.when >= 0
  {
    hide TokenCapacity, RefillRate, AudioPeriod;
    InsertMembers([], Item(AudioPeriod(s), 0, AudioTick));
  }

  lemma {:induction false} BurstsStartLater(s: Setup, w: World, n: nat)
    requires n <= |s.bursts| && forall i :: 0 <= i < |s.bursts| && Effective(s.bursts[i]) ==> s.bursts[i].atMs >= 0
    requires forall it :: it in w.items ==> it.when >= 0
    ensures forall it :: it in StartBursts(s, w, n).items ==> it.when >= 0
  {
    hide Insert, Period;
    if n > 0 {
      BurstsStartLater(s, w, n - 1);
      var w1, b := StartBursts(s, w, n - 1), s.bursts[n - 1];
      if Effective(b) {
        InsertMembers(w1.items, Item(b.atMs * 1000, w1.next, FirstBlock(s, b)));
      }
    }
  }
}
