/** When the events of the two self-scheduling chains, audio and predictor, are pending. */
module EventTimes {
  import opened Base
  import opened Prefetching
  import opened Scheduling
  import opened Events
  import opened EventQueues
  import opened Simulation

  datatype Chain = Sounding | Predicting

  predicate OfChain(ev: Event, chain: Chain) {
    match chain
    case Sounding => ev.AudioTick?
    case Predicting => ev.PredictorTick?
  }

  /** The times of the pending events of the chain. */
  function PendingTimes(items: seq<Item>, chain: Chain): seq<Time> {
    if items == [] then []
    else (if OfChain(items[0].ev, chain) then [items[0].when] else []) + PendingTimes(items[1..], chain)
  }

  lemma {:induction false} InsertPending(items: seq<Item>, it: Item, chain: Chain)
    ensures !OfChain(it.ev, chain) ==> PendingTimes(Insert(items, it), chain) == PendingTimes(items, chain)
    ensures OfChain(it.ev, chain) && PendingTimes(items, chain) == [] ==>
      PendingTimes(Insert(items, it), chain) == [it.when]
  {
    if items == [] || Earlier(it, items[0]) {
      assert ([it] + items)[1..] == items;
    } else {
      InsertPending(items[1..], it, chain);
      assert ([items[0]] + Insert(items[1..], it))[1..] == Insert(items[1..], it);
    }
  }

  lemma PostPending(w: World, when: Time, ev: Event, chain: Chain)
    ensures !OfChain(ev, chain) ==> PendingTimes(Post(w, when, ev).items, chain) == PendingTimes(w.items, chain)
    ensures OfChain(ev, chain) && PendingTimes(w.items, chain) == [] ==>
      PendingTimes(Post(w, when, ev).items, chain) == [when]
  {
    InsertPending(w.items, Item(when, w.next, ev), chain);
  }

  lemma FirstPending(w: World, chain: Chain)
    requires w.items != []
    ensures PendingTimes(w.items, chain) ==
      (if OfChain(w.items[0].ev, chain) then [w.items[0].when] else []) + PendingTimes(Pull(w).items, chain)
  {
  }

  lemma InstallPending(w: World, bus: Bus, chain: Chain)
    ensures PendingTimes(Install(w, bus).items, chain) == PendingTimes(w.items, chain)
  {
    hide PendingTimes, Insert;
    if bus.slot.Some? {
      PostPending(w.(bus := bus), bus.slot.value.fireAt, QuantumDone(bus.slot.value.p), chain);
    }
  }

  lemma SubmitPending(w: World, tx: Txn, chain: Chain)
    ensures PendingTimes(Submit(w, tx).items, chain) == PendingTimes(w.items, chain)
  {
    hide PendingTimes, Install, Accept;
    InstallPending(w, Accept(w.bus, tx), chain);
  }

  lemma {:induction false} PostAllPending(s: Setup, w: World, rs: seq<Request>, chain: Chain)
    ensures PendingTimes(PostAll(s, w, rs).items, chain) == PendingTimes(w.items, chain)
  {
    hide PendingTimes, Insert, Encode;
    if rs != [] {
      var init, r := rs[..|rs| - 1], rs[|rs| - 1];
      PostAllPending(s, w, init, chain);
      PostPending(PostAll(s, w, init), w.bus.now, WeightIssue(r.npc, Encode(s.cfg.lodSizes, r.lod)), chain);
    }
  }

  // ---- Handlers leave the other chain alone ----

  lemma AudioPending(s: Setup, w: World, chain: Chain)
    requires chain != Sounding
    ensures PendingTimes(OnAudio(s, w).items, chain) == PendingTimes(w.items, chain)
  {
    hide PendingTimes, Submit, Insert, AudioPeriod;
    var w1 := w.(ids := w.ids.(audio := w.ids.audio + 1));
    SubmitPending(w1, AudioTxn(s, w), chain);
    var w2 := Submit(w1, AudioTxn(s, w));
    PostPending(w2, w2.bus.now + AudioPeriod(s), AudioTick, chain);
  }

  lemma TexturePending(s: Setup, w: World, at: Time, burstEnd: Time, period: pos, chain: Chain)
    ensures PendingTimes(OnTexture(s, w, at, burstEnd, period).items, chain) == PendingTimes(w.items, chain)
  {
    hide PendingTimes, Submit, Insert;
    var w1 := w.(ids := w.ids.(texture := w.ids.texture + 1));
    SubmitPending(w1, TextureTxn(s, w), chain);
    PostPending(Submit(w1, TextureTxn(s, w)), at + period, TextureBlock(at + period, burstEnd, period), chain);
  }

  lemma WeightPending(s: Setup, w: World, npc: nat, size: nat, chain: Chain)
    ensures PendingTimes(OnWeight(s, w, npc, size).items, chain) == PendingTimes(w.items, chain)
  {
    hide PendingTimes, Submit;
    SubmitPending(w.(ids := w.ids.(weight := w.ids.weight + 1)), WeightTxn(s, w, npc, size), chain);
  }

  lemma TickPending(s: Setup, w: World, chain: Chain)
    requires chain != Predicting
    ensures PendingTimes(OnTick(s, w).items, chain) == PendingTimes(w.items, chain)
  {
    hide PendingTimes, Insert, Tick, PostAll;
    var (p, rs) := Tick(s, w.pred, w.bus.now);
    PostAllPending(s, w.(pred := p), rs, chain);
    var w2 := PostAll(s, w.(pred := p), rs);
    PostPending(w2, w2.bus.now + s.tickUs, PredictorTick, chain);
  }

  lemma {:induction false} BurstPending(s: Setup, w: World, n: nat, chain: Chain)
    requires n <= |s.bursts|
    ensures PendingTimes(StartBursts(s, w, n).items, chain) == PendingTimes(w.items, chain)
  {
    hide PendingTimes, Insert, Period;
    if n > 0 {
      BurstPending(s, w, n - 1, chain);
      var b := s.bursts[n - 1];
      if b.rate > 0 && b.durationMs > 0 {
        var at, burstEnd := b.atMs * 1000, b.atMs * 1000 + b.durationMs * 1000;
        var ev := TextureBlock(at, burstEnd, Period(s.texture.blockBytes, b.rate));
        PostPending(StartBursts(s, w, n - 1), at, ev, chain);
      }
    }
  }
}
