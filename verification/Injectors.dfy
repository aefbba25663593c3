/** The traffic generators: objects that number their transactions and put themselves back into the
    event queue (`src/injector.cpp`). Each method that is the body of a scheduled closure is proved
    against the handler on values. */
module Injectors {
  import opened Base
  import opened Configuration
  import opened Scheduling
  import opened Events
  import opened EventQueues
  import opened Prefetching
  import opened Simulation
  import opened Schedulers

  /** The scheduler and the event queue are in the state that `w` describes. */
  ghost predicate Shows(w: World, sched: Scheduler, q: EventQueue)
    reads sched, sched.clock, sched.hist, q
  {
    w.bus == sched.Model() && w.items == q.pending && w.next == q.nextSeq
  }

  lemma InstallBooks(w: World, bus: Bus)
    ensures Install(w, bus) ==
      w.(bus := bus, items := Booked(w.items, w.next, bus.slot), next := w.next + if bus.slot.Some? then 1 else 0)
  {
  }

  lemma SubmitBooks(w: World, tx: Txn)
    ensures var bus := Accept(w.bus, tx);
      Submit(w, tx) ==
        w.(bus := bus,
           items := if w.bus.slot.None? then Booked(w.items, w.next, bus.slot) else w.items,
           next := w.next + if w.bus.slot.None? && bus.slot.Some? then 1 else 0)
  {
    InstallBooks(w, Accept(w.bus, tx));
  }

  /** Hand a transaction to the scheduler. */
  method Offer(ghost w: World, sink: Scheduler, q: EventQueue, tx: Txn)
    requires sink.Valid() && q.Valid() && sink.q == q && Shows(w, sink, q)
    modifies sink, q
    ensures sink.Valid() && q.Valid() && Shows(Submit(w, tx), sink, q)
  {
    SubmitBooks(w, tx);
    hide Booked, Submit, Scheduling.Accept;
    sink.Accept(tx);
  }

  class AudioTrafficGen {
    const cfg: AudioFlow
    const periodUs: pos
    var nextId: nat

    constructor (cfg: AudioFlow)
      ensures this.cfg == cfg && nextId == 0 && periodUs == Period(cfg.packetBytes, cfg.rate)
    {
      this.cfg, periodUs, nextId := cfg, Period(cfg.packetBytes, cfg.rate), 0;
    }

    method ScheduleNext(ghost s: Setup, ghost w: World, clock: Clock, q: EventQueue, stopAtUs: Time)
      requires q.Valid() && w.items == q.pending && w.next == q.nextSeq && w.bus.now == clock.now
      requires periodUs == AudioPeriod(s) && stopAtUs == StopAt(s)
      modifies q
      ensures q.Valid() && ScheduleAudio(s, w).items == q.pending && ScheduleAudio(s, w).next == q.nextSeq
    {
      var when := clock.now + periodUs;
      if when >= stopAtUs {
        return;
      }
      var h := q.Schedule(when, AudioTick);
    }

    /** The scheduled closure: emit one packet, then go round again. */
    method Fire(ghost s: Setup, ghost w: World, clock: Clock, q: EventQueue, sink: Scheduler, stopAtUs: Time)
      requires sink.Valid() && q.Valid() && sink.q == q && sink.clock == clock && Shows(w, sink, q)
      requires cfg == s.audio && periodUs == AudioPeriod(s) && stopAtUs == StopAt(s) && w.ids.audio == nextId
      modifies this, sink, q
      ensures sink.Valid() && q.Valid() && Shows(OnAudio(s, w), sink, q) && OnAudio(s, w).ids == w.ids.(audio := nextId)
    {
      hide AudioPeriod, Submit, Insert;
      nextId := nextId + 1;
      var t := Txn(nextId, Audio, 0, cfg.qos, cfg.packetBytes, clock.now, clock.now + cfg.deadlineUs);
      ghost var w1 := w.(ids := w.ids.(audio := nextId));
      assert t == AudioTxn(s, w);
      Offer(w1, sink, q, t);
      SubmitIds(w1, t);
      ScheduleNext(s, Submit(w1, t), clock, q, stopAtUs);
    }
  }

  lemma SubmitIds(w: World, tx: Txn)
    ensures Submit(w, tx).ids == w.ids && Submit(w, tx).pred == w.pred
  {
  }

  class TextureTrafficGen {
    const cfg: TextureFlow
    var nextId: nat

    constructor (cfg: TextureFlow)
      ensures this.cfg == cfg && nextId == 0
    {
      this.cfg, nextId := cfg, 0;
    }

    method ScheduleBurst(ghost s: Setup, ghost w: World, q: EventQueue, b: Burst)
      requires q.Valid() && w.items == q.pending && w.next == q.nextSeq && cfg == s.texture
      modifies q
      ensures q.Valid() && StartBurst(s, w, b).items == q.pending && StartBurst(s, w, b).next == q.nextSeq
    {
      if b.rate <= 0 || b.durationMs <= 0 {
        return;
      }
      var startAtUs := b.atMs * 1000;
      var endUs := startAtUs + b.durationMs * 1000;
      ScheduleBlock(w, q, startAtUs, endUs, Period(cfg.blockBytes, b.rate));
    }

    method ScheduleBlock(ghost w: World, q: EventQueue, atUs: Time, burstEndUs: Time, periodUs: pos)
      requires q.Valid() && w.items == q.pending && w.next == q.nextSeq
      modifies q
      ensures q.Valid()
      ensures var w' := Simulation.ScheduleBlock(w, atUs, burstEndUs, periodUs);
        w'.items == q.pending && w'.next == q.nextSeq
    {
      if atUs >= burstEndUs {
        return;
      }
      var h := q.Schedule(atUs, TextureBlock(atUs, burstEndUs, periodUs));
    }

    /** The scheduled closure: emit one block, then schedule the next. */
    method Fire(ghost s: Setup, ghost w: World, clock: Clock, q: EventQueue, sink: Scheduler,
                atUs: Time, burstEndUs: Time, periodUs: pos)
      requires sink.Valid() && q.Valid() && sink.q == q && sink.clock == clock && Shows(w, sink, q)
      requires cfg == s.texture && w.ids.texture == nextId
      modifies this, sink, q
      ensures var w' := OnTexture(s, w, atUs, burstEndUs, periodUs);
        sink.Valid() && q.Valid() && Shows(w', sink, q) && w'.ids == w.ids.(texture := nextId)
    {
      hide Submit, Insert;
      nextId := nextId + 1;
      var t := Txn(nextId, Texture, 0, cfg.qos, cfg.blockBytes, clock.now, 0);
      ghost var w1 := w.(ids := w.ids.(texture := nextId));
      assert t == TextureTxn(s, w);
      Offer(w1, sink, q, t);
      SubmitIds(w1, t);
      ScheduleBlock(Submit(w1, t), q, atUs + periodUs, burstEndUs, periodUs);
    }
  }

  class AIWeightInjector {
    const sizes: LodSizes
    const qos: QosTag
    var nextId: nat

    constructor (sizes: LodSizes, qos: QosTag)
      ensures this.sizes == sizes && this.qos == qos && nextId == 0
    {
      this.sizes, this.qos, nextId := sizes, qos, 0;
    }

    /** False where the original throws: there is no such level. */
    method SchedulePrefetch(q: EventQueue, atUs: Time, npc: nat, lod: int) returns (ok: bool)
      requires q.Valid()
      modifies q
      ensures q.Valid() && (ok <==> IsLod(lod))
      ensures q.pending ==
        if ok then Insert(old(q.pending), Item(atUs, old(q.nextSeq), WeightIssue(npc, Encode(sizes, lod))))
        else old(q.pending)
      ensures q.nextSeq == old(q.nextSeq) + if ok then 1 else 0
    {
      var sizeMb;
      match lod {
        case 0 => sizeMb := sizes.lod0Mb;
        case 1 => sizeMb := sizes.lod1Mb;
        case 2 => sizeMb := sizes.lod2Mb;
        case _ => return false;
      }
      var sizeBytes := U32(U32(sizeMb) * MB);
      var h := q.Schedule(atUs, WeightIssue(npc, sizeBytes));
      ok := true;
    }

    /** The scheduled closure: the transfer of the weights begins. */
    method Fire(ghost s: Setup, ghost w: World, clock: Clock, q: EventQueue, sink: Scheduler, npc: nat, size: nat)
      requires sink.Valid() && q.Valid() && sink.q == q && sink.clock == clock && Shows(w, sink, q)
      requires qos == s.weightQos && w.ids.weight == nextId
      modifies this, sink, q
      ensures var w' := OnWeight(s, w, npc, size);
        sink.Valid() && q.Valid() && Shows(w', sink, q) && w'.ids == w.ids.(weight := nextId)
    {
      hide Submit;
      nextId := nextId + 1;
      var t := Txn(nextId, Weight, npc, qos, size, clock.now, 0);
      ghost var w1 := w.(ids := w.ids.(weight := nextId));
      assert t == WeightTxn(s, w, npc, size);
      Offer(w1, sink, q, t);
      SubmitIds(w1, t);
    }
  }
}
