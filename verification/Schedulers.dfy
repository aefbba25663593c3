/** The scheduler object: the methods of `src/scheduler.cpp`, updating their fields in place, proved
    against the operations on values. */
module Schedulers {
  import opened Base
  import opened Configuration
  import opened Scheduling
  import opened Events
  import opened EventQueues
  import opened LatencyHistograms

  /** What `pick_next` does: prepare, then take and pay for the chosen transaction, if there is one. */
  ghost predicate Picks(b: Bus, b': Bus, r: Option<Pending>, lane: Lane)
    requires b.slot.None?
  {
    var b1 := Prepare(b);
    match Choice(b1.cfg, b1.d)
    case None => r == None && b' == b1
    case Some(l) => lane == l && r == Some(Queue(b1.d, l)[0]) && b' == Take(b1, l)
  }

  lemma PicksStarts(b: Bus, b': Bus, r: Option<Pending>, lane: Lane)
    requires b.slot.None? && Picks(b, b', r, lane)
    ensures StartIfIdle(b) == if r.Some? then Launch(b', lane, r.value) else b'
  {
  }

  /** The pending events once the quantum in progress, if any, has been given an end. */
  function Booked(items: seq<Item>, next: nat, slot: Option<Slot>): seq<Item> {
    if slot.Some? then Insert(items, Item(slot.value.fireAt, next, QuantumDone(slot.value.p))) else items
  }

  class Scheduler {
    const cfg: Config
    const clock: Clock
    const q: EventQueue
    const hist: LatencyHistogram
    const capacity: real
    const rate: real
    var busIdle: bool
    /** The histogram of `hist` stands in for the samples of this record. */
    var kpi: Kpi
    var queue: seq<Pending>
    var qCritical: seq<Pending>
    var qHigh: seq<Pending>
    var qNormal: seq<Pending>
    var tokens: real
    var lastRefill: Time
    var vfinHigh: real
    var vfinNormal: real
    ghost var slot: Option<Slot>
    ghost var log: Trace

    ghost function Waiting(): Discipline
      reads this
    {
      if cfg.policy == Fifo then FifoQ(queue)
      else QosQ(qCritical, qHigh, qNormal, tokens, lastRefill, capacity, rate, vfinHigh, vfinNormal)
    }

    /** The state on values that the fields represent. */
    ghost function Model(): Bus
      reads this, clock, hist
    {
      Bus(cfg, clock.now, slot, Waiting(), kpi.(audioSamples := hist.samples), log)
    }

    ghost predicate Valid()
      reads this, hist, hist.counts
    {
      hist.Valid() && (busIdle <==> slot.None?)
    }

    constructor (cfg: Config, clock: Clock, q: EventQueue)
      ensures Valid() && this.cfg == cfg && this.clock == clock && this.q == q
      ensures Model() == Fresh(cfg).(now := clock.now)
      ensures fresh(hist) && fresh(hist.counts)
    {
      var h := new LatencyHistogram();
      this.cfg, this.clock, this.q, hist := cfg, clock, q, h;
      busIdle, kpi := true, ZERO_KPI;
      queue, qCritical, qHigh, qNormal := [], [], [], [];
      rate, capacity, tokens := RefillRate(cfg), TokenCapacity(cfg), TokenCapacity(cfg);
      lastRefill, vfinHigh, vfinNormal := 0, 0.0, 0.0;
      slot, log := None, Empty;
    }

    // ---- on_arrive ----

    method OnArrive(p: Pending)
      modifies this`queue, this`qCritical, this`qHigh, this`qNormal
      ensures Waiting() == Scheduling.Push(old(Waiting()), p)
    {
      if cfg.policy == Fifo {
        queue := queue + [p];
      } else {
        match p.tx.qos
        case Critical => qCritical := qCritical + [p];
        case High => qHigh := qHigh + [p];
        case Normal => qNormal := qNormal + [p];
      }
    }

    // ---- pick_next ----

    method RefillTokens()
      requires cfg.policy == Qos
      modifies this`tokens, this`lastRefill
      ensures Waiting() == Scheduling.RefillTokens(old(Waiting()), clock.now)
    {
      var dt := clock.now - lastRefill;
      if dt > 0 {
        tokens := RMin(capacity, tokens + dt as real * rate);
        lastRefill := clock.now;
      }
    }

    method CountDropped(p: Pending)
      modifies this`kpi, this`log
      ensures kpi == CountDrop(old(kpi), p) && log == Snoc(old(log), Dropped(p, clock.now))
    {
      kpi := kpi.(dropped := kpi.dropped + 1);
      if p.tx.source == Audio {
        kpi := kpi.(audioDropped := kpi.audioDropped + 1);
      }
      log := Snoc(log, Dropped(p, clock.now));
    }

    method PickNextFifo() returns (r: Option<Pending>, ghost lane: Lane)
      requires Valid() && busIdle && cfg.policy == Fifo
      modifies this`queue, this`kpi, this`log
      ensures Valid() && Picks(old(Model()), Model(), r, lane)
    {
      lane := FifoLane;
      assert Do(Model(), Refill) == Model();
      while queue != []
        invariant Valid() && DropExpired(Model()) == Prepare(old(Model()))
        decreases |queue|
      {
        var front := queue[0];
        if front.tx.deadline > 0 && clock.now >= front.tx.deadline && !front.started {
          ghost var b := Model();
          CountDropped(front);
          queue := queue[1..];
          assert Model() == Do(b, Drop);
          continue;
        }
        break;
      }
      assert !HeadExpired(Model());
      if queue == [] {
        return None, lane;
      }
      r := Some(queue[0]);
      queue := queue[1..];
    }

    method PickNextQos() returns (r: Option<Pending>, ghost lane: Lane)
      requires Valid() && busIdle && cfg.policy == Qos
      modifies this`qCritical, this`qHigh, this`qNormal, this`tokens, this`lastRefill
      modifies this`vfinHigh, this`vfinNormal, this`kpi, this`log
      ensures Valid() && Picks(old(Model()), Model(), r, lane)
    {
      RefillTokens();
      assert Model() == Do(old(Model()), Refill);
      DropExpiredCritical();
      r, lane := PickCritical();
      if r.None? {
        r, lane := PickBulk();
      }
    }

    method DropExpiredCritical()
      requires Valid() && busIdle && cfg.policy == Qos
      modifies this`qCritical, this`kpi, this`log
      ensures Valid() && Model() == DropExpired(old(Model())) && !HeadExpired(Model())
    {
      while qCritical != []
        invariant Valid() && DropExpired(Model()) == DropExpired(old(Model()))
        decreases |qCritical|
      {
        var f := qCritical[0];
        if f.tx.deadline > 0 && clock.now >= f.tx.deadline && !f.started {
          ghost var b := Model();
          CountDropped(f);
          qCritical := qCritical[1..];
          assert Model() == Do(b, Drop);
          continue;
        }
        break;
      }
    }

    /** Strict priority: the critical head, if the tokens cover its charge. */
    method PickCritical() returns (r: Option<Pending>, ghost lane: Lane)
      requires Valid() && busIdle && cfg.policy == Qos
      modifies this`qCritical, this`tokens
      ensures Valid() && lane == CritLane
      ensures var b := old(Model());
        if b.d.crit != [] && CriticalAffordable(b.cfg, b.d) then r == Some(b.d.crit[0]) && Model() == Take(b, CritLane)
        else r == None && Model() == b
    {
      lane := CritLane;
      if qCritical != [] {
        var cost := Min(qCritical[0].remaining, U32(QuantumBytes(cfg)));
        if tokens >= cost as real {
          tokens := tokens - cost as real;
          r := Some(qCritical[0]);
          qCritical := qCritical[1..];
          return;
        }
      }
      r := None;
    }

    /** Weighted fair: the bulk class with the smaller virtual finish time. */
    method PickBulk() returns (r: Option<Pending>, ghost lane: Lane)
      requires Valid() && busIdle && cfg.policy == Qos
      requires qCritical == [] || !CriticalAffordable(cfg, Waiting())
      modifies this`qHigh, this`qNormal, this`vfinHigh, this`vfinNormal
      ensures Valid() && lane != CritLane
      ensures var b := old(Model());
        match Choice(b.cfg, b.d)
        case None => r == None && Model() == b
        case Some(l) => lane == l && r == Some(Queue(b.d, l)[0]) && Model() == Take(b, l)
    {
      var hasHigh, hasNormal := qHigh != [], qNormal != [];
      lane := HighLane;
      if !hasHigh && !hasNormal {
        return None, lane;
      }
      var pickHigh := if hasHigh && !hasNormal then true
                      else if hasNormal && !hasHigh then false
                      else vfinHigh <= vfinNormal;
      if pickHigh {
        var p := qHigh[0];
        qHigh := qHigh[1..];
        vfinHigh := vfinHigh + Min(p.remaining, QuantumBytes(cfg)) as real / Max(1, cfg.weightHigh) as real;
        r := Some(p);
      } else {
        lane := NormLane;
        var p := qNormal[0];
        qNormal := qNormal[1..];
        vfinNormal := vfinNormal + Min(p.remaining, QuantumBytes(cfg)) as real / Max(1, cfg.weightNormal) as real;
        r := Some(p);
      }
    }

    method PickNext() returns (r: Option<Pending>, ghost lane: Lane)
      requires Valid() && busIdle
      modifies this
      ensures Valid() && busIdle && Picks(old(Model()), Model(), r, lane)
    {
      if cfg.policy == Fifo {
        r, lane := PickNextFifo();
      } else {
        r, lane := PickNextQos();
      }
    }

    // ---- The bus pump ----

    /** Book the end of the quantum that `p` is about to have. */
    method ScheduleQuantumEnd(p: Pending, ghost lane: Lane)
      requires q.Valid()
      modifies this`slot, this`log, q
      ensures q.Valid()
      ensures slot == Some(Slot(p, clock.now, clock.now + ServiceUs(p)))
      ensures log == Snoc(old(log), Quantum(p, clock.now, lane, ServiceUs(p), ChargeOf(cfg, lane, p)))
      ensures q.pending == Booked(old(q.pending), old(q.nextSeq), slot) && q.nextSeq == old(q.nextSeq) + 1
    {
      var quantumBytes := p.bw * p.quantum;
      var serviceUs;
      if p.remaining <= quantumBytes {
        serviceUs := p.remaining / p.bw;
        if serviceUs == 0 {
          serviceUs := 1;
        }
      } else {
        serviceUs := p.quantum;
      }
      var fireAt := clock.now + serviceUs;
      var h := q.Schedule(fireAt, QuantumDone(p));
      slot := Some(Slot(p, clock.now, fireAt));
      log := Snoc(log, Quantum(p, clock.now, lane, serviceUs, ChargeOf(cfg, lane, p)));
    }

    /** Put a picked transaction on the bus. */
    method Serve(picked: Pending, ghost lane: Lane)
      requires Valid() && q.Valid()
      modifies this`busIdle, this`slot, this`log, q
      ensures Valid() && q.Valid() && Model() == Launch(old(Model()), lane, picked) && !busIdle
      ensures q.pending == Booked(old(q.pending), old(q.nextSeq), slot) && q.nextSeq == old(q.nextSeq) + 1
    {
      hide Booked;
      busIdle := false;
      var p := picked;
      if !p.started {
        p := p.(started := true);
        log := Snoc(log, Started(p, clock.now));
      }
      ScheduleQuantumEnd(p, lane);
    }

    method StartServiceIfIdle()
      requires Valid() && q.Valid()
      modifies this, q
      ensures Valid() && q.Valid() && Model() == StartIfIdle(old(Model()))
      ensures q.pending == if old(busIdle) then Booked(old(q.pending), old(q.nextSeq), slot) else old(q.pending)
      ensures q.nextSeq == old(q.nextSeq) + if old(busIdle) && !busIdle then 1 else 0
    {
      if !busIdle {
        return;
      }
      var r, lane := PickNext();
      PicksStarts(old(Model()), Model(), r, lane);
      hide Picks, StartIfIdle, Launch, Waiting;
      if r.None? {
        return;
      }
      Serve(r.value, lane);
    }

    /** A transaction arrives. */
    method Accept(tx: Txn)
      requires Valid() && q.Valid()
      modifies this, q
      ensures Valid() && q.Valid() && Model() == Scheduling.Accept(old(Model()), tx)
      ensures q.pending == if old(busIdle) then Booked(old(q.pending), old(q.nextSeq), slot) else old(q.pending)
      ensures q.nextSeq == old(q.nextSeq) + if old(busIdle) && !busIdle then 1 else 0
    {
      var p := NewPending(cfg, kpi.issued, tx, clock.now);
      kpi := kpi.(issued := kpi.issued + 1);
      log := Snoc(log, Arrived(p, clock.now));
      OnArrive(p);
      assert Model() == Admit(old(Model()), tx);
      StartServiceIfIdle();
    }

    /** Count a completed transaction; for a weight transfer, report whose weights have arrived. */
    method Complete(p: Pending) returns (delivered: Option<Txn>)
      requires hist.Valid()
      modifies this`kpi, hist, hist.counts
      ensures hist.Valid()
      ensures kpi.(audioSamples := hist.samples) ==
        CountCompletion(old(kpi.(audioSamples := hist.samples)), p, clock.now)
      ensures delivered == if p.tx.source == Weight then Some(p.tx) else None
    {
      var e2e := clock.now - p.tx.issuedAt;
      delivered := None;
      kpi := kpi.(completed := kpi.completed + 1,
                  cpuCycles := kpi.cpuCycles + p.cpuCycles,
                  decompressCycles := kpi.decompressCycles + p.decompressCycles,
                  sglTotal := kpi.sglTotal + p.sglEntries);
      if p.tx.source == Audio {
        kpi := kpi.(audioCompleted := kpi.audioCompleted + 1, audioLatMax := Max(kpi.audioLatMax, e2e));
        kpi := kpi.(audioLatMean := kpi.audioLatMean + (e2e as real - kpi.audioLatMean) / kpi.audioCompleted as real);
        hist.Record(e2e);
      } else if p.tx.source == Weight {
        kpi := kpi.(weightLatMax := Max(kpi.weightLatMax, e2e));
        delivered := Some(p.tx);
      }
    }

    /** Complete, drop or requeue the transaction whose quantum is over. */
    method Retire(p: Pending) returns (delivered: Option<Txn>)
      requires Valid() && slot.Some? && slot.value.p == p
      modifies this, hist, hist.counts
      ensures Valid() && Model() == Scheduling.Retire(old(Model()))
      ensures delivered == if p.tx.source == Weight && AfterQuantum(p).remaining == 0 then Some(p.tx) else None
    {
      hide LatencyHistogram.Valid;
      delivered := None;
      var quantumBytes := p.bw * p.quantum;
      var served := Min(p.remaining, quantumBytes);
      var p' := p.(remaining := p.remaining - served);
      ghost var b' := Scheduling.Retire(old(Model()));
      assert p' == AfterQuantum(p) && served == ServedBytes(p);
      hide CountCompletion, CountDrop, Scheduling.Push;
      log := Snoc(log, Served(p', clock.now, slot.value.fireAt - slot.value.startAt, served));
      if p'.remaining == 0 {
        delivered := Complete(p');
        log := Snoc(log, Completed(p', clock.now));
      } else if p'.tx.deadline > 0 && clock.now >= p'.tx.deadline {
        CountDropped(p');
      } else {
        OnArrive(p');
      }
      busIdle, slot := true, None;
      assert log == b'.log && Waiting() == b'.d;
      hide Waiting;
    }

    /** The end of the running quantum; afterwards the next one starts. */
    method OnQuantumEnd(p: Pending) returns (delivered: Option<Txn>)
      requires Valid() && q.Valid() && slot.Some? && slot.value.p == p
      modifies this, q, hist, hist.counts
      ensures Valid() && q.Valid() && Model() == QuantumEnd(old(Model()))
      ensures q.pending == Booked(old(q.pending), old(q.nextSeq), slot)
      ensures q.nextSeq == old(q.nextSeq) + if busIdle then 0 else 1
      ensures delivered == if p.tx.source == Weight && AfterQuantum(p).remaining == 0 then Some(p.tx) else None
    {
      hide StartIfIdle, Booked;
      delivered := Retire(p);
      hide Scheduling.Retire;
      StartServiceIfIdle();
    }
  }
}
