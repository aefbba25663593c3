/** The bus scheduler on values: every branch of `src/scheduler.cpp`, for both policies.

    The operations of the scheduler are compositions of six acts. `Do` gives the
    effect of an act, `Enabled` the guard under which the code performs it, so a
    run of the scheduler is a sequence of states joined by enabled acts. */
module Scheduling {
  import opened Base
  import opened Configuration

  datatype Txn = Txn(id: nat, source: Source, inst: nat, qos: QosTag, size: nat,
                     issuedAt: Time, deadline: Time)

  datatype DmaPath = NoDma | Bounce | NeuroDma

  /** `uid` is the serial number of acceptance. No branch reads it: it is the identity of a
      transaction, which `tx.id` is not, because every source numbers its own transactions. */
  datatype Pending = Pending(uid: nat, tx: Txn, remaining: nat, arrivedAt: Time, started: bool,
                             bw: pos, quantum: pos, path: DmaPath,
                             cpuCycles: nat, decompressCycles: nat, sglEntries: nat)

  datatype Lane = FifoLane | CritLane | HighLane | NormLane

  /** The state of the two scheduler classes behind `pick_next` and `on_arrive`. */
  datatype Discipline =
    | FifoQ(queue: seq<Pending>)
    | QosQ(crit: seq<Pending>, high: seq<Pending>, norm: seq<Pending>,
           tokens: real, lastRefill: Time, capacity: real, rate: real,
           vfinHigh: real, vfinNorm: real)

  /** A transaction on the bus together with the window of its current quantum. */
  datatype Slot = Slot(p: Pending, startAt: Time, fireAt: Time)

  datatype Kpi = Kpi(issued: nat, completed: nat, dropped: nat,
                     audioCompleted: nat, audioDropped: nat,
                     audioLatMax: Time, audioLatMean: real, audioSamples: seq<int>,
                     weightLatMax: Time, cpuCycles: nat, decompressCycles: nat, sglTotal: nat)

  /** What the bus did, newest record last. */
  datatype Rec =
    | Arrived(p: Pending, at: Time)
    | Dropped(p: Pending, at: Time)
    | Started(p: Pending, at: Time)
    | Quantum(p: Pending, at: Time, lane: Lane, us: int, charge: nat)
    | Served(p: Pending, at: Time, us: int, bytes: nat)
    | Completed(p: Pending, at: Time)

  datatype Trace = Empty | Snoc(past: Trace, last: Rec)

  datatype Bus = Bus(cfg: Config, now: Time, slot: Option<Slot>, d: Discipline, kpi: Kpi, log: Trace)

  // ---- Admission parameters (accept) ----

  function PathFor(c: Config, s: Source): DmaPath {
    if s != Weight then NoDma else if c.neuroDma then NeuroDma else Bounce
  }

  function CpuCyclesFor(c: Config, tx: Txn): nat {
    (if tx.source != Weight then 0
     else if c.neuroDma then c.dmaSetupCycles
     else tx.size * c.cyclesPerByte)
    + (if tx.source != Audio && c.compression == InlineHw then c.hwSetupCycles else 0)
  }

  function DecompressCyclesFor(c: Config, tx: Txn): nat {
    if tx.source != Audio && c.compression == Cpu then tx.size * c.cpuCyclesPerByte else 0
  }

  function SglEntriesFor(c: Config, tx: Txn): nat {
    if tx.source == Weight && c.neuroDma then CeilDiv(tx.size, c.sglEntryBytes) else 1
  }

  function NewPending(c: Config, uid: nat, tx: Txn, now: Time): Pending {
    ServableIsExact(c);
    Pending(uid, tx, tx.size, now, false, EffectiveBw(c, tx.source), QuantumFor(c, tx.source),
            PathFor(c, tx.source), CpuCyclesFor(c, tx), DecompressCyclesFor(c, tx),
            SglEntriesFor(c, tx))
  }

  // ---- One quantum (schedule_quantum_end, on_quantum_end) ----

  function ChunkBytes(p: Pending): pos {
    MulPos(p.bw, p.quantum);
    p.bw * p.quantum
  }

  function ServiceUs(p: Pending): pos {
    if p.remaining <= ChunkBytes(p) then Max(1, p.remaining / p.bw) else p.quantum
  }

  function ServedBytes(p: Pending): nat {
    Min(p.remaining, ChunkBytes(p))
  }

  function AfterQuantum(p: Pending): Pending {
    p.(remaining := p.remaining - ServedBytes(p))
  }

  predicate Overdue(p: Pending, t: Time) {
    p.tx.deadline > 0 && t >= p.tx.deadline
  }

  // ---- Queues (on_arrive, and the pops of pick_next) ----

  function LaneOf(d: Discipline, p: Pending): Lane {
    if d.FifoQ? then FifoLane
    else match p.tx.qos
      case Critical => CritLane
      case High => HighLane
      case Normal => NormLane
  }

  function Queue(d: Discipline, lane: Lane): seq<Pending> {
    match d
    case FifoQ(q) => if lane == FifoLane then q else []
    case QosQ(c, h, n, _, _, _, _, _, _) =>
      match lane
      case FifoLane => []
      case CritLane => c
      case HighLane => h
      case NormLane => n
  }

  function SetQueue(d: Discipline, lane: Lane, q: seq<Pending>): Discipline {
    match d
    case FifoQ(_) => if lane == FifoLane then FifoQ(q) else d
    case QosQ(_, _, _, _, _, _, _, _, _) =>
      match lane
      case FifoLane => d
      case CritLane => d.(crit := q)
      case HighLane => d.(high := q)
      case NormLane => d.(norm := q)
  }

  function Push(d: Discipline, p: Pending): Discipline {
    SetQueue(d, LaneOf(d, p), Queue(d, LaneOf(d, p)) + [p])
  }

  function PopFrom(d: Discipline, lane: Lane): Discipline
    requires Queue(d, lane) != []
  {
    SetQueue(d, lane, Queue(d, lane)[1..])
  }

  // ---- Token bucket and virtual time ----

  function RefillRate(c: Config): real {
    c.bus as real * c.criticalPct as real / 100.0
  }

  function TokenCapacity(c: Config): real {
    RefillRate(c) * 10000.0
  }

  function RefillTokens(d: Discipline, now: Time): Discipline {
    match d
    case FifoQ(_) => d
    case QosQ(_, _, _, tokens, last, capacity, rate, _, _) =>
      if now - last > 0 then
        d.(tokens := RMin(capacity, tokens + (now - last) as real * rate), lastRefill := now)
      else d
  }

  function ClassWeight(w: int): pos {
    Max(1, w)
  }

  /** Bytes charged for picking `p`. The critical charge goes through a 32-bit cast. */
  function ChargeOf(c: Config, lane: Lane, p: Pending): nat {
    match lane
    case FifoLane => 0
    case CritLane => Min(p.remaining, U32(QuantumBytes(c)))
    case _ => Min(p.remaining, QuantumBytes(c))
  }

  function Bill(c: Config, d: Discipline, lane: Lane, charge: nat): Discipline
    requires lane != FifoLane ==> d.QosQ?
  {
    match lane
    case FifoLane => d
    case CritLane => d.(tokens := d.tokens - charge as real)
    case HighLane => d.(vfinHigh := d.vfinHigh + charge as real / ClassWeight(c.weightHigh) as real)
    case NormLane => d.(vfinNorm := d.vfinNorm + charge as real / ClassWeight(c.weightNormal) as real)
  }

  // ---- Choosing (pick_next) ----

  /** The lane whose head is checked for an expired deadline before a pick. */
  function GuardedLane(d: Discipline): Lane {
    if d.FifoQ? then FifoLane else CritLane
  }

  predicate HeadExpired(b: Bus) {
    var q := Queue(b.d, GuardedLane(b.d));
    q != [] && Overdue(q[0], b.now) && !q[0].started
  }

  predicate CriticalAffordable(c: Config, d: Discipline)
    requires d.QosQ? && d.crit != []
  {
    d.tokens >= ChargeOf(c, CritLane, d.crit[0]) as real
  }

  function BulkChoice(d: Discipline): Option<Lane>
    requires d.QosQ?
  {
    if d.high == [] && d.norm == [] then None
    else if d.norm == [] then Some(HighLane)
    else if d.high == [] then Some(NormLane)
    else if d.vfinHigh <= d.vfinNorm then Some(HighLane)
    else Some(NormLane)
  }

  function Choice(c: Config, d: Discipline): (lane: Option<Lane>)
    ensures lane.Some? ==> Queue(d, lane.value) != []
    ensures lane.Some? && lane.value != FifoLane ==> d.QosQ?
  {
    match d
    case FifoQ(q) => if q == [] then None else Some(FifoLane)
    case QosQ(crit, _, _, _, _, _, _, _, _) =>
      if crit != [] && CriticalAffordable(c, d) then Some(CritLane) else BulkChoice(d)
  }

  // ---- Acts ----

  datatype Act = Advance(t: Time) | Arrive(tx: Txn) | Drop | Refill | Begin | Finish

  predicate Refilled(b: Bus) {
    b.d.QosQ? ==> b.d.lastRefill == b.now
  }

  predicate Enabled(b: Bus, a: Act) {
    match a
    case Advance(t) => b.now <= t && (b.slot.Some? ==> t <= b.slot.value.fireAt)
    case Arrive(tx) => tx.issuedAt <= b.now
    case Drop => b.slot.None? && HeadExpired(b)
    case Refill => b.slot.None?
    case Begin => b.slot.None? && !HeadExpired(b) && Refilled(b) && Choice(b.cfg, b.d).Some?
    case Finish => b.slot.Some? && b.slot.value.fireAt == b.now
  }

  function Admit(b: Bus, tx: Txn): Bus {
    var p := NewPending(b.cfg, b.kpi.issued, tx, b.now);
    b.(d := Push(b.d, p), kpi := b.kpi.(issued := b.kpi.issued + 1), log := Snoc(b.log, Arrived(p, b.now)))
  }

  function CountDrop(k: Kpi, p: Pending): Kpi {
    k.(dropped := k.dropped + 1,
       audioDropped := k.audioDropped + if p.tx.source == Audio then 1 else 0)
  }

  function DropHead(b: Bus): Bus
    requires HeadExpired(b)
  {
    var lane := GuardedLane(b.d);
    var p := Queue(b.d, lane)[0];
    b.(d := PopFrom(b.d, lane), kpi := CountDrop(b.kpi, p), log := Snoc(b.log, Dropped(p, b.now)))
  }

  /** Pop the head of `lane` and pay for it. */
  function Take(b: Bus, lane: Lane): Bus
    requires Choice(b.cfg, b.d) == Some(lane)
  {
    var p := Queue(b.d, lane)[0];
    b.(d := Bill(b.cfg, PopFrom(b.d, lane), lane, ChargeOf(b.cfg, lane, p)))
  }

  /** Put a picked transaction on the bus for one quantum. */
  function Launch(b: Bus, lane: Lane, p: Pending): Bus {
    var p' := p.(started := true);
    var log := if p.started then b.log else Snoc(b.log, Started(p', b.now));
    b.(slot := Some(Slot(p', b.now, b.now + ServiceUs(p))),
       log := Snoc(log, Quantum(p', b.now, lane, ServiceUs(p), ChargeOf(b.cfg, lane, p))))
  }

  function CountCompletion(k: Kpi, p: Pending, now: Time): Kpi {
    var e2e := now - p.tx.issuedAt;
    var k1 := k.(completed := k.completed + 1,
                 cpuCycles := k.cpuCycles + p.cpuCycles,
                 decompressCycles := k.decompressCycles + p.decompressCycles,
                 sglTotal := k.sglTotal + p.sglEntries);
    match p.tx.source
    case Audio =>
      k1.(audioCompleted := k.audioCompleted + 1,
          audioLatMax := Max(k.audioLatMax, e2e),
          audioLatMean := k.audioLatMean + (e2e as real - k.audioLatMean) / (k.audioCompleted + 1) as real,
          audioSamples := k.audioSamples + [Max(0, e2e)])
    case Weight => k1.(weightLatMax := Max(k.weightLatMax, e2e))
    case Texture => k1
  }

  /** End of the running quantum: complete, drop or requeue. */
  function Retire(b: Bus): Bus
    requires b.slot.Some?
  {
    var s := b.slot.value;
    var p := AfterQuantum(s.p);
    var log := Snoc(b.log, Served(p, b.now, s.fireAt - s.startAt, ServedBytes(s.p)));
    if p.remaining == 0 then
      b.(slot := None, kpi := CountCompletion(b.kpi, p, b.now), log := Snoc(log, Completed(p, b.now)))
    else if Overdue(p, b.now) then
      b.(slot := None, kpi := CountDrop(b.kpi, p), log := Snoc(log, Dropped(p, b.now)))
    else
      b.(slot := None, d := Push(b.d, p), log := log)
  }

  function Do(b: Bus, a: Act): Bus
    requires Enabled(b, a)
  {
    match a
    case Advance(t) => b.(now := t)
    case Arrive(tx) => Admit(b, tx)
    case Drop => DropHead(b)
    case Refill => b.(d := RefillTokens(b.d, b.now))
    case Begin =>
      var lane := Choice(b.cfg, b.d).value;
      Launch(Take(b, lane), lane, Queue(b.d, lane)[0])
    case Finish => Retire(b)
  }

  // ---- The scheduler's own operations ----

  function DropExpired(b: Bus): Bus
    requires b.slot.None?
    decreases |Queue(b.d, GuardedLane(b.d))|
  {
    if HeadExpired(b) then DropExpired(Do(b, Drop)) else b
  }

  /** Everything `pick_next` does before it takes a transaction. */
  function Prepare(b: Bus): Bus
    requires b.slot.None?
  {
    DropExpired(Do(b, Refill))
  }

  function StartIfIdle(b: Bus): Bus {
    if b.slot.Some? then b
    else
      var b1 := Prepare(b);
      match Choice(b1.cfg, b1.d)
      case None => b1
      case Some(lane) => Launch(Take(b1, lane), lane, Queue(b1.d, lane)[0])
  }

  /** `Scheduler::accept`. */
  function Accept(b: Bus, tx: Txn): Bus {
    StartIfIdle(Admit(b, tx))
  }

  /** `Scheduler::on_quantum_end`. */
  function QuantumEnd(b: Bus): Bus
    requires b.slot.Some?
  {
    StartIfIdle(Retire(b))
  }

  const ZERO_KPI := Kpi(0, 0, 0, 0, 0, 0, 0.0, [], 0, 0, 0, 0)

  function FreshDiscipline(c: Config): Discipline {
    if c.policy == Fifo then FifoQ([])
    else QosQ([], [], [], TokenCapacity(c), 0, TokenCapacity(c), RefillRate(c), 0.0, 0.0)
  }

  function Fresh(c: Config): Bus {
    Bus(c, 0, None, FreshDiscipline(c), ZERO_KPI, Empty)
  }
}
