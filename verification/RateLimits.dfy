/** What the token bucket means for bytes and for service: when a charge is the bytes served, what that
    bounds, and which critical transactions are never served at all. */
module RateLimits {
  import opened Base
  import opened Configuration
  import opened Scheduling
  import opened Runs
  import opened Lifecycle
  import opened TraceTheorems
  import opened Bandwidth
  import opened RoundRobin
  import opened TokenBucket

  // ---- Charged against served, one quantum ----

  /** The most that a pick from `lane` is charged. */
  function ChargeCap(c: Config, lane: Lane): nat {
    if lane == CritLane then c.bus * c.quantumUs % 0x1_0000_0000 else c.bus * c.quantumUs
  }

  /** A pick is charged what its quantum serves exactly when the cap is the chunk, or both cover the rest. */
  lemma ChargeIsServedExactly(c: Config, p: Pending, lane: Lane)
    requires lane != FifoLane
    ensures ChargeOf(c, lane, p) == ServedBytes(p) <==>
      ChargeCap(c, lane) == ChunkBytes(p) || (p.remaining <= ChargeCap(c, lane) && p.remaining <= ChunkBytes(p))
  {
  }

  /** A bounce transfer is charged for bytes its first quantum does not move. */
  lemma ChargeCanExceedServed()
    ensures exists c: Config, tx: Txn ::
      var p := NewPending(c, 0, tx, 0); ChargeOf(c, HighLane, p) > ServedBytes(p)
  {
    var c: Config := RawConfig(16, Qos, 100, 5, 2, 1, false, 16, 3, 4096, 10, Uncompressed, 2.0, 2.0,
                               16, 10, 2, 5, LodSizes(100, 30, 10));
    var tx := Txn(1, Weight, 0, High, 1600, 0, 0);
    var p := NewPending(c, 0, tx, 0);
    assert BounceBw(c) == 5;
    assert ChargeOf(c, HighLane, p) == 1600 && ServedBytes(p) == 500;
  }

  /** A critical transaction whose compression lifts it above the bus gets bytes it is not charged for. */
  lemma ServedCanExceedCriticalCharge()
    ensures exists c: Config, tx: Txn ::
      var p := NewPending(c, 0, tx, 0);
      tx.qos == Critical && ServedBytes(p) == 4 * ChargeOf(c, CritLane, p) > 0
  {
    var c: Config := RawConfig(16, Qos, 100, 5, 2, 1, true, 16, 3, 4096, 10, InlineHw, 2.0, 4.0,
                               64, 10, 2, 5, LodSizes(100, 30, 10));
    var tx := Txn(1, Texture, 0, Critical, 6400, 0, 0);
    var p := NewPending(c, 0, tx, 0);
    assert c.bus as real * RatioFor(c, Texture) == 64.0;
    assert EffectiveBw(c, Texture) == 64;
    assert ChargeOf(c, CritLane, p) == 1600 && ServedBytes(p) == 6400;
  }

  // ---- The quanta of a run ----

  /** Every quantum was begun with the parameters of its source, from the queue of its class, at its charge. */
  predicate QuantaRight(c: Config, fifo: bool, log: Trace) {
    match log
    case Empty => true
    case Snoc(past, Quantum(p, _, lane, _, charge)) =>
      Made(c, p) && lane == KeyLane(fifo, p) && charge == ChargeOf(c, lane, p) && QuantaRight(c, fifo, past)
    case Snoc(past, _) => QuantaRight(c, fifo, past)
  }

  ghost predicate Right(b: Bus) {
    AllMade(b) && Sorted3(b.d) && QuantaRight(b.cfg, b.d.FifoQ?, b.log)
  }

  lemma HeadMade(b: Bus)
    requires Right(b) && Enabled(b, Begin)
    ensures var lane := Choice(b.cfg, b.d).value;
      Made(b.cfg, Queue(b.d, lane)[0]) && KeyLane(b.d.FifoQ?, Queue(b.d, lane)[0]) == lane
  {
    var lane := Choice(b.cfg, b.d).value;
    BeginSystem(b);
    assert Queue(b.d, lane)[0] in Queue(b.d, lane);
  }

  lemma BeginRight(b: Bus)
    requires Right(b) && Enabled(b, Begin)
    ensures QuantaRight(b.cfg, b.d.FifoQ?, Do(b, Begin).log)
  {
    HeadMade(b);
    hide Right, Sorted3, AllMade, Enabled;
    var lane := Choice(b.cfg, b.d).value;
    var p := Queue(b.d, lane)[0];
    MadeStarted(b.cfg, p, lane);
    hide Made, ChargeOf, KeyLane, ServiceUs, Bill, PopFrom;
  }

  lemma MadeStarted(c: Config, p: Pending, lane: Lane)
    ensures Made(c, p.(started := true)) == Made(c, p)
    ensures ChargeOf(c, lane, p.(started := true)) == ChargeOf(c, lane, p)
    ensures ServedBytes(p.(started := true)) == ServedBytes(p)
    ensures KeyLane(true, p.(started := true)) == KeyLane(true, p)
      && KeyLane(false, p.(started := true)) == KeyLane(false, p)
  {
  }

  lemma QuietRight(b: Bus, a: Act)
    requires QuantaRight(b.cfg, b.d.FifoQ?, b.log) && Enabled(b, a) && a != Begin
    ensures QuantaRight(b.cfg, b.d.FifoQ?, Do(b, a).log)
  {
  }

  lemma ActRight(b: Bus, a: Act)
    requires Right(b) && Enabled(b, a)
    ensures Right(Do(b, a))
  {
    ActMade(b, a);
    ActSorted(b, a);
    if a == Begin {
      BeginRight(b);
    } else {
      QuietRight(b, a);
    }
    hide AllMade, Sorted3, QuantaRight, Do;
  }

  lemma ReachableRight(b: Bus)
    requires Reachable(b)
    ensures Right(b)
  {
    forall c, a | Right(c) && Enabled(c, a) ensures Right(Do(c, a)) {
      ActRight(c, a);
    }
    InvariantRule(Right, b);
  }

  lemma {:induction false} QuantumInLog(c: Config, fifo: bool, log: Trace, p: Pending, at: Time, lane: Lane, us: int,
                                        charge: nat)
    requires QuantaRight(c, fifo, log) && InLog(log, Quantum(p, at, lane, us, charge))
    ensures Made(c, p) && lane == KeyLane(fifo, p) && charge == ChargeOf(c, lane, p)
  {
    if log.last != Quantum(p, at, lane, us, charge) {
      QuantumInLog(c, fifo, log.past, p, at, lane, us, charge);
    }
  }

  lemma AudioCharged(c: Config, p: Pending, lane: Lane)
    requires Made(c, p) && p.tx.source == Audio && lane != FifoLane && c.bus * c.quantumUs < 0x1_0000_0000
    ensures ChargeOf(c, lane, p) == ServedBytes(p)
  {
    ChargeIsServedExactly(c, p, lane);
  }

  /** In every run every critical audio quantum is charged exactly the bytes that it serves. */
  lemma AudioPaysWhatItGets(b: Bus, p: Pending, at: Time, lane: Lane, us: int, charge: nat)
    requires Reachable(b) && b.cfg.bus * b.cfg.quantumUs < 0x1_0000_0000
    requires InLog(b.log, Quantum(p, at, lane, us, charge)) && p.tx.source == Audio && lane != FifoLane
    ensures charge == ServedBytes(p)
  {
    ReachableRight(b);
    QuantumInLog(b.cfg, b.d.FifoQ?, b.log, p, at, lane, us, charge);
    AudioCharged(b.cfg, p, lane);
  }

  // ---- Bytes served to critical audio over a window ----

  predicate CriticalAudio(tx: Txn) {
    tx.source == Audio && tx.qos == Critical
  }

  function AudioServed(log: Trace): nat {
    match log
    case Empty => 0
    case Snoc(past, Served(p, _, _, bytes)) => AudioServed(past) + if CriticalAudio(p.tx) then bytes else 0
    case Snoc(past, _) => AudioServed(past)
  }

  function AudioCharge(log: Trace): nat {
    match log
    case Empty => 0
    case Snoc(past, Quantum(p, _, CritLane, _, charge)) => AudioCharge(past) + if CriticalAudio(p.tx) then charge else 0
    case Snoc(past, _) => AudioCharge(past)
  }

  /** Bytes that the running quantum is going to serve to critical audio. */
  function AudioRunning(s: Option<Slot>): nat {
    if s.Some? && CriticalAudio(s.value.p.tx) then ServedBytes(s.value.p) else 0
  }

  predicate AudioBalanced(b: Bus) {
    AudioServed(b.log) + AudioRunning(b.slot) == AudioCharge(b.log)
  }

  lemma BeginRecords(b: Bus)
    requires b.d.QosQ? && Enabled(b, Begin)
    ensures var lane := Choice(b.cfg, b.d).value;
      var p := Queue(b.d, lane)[0];
      var b' := Do(b, Begin);
      && lane != FifoLane && b.slot.None? && b'.slot.Some? && b'.slot.value.p == p.(started := true)
      && AudioServed(b'.log) == AudioServed(b.log)
      && AudioCharge(b'.log) == AudioCharge(b.log) +
           (if lane == CritLane && CriticalAudio(p.tx) then ChargeOf(b.cfg, lane, p) else 0)
  {
    hide Bill, ServiceUs, ChargeOf;
  }

  lemma BeginBalanced(b: Bus)
    requires Right(b) && b.d.QosQ? && Enabled(b, Begin) && AudioBalanced(b)
    requires b.cfg.bus * b.cfg.quantumUs < 0x1_0000_0000
    ensures AudioBalanced(Do(b, Begin))
  {
    BeginRecords(b);
    HeadMade(b);
    hide Right, Enabled, Do;
    var lane := Choice(b.cfg, b.d).value;
    var p := Queue(b.d, lane)[0];
    MadeStarted(b.cfg, p, lane);
    if CriticalAudio(p.tx) {
      AudioCharged(b.cfg, p, lane);
    }
    hide ChargeOf, ServedBytes, Made;
  }

  lemma QuietBalanced(b: Bus, a: Act)
    requires Enabled(b, a) && a != Begin && AudioBalanced(b)
    ensures AudioBalanced(Do(b, a))
  {
  }

  ghost predicate Billed(b: Bus) {
    Right(b) && (b.d.QosQ? && b.cfg.bus * b.cfg.quantumUs < 0x1_0000_0000 ==> AudioBalanced(b))
  }

  lemma ActBilled(b: Bus, a: Act)
    requires Billed(b) && Enabled(b, a)
    ensures Billed(Do(b, a))
  {
    ActRight(b, a);
    ActSorted(b, a);
    if b.d.QosQ? && b.cfg.bus * b.cfg.quantumUs < 0x1_0000_0000 {
      if a == Begin {
        BeginBalanced(b);
      } else {
        QuietBalanced(b, a);
      }
    }
    hide Right, AudioBalanced, Do, Sorted3;
  }

  lemma ReachableBilled(b: Bus)
    requires Reachable(b)
    ensures Billed(b)
  {
    forall c, a | Billed(c) && Enabled(c, a) ensures Billed(Do(c, a)) {
      ActBilled(c, a);
    }
    InvariantRule(Billed, b);
  }

  /** Audio is part of what the critical class is charged. */
  lemma ActPart(b: Bus, a: Act)
    requires Enabled(b, a)
    ensures CriticalCharge(Do(b, a).log) - CriticalCharge(b.log) >= AudioCharge(Do(b, a).log) - AudioCharge(b.log)
  {
  }

  lemma {:induction false} AudioIsPart(r: seq<Bus>, i: nat, j: nat)
    requires Run(r) && i <= j < |r|
    ensures CriticalCharge(r[j].log) - CriticalCharge(r[i].log) >= AudioCharge(r[j].log) - AudioCharge(r[i].log)
    decreases j
  {
    if i < j {
      AudioIsPart(r, i, j - 1);
      assert StepAt(r, j - 1);
      var a :| Enabled(r[j - 1], a) && r[j] == Do(r[j - 1], a);
      ActPart(r[j - 1], a);
    }
  }

  /** Over any window of a run, the bytes served to critical audio stay within one bucket, the refill of the
      window, and the quantum that was running when the window opened. */
  lemma ServedWindowBound(r: seq<Bus>, i: nat, j: nat)
    requires Run(r) && i <= j < |r| && Reachable(r[0]) && r[i].d.QosQ? && r[j].d.QosQ?
    requires r[0].cfg.bus * r[0].cfg.quantumUs < 0x1_0000_0000
    ensures 100 * (AudioServed(r[j].log) - AudioServed(r[i].log)) <=
      (10000 + (r[j].now - r[i].now)) * (r[i].cfg.bus * r[i].cfg.criticalPct) + 100 * AudioRunning(r[i].slot)
  {
    hide Right, CriticalCharge, AudioServed, AudioCharge, Bucket, TokenCapacity, RefillRate, AudioRunning;
    ReachableExtends(r, i);
    ReachableExtends(r, j);
    ReachableBilled(r[i]);
    ReachableBilled(r[j]);
    AudioIsPart(r, i, j);
    WindowBytes(r, i, j);
    hide Reachable, Run;
  }

  // ---- Critical transactions that are never served ----

  /** The charge for the first quantum of `tx` exceeds the whole bucket. */
  predicate TooDear(c: Config, tx: Txn) {
    && tx.qos == Critical
    && 100 * Min(tx.size, c.bus * c.quantumUs % 0x1_0000_0000) > 10000 * (c.bus * c.criticalPct)
  }

  /** The trace has no service of a transaction that is too dear. */
  predicate Unserved(c: Config, log: Trace) {
    match log
    case Empty => true
    case Snoc(past, r) => (TooDear(c, r.p.tx) ==> r.Arrived? || r.Dropped?) && Unserved(c, past)
  }

  ghost predicate Whole(c: Config, q: seq<Pending>) {
    forall p :: p in q && TooDear(c, p.tx) ==> p.remaining == p.tx.size
  }

  ghost predicate Blocked(b: Bus) {
    b.d.QosQ? ==>
      && Gauged(b) && Sorted3(b.d) && Whole(b.cfg, b.d.crit) && Unserved(b.cfg, b.log)
      && (b.slot.Some? ==> !TooDear(b.cfg, b.slot.value.p.tx))
  }

  /** Whatever is picked is not too dear. */
  lemma PickedIsAffordable(b: Bus)
    requires Blocked(b) && b.d.QosQ? && Enabled(b, Begin)
    ensures !TooDear(b.cfg, Queue(b.d, Choice(b.cfg, b.d).value)[0].tx)
  {
    var lane := Choice(b.cfg, b.d).value;
    var p := Queue(b.d, lane)[0];
    assert p in Queue(b.d, lane);
    assert KeyLane(false, p) == lane;
  }

  lemma WholePush(c: Config, q: seq<Pending>, p: Pending)
    requires Whole(c, q) && (TooDear(c, p.tx) ==> p.remaining == p.tx.size)
    ensures Whole(c, q + [p])
  {
  }

  lemma ActWhole(b: Bus, a: Act)
    requires Blocked(b) && b.d.QosQ? && Enabled(b, a)
    ensures Do(b, a).d.QosQ? && Do(b, a).cfg == b.cfg && Whole(b.cfg, Do(b, a).d.crit)
  {
    ActSorted(b, a);
    var crit := Queue(Do(b, a).d, CritLane);
    match a
    case Advance(t) =>
    case Arrive(tx) =>
      var p := NewPending(b.cfg, b.kpi.issued, tx, b.now);
      PushQueue(b.d, p, CritLane);
      WholePush(b.cfg, b.d.crit, p);
    case Drop => PopQueue(b.d, GuardedLane(b.d), CritLane);
    case Refill => assert crit == b.d.crit;
    case Begin => BeginQueue(b, CritLane);
    case Finish =>
      RetireLane(b, CritLane);
      WholePush(b.cfg, b.d.crit, AfterQuantum(b.slot.value.p));
  }

  lemma ActUnserved(b: Bus, a: Act)
    requires Blocked(b) && b.d.QosQ? && Enabled(b, a)
    ensures Unserved(b.cfg, Do(b, a).log)
    ensures Do(b, a).slot.Some? ==> !TooDear(b.cfg, Do(b, a).slot.value.p.tx)
  {
    if a == Begin {
      PickedIsAffordable(b);
    }
    hide TooDear, Gauged, Sorted3, Whole;
  }

  lemma ActBlocked(b: Bus, a: Act)
    requires Blocked(b) && Enabled(b, a)
    ensures Blocked(Do(b, a))
  {
    if b.d.QosQ? {
      ActGauged(b, a);
      ActSorted(b, a);
      ActWhole(b, a);
      ActUnserved(b, a);
    }
    hide Gauged, Sorted3, Whole, Unserved, TooDear;
  }

  lemma ReachableBlocked(b: Bus)
    requires Reachable(b)
    ensures Blocked(b)
  {
    RealProduct(b.cfg.bus as real, b.cfg.criticalPct as real);
    forall c, a | Blocked(c) && Enabled(c, a) ensures Blocked(Do(c, a)) {
      ActBlocked(c, a);
    }
    InvariantRule(Blocked, b);
  }

  lemma {:induction false} UnservedRecord(c: Config, log: Trace, r: Rec)
    requires Unserved(c, log) && InLog(log, r) && TooDear(c, r.p.tx)
    ensures r.Arrived? || r.Dropped?
  {
    if log.last != r {
      UnservedRecord(c, log.past, r);
    }
  }

  /** In no run, whatever else arrives, is a critical transaction served whose first charge exceeds the whole
      bucket: it waits, and holds up those behind it, until its deadline drops it, if it has one. */
  lemma TooDearForEver(b: Bus, r: Rec)
    requires Reachable(b) && b.d.QosQ? && InLog(b.log, r) && TooDear(b.cfg, r.p.tx)
    ensures r.Arrived? || r.Dropped?
  {
    ReachableBlocked(b);
    UnservedRecord(b.cfg, b.log, r);
  }

  /** Without a critical share nothing critical of positive size is ever served, unless the quantum's
      bytes are a multiple of 2^32, when the 32-bit charge is zero. */
  lemma StarvedForEver(b: Bus, r: Rec)
    requires Reachable(b) && b.d.QosQ? && b.cfg.criticalPct == 0 && b.cfg.bus * b.cfg.quantumUs % 0x1_0000_0000 > 0
    requires InLog(b.log, r) && r.p.tx.qos == Critical && r.p.tx.size > 0
    ensures r.Arrived? || r.Dropped?
  {
    TooDearForEver(b, r);
  }
}
