/** The latency guarantee of the critical class: under QoS, a feasible audio flow is served in
    time whatever the bulk traffic does. */
module AudioGuarantee {
  import opened Base
  import opened Configuration
  import opened Scheduling
  import opened Runs
  import opened Slicing
  import opened Bandwidth
  import opened TokenBucket
  import opened Operations
  import opened Lifecycle
  import opened TraceTheorems

  /** Packet size, period, deadline, longest quantum of any transaction, service time. */
  datatype Flow = Flow(packet: nat, period: pos, deadlineUs: int, worst: pos, service: pos)

  /** Packets that can be in line during the longest quantum, and one more. */
  function Backlog(f: Flow): nat {
    f.worst / f.period + 2
  }

  /** One packet fits one quantum and one period, the refill keeps pace, the bucket covers the longest
      line, and the longest blocking quantum ends before the deadline. */
  predicate Feasible(c: Config, f: Flow) {
    && c.policy == Qos
    && f.packet <= c.bus * c.quantumUs
    && f.service == Max(1, f.packet / c.bus) && f.service <= f.period
    && 100 * f.packet <= f.period * (c.bus * c.criticalPct)
    && 100 * (f.packet * Backlog(f)) <= 10000 * (c.bus * c.criticalPct)
    && (forall s: Source :: QuantumFor(c, s) <= f.worst)
    && f.worst < f.deadlineUs
  }

  /** The bucket of ten milliseconds covers the line whenever a worst quantum and two periods fit into them. */
  lemma TenMillisecondsSuffice(c: Config, f: Flow)
    requires 100 * f.packet <= f.period * (c.bus * c.criticalPct) && f.worst + 2 * f.period <= 10000
    ensures 100 * (f.packet * Backlog(f)) <= 10000 * (c.bus * c.criticalPct)
  {
    assert Backlog(f) * f.period <= 10000 by { assert f.worst / f.period * f.period <= f.worst; }
    KeepsPace(f.packet, f.period, Backlog(f), c.bus * c.criticalPct);
  }

  lemma KeepsPace(packet: nat, period: pos, k: nat, earned: nat)
    requires 100 * packet <= period * earned && k * period <= 10000
    ensures 100 * (packet * k) <= 10000 * earned
  {
    MulMono(100 * packet, period * earned, k);
    MulMono(k * period, 10000, earned);
    Reorder(packet, period, k, earned);
  }

  lemma Reorder(packet: nat, period: nat, k: nat, earned: nat)
    ensures (period * earned) * k == (k * period) * earned
    ensures (100 * packet) * k == 100 * (packet * k)
  {
  }

  /** The same for the refill rate and the capacity in use. */
  lemma FeasibleTuned(c: Config, f: Flow)
    requires Feasible(c, f)
    ensures Tuned(f, TokenCapacity(c), RefillRate(c))
  {
    RateExact(c);
    Hundredths(f.packet, f.period, RefillRate(c), c.bus * c.criticalPct);
    assert (f.packet * Backlog(f)) as real == f.packet as real * Backlog(f) as real;
  }

  lemma Hundredths(x: nat, t: pos, rate: real, earned: nat)
    requires 100 * x <= t * earned && 100.0 * rate == earned as real
    ensures x as real <= t as real * rate
  {
    assert 100.0 * (t as real * rate) == t as real * (100.0 * rate) == (t * earned) as real;
  }

  // ---- The line of waiting packets ----

  predicate Packet(c: Config, f: Flow, p: Pending) {
    && p.tx.source == Audio && p.tx.qos == Critical && p.remaining == f.packet && !p.started
    && p.bw == c.bus && p.quantum == c.quantumUs
    && p.tx.deadline == p.arrivedAt + f.deadlineUs
  }

  /** Consecutive arrivals are at least a period apart, the latest no later than `last`. */
  predicate Spaced(q: seq<Pending>, f: Flow, last: Time) {
    && (forall i :: 0 < i < |q| ==> q[i - 1].arrivedAt + f.period <= q[i].arrivedAt)
    && (q != [] ==> q[|q| - 1].arrivedAt <= last)
  }

  /** If the bus is free at `at`, each packet of the line is picked within the bound. */
  predicate Waits(q: seq<Pending>, f: Flow, at: Time) {
    q == [] || (at <= q[0].arrivedAt + f.worst && Waits(q[1..], f, at + f.service))
  }

  lemma {:induction false} WaitsPush(q: seq<Pending>, p: Pending, f: Flow, at: Time)
    requires Waits(q, f, at) && f.service <= f.period
    requires Spaced(q + [p], f, p.arrivedAt)
    requires q == [] ==> at <= p.arrivedAt + f.worst
    ensures Waits(q + [p], f, at)
  {
    var s := q + [p];
    if q == [] {
      assert s[1..] == [];
    } else {
      assert s[1..] == q[1..] + [p];
      assert s[0].arrivedAt + f.period <= s[1].arrivedAt;
      forall i | 0 < i < |s[1..]| ensures s[1..][i - 1].arrivedAt + f.period <= s[1..][i].arrivedAt {
        assert s[(i + 1) - 1].arrivedAt + f.period <= s[i + 1].arrivedAt;
      }
      WaitsPush(q[1..], p, f, at + f.service);
    }
  }

  lemma SpacedPop(q: seq<Pending>, f: Flow, last: Time)
    requires Spaced(q, f, last) && q != []
    ensures Spaced(q[1..], f, last)
  {
    forall i | 0 < i < |q[1..]| ensures q[1..][i - 1].arrivedAt + f.period <= q[1..][i].arrivedAt {
      assert q[(i + 1) - 1].arrivedAt + f.period <= q[i + 1].arrivedAt;
    }
  }

  lemma SpacedPush(q: seq<Pending>, p: Pending, f: Flow, last: Time)
    requires Spaced(q, f, last) && last + f.period <= p.arrivedAt
    ensures Spaced(q + [p], f, p.arrivedAt)
  {
  }

  lemma {:induction false} Span(q: seq<Pending>, f: Flow, last: Time)
    requires Spaced(q, f, last) && q != []
    ensures (|q| - 1) * f.period <= last - q[0].arrivedAt
  {
    if |q| > 1 {
      SpacedPop(q, f, last);
      Span(q[1..], f, last);
      assert q[1 - 1].arrivedAt + f.period <= q[1].arrivedAt;
      assert (|q| - 1) * f.period == (|q| - 2) * f.period + f.period;
    }
  }

  // ---- Arithmetic of the bucket ----

  /** Tokens that must be there for the packets in line, and for the next one as it draws near. */
  function Need(f: Flow, n: nat, since: int, rate: real): real {
    f.packet as real * n as real + RMin(f.packet as real, since as real * rate)
  }

  lemma RealMono(a: real, b: real, k: real)
    requires a <= b && k >= 0.0
    ensures a * k <= b * k
  {
  }

  /** The bucket holds one packet more than the longest possible line. */
  lemma BucketCovers(f: Flow, n: nat, cap: real)
    requires f.packet as real * Backlog(f) as real <= cap && (n - 1) * f.period <= f.worst
    ensures f.packet as real * (n + 1) as real <= cap
  {
    if n > 0 {
      DivAtLeast(f.worst, f.period, n - 1);
    }
    Scaled((n + 1) as real, Backlog(f) as real, f.packet as real);
  }

  lemma Scaled(a: real, b: real, k: real)
    requires a <= b && k >= 0.0
    ensures k * a <= k * b
  {
  }

  lemma NeedGrows(f: Flow, n: nat, since: int, dt: nat, rate: real, level: real, cap: real)
    requires rate >= 0.0 && level >= Need(f, n, since, rate)
    requires f.packet as real * (n + 1) as real <= cap
    ensures RMin(cap, level + dt as real * rate) >= Need(f, n, since + dt, rate)
  {
    AddSpans(since, dt, rate);
    assert f.packet as real * (n + 1) as real == f.packet as real * n as real + f.packet as real;
    RealProduct(dt as real, rate);
  }

  lemma NeedArrival(f: Flow, n: nat, since: int, rate: real)
    requires rate >= 0.0 && f.packet as real <= f.period as real * rate && since >= f.period
    ensures Need(f, n, since, rate) == Need(f, n + 1, 0, rate) == f.packet as real * (n + 1) as real
  {
    RealMono(f.period as real, since as real, rate);
    assert f.packet as real * (n + 1) as real == f.packet as real * n as real + f.packet as real;
  }

  lemma NeedPick(f: Flow, n: pos, since: int, rate: real, level: real, charge: nat)
    requires level >= Need(f, n, since, rate) && charge <= f.packet && since >= 0 && rate >= 0.0
    ensures level - charge as real >= Need(f, n - 1, since, rate)
    ensures level >= f.packet as real
  {
    assert f.packet as real * n as real == f.packet as real * (n - 1) as real + f.packet as real;
    RealProduct(since as real, rate);
    RealProduct(f.packet as real, (n - 1) as real);
  }

  // ---- The state of the scheduler under a feasible flow ----

  /** Every audio quantum began, and every audio completion came, within the bound; none was dropped. */
  predicate AudioLog(log: Trace, f: Flow) {
    match log
    case Empty => true
    case Snoc(past, Quantum(p, at, _, _, _)) =>
      (p.tx.source == Audio ==> at <= p.arrivedAt + f.worst) && AudioLog(past, f)
    case Snoc(past, Completed(p, at)) =>
      (p.tx.source == Audio ==> at <= p.arrivedAt + f.worst + f.service) && AudioLog(past, f)
    case Snoc(past, Dropped(p, _)) => p.tx.source != Audio && AudioLog(past, f)
    case Snoc(past, _) => AudioLog(past, f)
  }

  predicate Bulk(p: Pending) {
    p.tx.source != Audio && p.tx.qos != Critical
  }

  ghost predicate Lines(f: Flow, b: Bus, last: Time)
    requires b.d.QosQ?
  {
    && last <= b.now
    && (forall p :: p in b.d.crit ==> Packet(b.cfg, f, p))
    && Spaced(b.d.crit, f, last)
    && (forall p :: p in b.d.high ==> Bulk(p))
    && (forall p :: p in b.d.norm ==> Bulk(p))
  }

  ghost predicate Funded(f: Flow, b: Bus, last: Time)
    requires b.d.QosQ?
  {
    Level(b) >= Need(f, |b.d.crit|, b.now - last, b.d.rate)
  }

  predicate SlotOk(f: Flow, b: Bus, s: Slot) {
    if s.p.tx.source == Audio then
      && s.p.remaining == f.packet && s.p.bw == b.cfg.bus && s.p.quantum == b.cfg.quantumUs
      && s.startAt <= s.p.arrivedAt + f.worst
    else s.p.tx.qos != Critical
  }

  /** The bucket in use is the feasible one. */
  predicate Tuned(f: Flow, capacity: real, rate: real) {
    f.packet as real * Backlog(f) as real <= capacity && f.packet as real <= f.period as real * rate
  }

  ghost predicate Common(f: Flow, b: Bus, last: Time) {
    && Feasible(b.cfg, f) && b.d.QosQ? && Bucket(b) && Tuned(f, b.d.capacity, b.d.rate)
    && Lines(f, b, last) && Funded(f, b, last)
    && AudioLog(b.log, f) && b.kpi.audioDropped == 0
  }

  /** The bus has just become free, or is about to be offered a packet. */
  ghost predicate Ready(f: Flow, b: Bus, last: Time) {
    Common(f, b, last) && b.slot.None? && Waits(b.d.crit, f, b.now)
  }

  /** The state between operations; `last` is the time of the latest audio arrival. */
  ghost predicate OnTime(f: Flow, b: Bus, last: Time) {
    && Common(f, b, last)
    && match b.slot
       case None => b.d.crit == []
       case Some(s) => Waits(b.d.crit, f, s.fireAt) && SlotOk(f, b, s)
  }

  // ---- Starting the next quantum ----

  lemma PrepareWithoutDrop(b: Bus)
    requires b.slot.None? && b.d.QosQ? && Bucket(b) && !HeadExpired(b)
    ensures Prepare(b) == Do(b, Refill)
    ensures var b1 := Prepare(b);
      && b1.d.QosQ? && b1.d.crit == b.d.crit && b1.d.high == b.d.high && b1.d.norm == b.d.norm
      && b1.d.tokens == Level(b) && b1.d.lastRefill == b.now
      && b1.d.rate == b.d.rate && b1.d.capacity == b.d.capacity
      && b1.slot.None? && b1.now == b.now && b1.cfg == b.cfg && b1.kpi == b.kpi && b1.log == b.log
  {
    RefillBucket(b);
    assert !HeadExpired(Do(b, Refill));
  }

  lemma StartCritical(b: Bus)
    requires b.slot.None? && b.d.QosQ? && Bucket(b) && !HeadExpired(b) && b.d.crit != []
    requires Level(b) >= ChargeOf(b.cfg, CritLane, b.d.crit[0]) as real
    ensures var b', p := StartIfIdle(b), b.d.crit[0];
      && b'.d.QosQ? && b'.d.crit == b.d.crit[1..] && b'.d.high == b.d.high && b'.d.norm == b.d.norm
      && b'.d.tokens == Level(b) - ChargeOf(b.cfg, CritLane, p) as real && b'.d.lastRefill == b.now
      && b'.d.rate == b.d.rate && b'.d.capacity == b.d.capacity
      && b'.slot == Some(Slot(p.(started := true), b.now, b.now + ServiceUs(p)))
      && b'.now == b.now && b'.cfg == b.cfg && b'.kpi == b.kpi
      && forall f ::
           AudioLog(b'.log, f) <==> AudioLog(b.log, f) && (p.tx.source == Audio ==> b.now <= p.arrivedAt + f.worst)
  {
    PrepareWithoutDrop(b);
  }

  lemma StartBulk(b: Bus)
    requires b.slot.None? && b.d.QosQ? && Bucket(b) && b.d.crit == []
    requires forall p :: p in b.d.high || p in b.d.norm ==> Bulk(p)
    ensures var b' := StartIfIdle(b);
      && b'.d.QosQ? && b'.d.crit == []
      && (forall p :: p in b'.d.high || p in b'.d.norm ==> Bulk(p))
      && b'.d.tokens == Level(b) && b'.d.lastRefill == b.now
      && b'.d.rate == b.d.rate && b'.d.capacity == b.d.capacity
      && (b'.slot.Some? ==> Bulk(b'.slot.value.p))
      && b'.now == b.now && b'.cfg == b.cfg && b'.kpi == b.kpi
      && forall f :: AudioLog(b'.log, f) <==> AudioLog(b.log, f)
  {
    PrepareWithoutDrop(b);
    if b.d.high != [] {
      assert b.d.high[0] in b.d.high;
    }
    if b.d.norm != [] {
      assert b.d.norm[0] in b.d.norm;
    }
  }

  lemma PacketService(c: Config, f: Flow, p: Pending)
    requires Feasible(c, f) && Packet(c, f, p)
    ensures ServiceUs(p) == f.service && ChargeOf(c, CritLane, p) <= f.packet
  {
  }

  lemma StartOnTime(f: Flow, b: Bus, last: Time)
    requires Ready(f, b, last)
    ensures OnTime(f, StartIfIdle(b), last)
  {
    hide StartIfIdle, Need, Level, Tuned, Bulk, AudioLog;
    var q := b.d.crit;
    var b' := StartIfIdle(b);
    LevelRange(b);
    if q == [] {
      hide Feasible;
      StartBulk(b);
      LevelRange(b');
    } else {
      var p := q[0];
      PacketService(b.cfg, f, p);
      NeedPick(f, |q|, b.now - last, b.d.rate, Level(b), ChargeOf(b.cfg, CritLane, p));
      StartCritical(b);
      SpacedPop(q, f, last);
      NeedNonNegative(f, |q| - 1, b.now - last, b.d.rate);
      LevelRange(b');
    }
  }

  lemma NeedNonNegative(f: Flow, n: nat, since: int, rate: real)
    requires rate >= 0.0 && since >= 0
    ensures Need(f, n, since, rate) >= 0.0
  {
    RealProduct(f.packet as real, n as real);
    RealProduct(since as real, rate);
  }

  // ---- Arrivals ----

  /** Audio is critical and periodic; nothing else is critical. */
  predicate Conforms(f: Flow, last: Time, t: Time, tx: Txn) {
    && (tx.source == Audio <==> tx.qos == Critical)
    && (tx.source == Audio ==>
          tx.size == f.packet && tx.deadline == t + f.deadlineUs && last + f.period <= t)
  }

  function LastAfter(last: Time, t: Time, tx: Txn): Time {
    if tx.source == Audio then t else last
  }

  lemma AdmitBulk(f: Flow, b: Bus, last: Time, tx: Txn)
    requires Common(f, b, last) && tx.source != Audio && tx.qos != Critical
    ensures Admit(b, tx).d.QosQ? && Common(f, Admit(b, tx), last)
    ensures Admit(b, tx).d.crit == b.d.crit && Admit(b, tx).slot == b.slot && Admit(b, tx).now == b.now
    ensures Admit(b, tx).cfg == b.cfg
  {
    hide Feasible, Tuned, Need;
    var p := NewPending(b.cfg, b.kpi.issued, tx, b.now);
    var b' := Admit(b, tx);
    assert Level(b') == Level(b);
    assert forall q :: q in b'.d.high ==> q in b.d.high || q == p;
    assert forall q :: q in b'.d.norm ==> q in b.d.norm || q == p;
  }

  lemma AdmitPacket(f: Flow, b: Bus, last: Time, tx: Txn)
    requires Common(f, b, last) && Conforms(f, last, b.now, tx) && tx.source == Audio
    ensures Admit(b, tx).d.QosQ? && Common(f, Admit(b, tx), b.now)
    ensures var p := NewPending(b.cfg, b.kpi.issued, tx, b.now);
      Admit(b, tx).d.crit == b.d.crit + [p] && Spaced(b.d.crit + [p], f, b.now) && p.arrivedAt == b.now
    ensures Admit(b, tx).slot == b.slot && Admit(b, tx).now == b.now && Admit(b, tx).cfg == b.cfg
  {
    hide Need, Level, Admit, Packet, NewPending, AudioLog, Bucket;
    var p := NewPending(b.cfg, b.kpi.issued, tx, b.now);
    PacketMade(f, b, last, tx);
    NeedArrival(f, |b.d.crit|, b.now - last, b.d.rate);
    hide Feasible, Tuned, Conforms;
    AdmitCritical(b, tx);
    SpacedPush(b.d.crit, p, f, last);
  }

  lemma PacketMade(f: Flow, b: Bus, last: Time, tx: Txn)
    requires Conforms(f, last, b.now, tx) && tx.source == Audio
    ensures Packet(b.cfg, f, NewPending(b.cfg, b.kpi.issued, tx, b.now))
    ensures last + f.period <= b.now && tx.qos == Critical
  {
  }

  lemma AdmitCritical(b: Bus, tx: Txn)
    requires b.d.QosQ? && tx.qos == Critical
    ensures var b', p := Admit(b, tx), NewPending(b.cfg, b.kpi.issued, tx, b.now);
      && b'.d.QosQ? && b'.d.crit == b.d.crit + [p] && b'.d.high == b.d.high && b'.d.norm == b.d.norm
      && Level(b') == Level(b) && (Bucket(b) ==> Bucket(b')) && b'.d.rate == b.d.rate && b'.d.capacity == b.d.capacity
      && (forall f :: AudioLog(b'.log, f) <==> AudioLog(b.log, f)) && b'.kpi.audioDropped == b.kpi.audioDropped
      && b'.slot == b.slot && b'.now == b.now && b'.cfg == b.cfg && p.arrivedAt == b.now
  {
  }

  /** The running quantum ends within the longest quantum from now. */
  lemma FireSoon(b: Bus, f: Flow)
    requires Physical(b) && Feasible(b.cfg, f) && b.slot.Some?
    ensures b.slot.value.fireAt <= b.now + f.worst
  {
    var p := b.slot.value.p;
    assert p in System(b);
    assert ServiceUs(p) <= p.quantum by {
      if p.remaining <= ChunkBytes(p) {
        MulMono(p.remaining / p.bw, p.quantum, p.bw);
        DivUpper(p.remaining, p.bw, p.quantum);
      }
    }
  }

  lemma DivUpper(n: nat, d: pos, q: nat)
    requires n <= d * q
    ensures n / d <= q
  {
    assert d * (n / d) <= n;
    MulMono(q + 1, n / d, d);
  }

  lemma PacketFires(f: Flow, b: Bus, last: Time)
    requires OnTime(f, b, last) && Physical(b) && b.slot.Some?
    ensures b.slot.value.fireAt <= b.now + f.worst && f.service <= f.period
  {
    FireSoon(b, f);
  }

  lemma AcceptPacketBusy(f: Flow, b: Bus, last: Time, tx: Txn)
    requires OnTime(f, b, last) && Physical(b) && Conforms(f, last, b.now, tx) && tx.source == Audio
    requires b.slot.Some?
    ensures OnTime(f, Accept(b, tx), b.now)
  {
    hide Common, Admit;
    PacketFires(f, b, last);
    OnTimeCommon(f, b, last);
    AdmitPacket(f, b, last, tx);
    WaitsPush(b.d.crit, NewPending(b.cfg, b.kpi.issued, tx, b.now), f, b.slot.value.fireAt);
  }

  lemma OnTimeCommon(f: Flow, b: Bus, last: Time)
    requires OnTime(f, b, last)
    ensures Common(f, b, last) && b.d.QosQ?
  {
  }

  lemma AcceptPacketIdle(f: Flow, b: Bus, last: Time, tx: Txn)
    requires OnTime(f, b, last) && Conforms(f, last, b.now, tx) && tx.source == Audio
    requires b.slot.None?
    ensures OnTime(f, Accept(b, tx), b.now)
  {
    hide Common, Admit;
    var b1 := Admit(b, tx);
    OnTimeCommon(f, b, last);
    AdmitPacket(f, b, last, tx);
    assert b1.d.crit == [b1.d.crit[0]] && b1.d.crit[1..] == [];
    assert b1.d.crit[0].arrivedAt == b1.now;
    assert Waits(b1.d.crit, f, b1.now);
    assert b1.slot.None?;
    StartOnTime(f, b1, b.now);
  }

  lemma AcceptBulk(f: Flow, b: Bus, last: Time, tx: Txn)
    requires OnTime(f, b, last) && tx.source != Audio && tx.qos != Critical
    ensures OnTime(f, Accept(b, tx), last)
  {
    AdmitBulk(f, b, last, tx);
    hide Common, Admit;
    if b.slot.None? {
      StartOnTime(f, Admit(b, tx), last);
    }
  }

  lemma AcceptOnTime(f: Flow, b: Bus, last: Time, tx: Txn)
    requires OnTime(f, b, last) && Physical(b) && Conforms(f, last, b.now, tx)
    ensures OnTime(f, Accept(b, tx), LastAfter(last, b.now, tx))
  {
    if tx.source == Audio && b.slot.Some? {
      AcceptPacketBusy(f, b, last, tx);
    } else if tx.source == Audio {
      AcceptPacketIdle(f, b, last, tx);
    } else {
      AcceptBulk(f, b, last, tx);
    }
  }

  // ---- End of a quantum ----

  lemma RetireView(b: Bus)
    requires b.slot.Some? && b.d.QosQ?
    requires var p := b.slot.value.p; Requeues(b) ==> p.tx.qos != Critical
    ensures var p, b' := AfterQuantum(b.slot.value.p), Retire(b);
      && b'.d.QosQ? && b'.d.crit == b.d.crit && b'.slot.None? && b'.now == b.now && b'.cfg == b.cfg
      && (forall q :: q in b'.d.high ==> q in b.d.high || (q == p && Requeues(b)))
      && (forall q :: q in b'.d.norm ==> q in b.d.norm || (q == p && Requeues(b)))
      && b'.d.tokens == b.d.tokens && b'.d.lastRefill == b.d.lastRefill
      && b'.d.rate == b.d.rate && b'.d.capacity == b.d.capacity
  {
  }

  lemma RetireAudio(f: Flow, b: Bus, last: Time)
    requires OnTime(f, b, last) && SlotTimes(b) && Enabled(b, Finish)
    ensures !Requeues(b) || Bulk(AfterQuantum(b.slot.value.p))
    ensures AudioLog(Retire(b).log, f) && Retire(b).kpi.audioDropped == 0
  {
    var s := b.slot.value;
    if s.p.tx.source == Audio {
      assert AfterQuantum(s.p).remaining == 0 && s.fireAt == s.startAt + f.service;
    }
  }

  lemma RetireLevel(b: Bus)
    requires b.slot.Some? && b.d.QosQ? && Bucket(b) && Retire(b).d.QosQ?
    ensures Level(Retire(b)) == Level(b) && Bucket(Retire(b))
  {
  }

  lemma RetireReady(f: Flow, b: Bus, last: Time)
    requires OnTime(f, b, last) && SlotTimes(b) && Enabled(b, Finish)
    ensures Ready(f, Retire(b), last)
  {
    hide Retire, Need, Tuned, Level, Bucket, AudioLog, Feasible, Packet, Spaced, Waits, SlotOk;
    RetireAudio(f, b, last);
    RetireView(b);
    RetireLevel(b);
  }

  lemma QuantumEndOnTime(f: Flow, b: Bus, last: Time)
    requires OnTime(f, b, last) && SlotTimes(b) && Enabled(b, Finish)
    ensures OnTime(f, QuantumEnd(b), last)
  {
    RetireReady(f, b, last);
    StartOnTime(f, Retire(b), last);
  }

  // ---- The passage of time ----

  lemma LineFits(f: Flow, b: Bus, last: Time)
    requires OnTime(f, b, last) && SlotTimes(b)
    ensures (|b.d.crit| - 1) * f.period <= f.worst
  {
    hide Funded, Tuned;
    if b.d.crit == [] {
      assert -1 * f.period <= f.worst;
    } else {
      Span(b.d.crit, f, last);
    }
  }

  lemma NeedLater(f: Flow, n: nat, since: int, dt: nat, level: real, cap: real, rate: real)
    requires rate >= 0.0 && Tuned(f, cap, rate) && level >= Need(f, n, since, rate)
    requires (n - 1) * f.period <= f.worst
    ensures RMin(cap, level + dt as real * rate) >= Need(f, n, since + dt, rate)
  {
    BucketCovers(f, n, cap);
    hide Tuned;
    NeedGrows(f, n, since, dt, rate, level, cap);
  }

  lemma AdvanceFunded(f: Flow, b: Bus, last: Time, t: Time)
    requires b.d.QosQ? && Bucket(b) && Tuned(f, b.d.capacity, b.d.rate) && Funded(f, b, last) && b.now <= t
    requires (|b.d.crit| - 1) * f.period <= f.worst
    ensures Funded(f, b.(now := t), last)
  {
    hide Tuned, Need, Level;
    NeedLater(f, |b.d.crit|, b.now - last, t - b.now, Level(b), b.d.capacity, b.d.rate);
    LevelGrows(b, t);
  }

  lemma LevelGrows(b: Bus, t: Time)
    requires b.d.QosQ? && Bucket(b) && b.now <= t
    ensures Level(b.(now := t)) == RMin(b.d.capacity, Level(b) + (t - b.now) as real * b.d.rate)
  {
    AddSpans(b.now - b.d.lastRefill, t - b.now, b.d.rate);
    RealProduct((t - b.now) as real, b.d.rate);
  }

  lemma AdvanceOnTime(f: Flow, b: Bus, last: Time, t: Time)
    requires OnTime(f, b, last) && SlotTimes(b) && Enabled(b, Advance(t))
    ensures OnTime(f, b.(now := t), last)
  {
    LineFits(f, b, last);
    hide Feasible, Tuned, Funded, Waits, Spaced, Packet, AudioLog;
    AdvanceFunded(f, b, last, t);
  }

  // ---- Whole histories ----

  datatype Input = Offer(t: Time, tx: Txn) | Fire

  /** One event as the simulation delivers it: the clock moves, then the handler runs. */
  function React(b: Bus, i: Input): Bus
    requires i.Fire? ==> b.slot.Some?
  {
    match i
    case Offer(t, tx) => Accept(b.(now := t), tx)
    case Fire => QuantumEnd(b.(now := b.slot.value.fireAt))
  }

  /** Events come in time order, a quantum end exactly when due, and audio conforms to the flow. */
  ghost predicate Traffic(f: Flow, b: Bus, last: Time, inputs: seq<Input>)
    decreases |inputs|
  {
    inputs == [] ||
    match inputs[0]
    case Offer(t, tx) =>
      && Enabled(b, Advance(t)) && tx.issuedAt <= t && Conforms(f, last, t, tx)
      && Traffic(f, React(b, inputs[0]), LastAfter(last, t, tx), inputs[1..])
    case Fire =>
      && b.slot.Some? && b.now <= b.slot.value.fireAt
      && Traffic(f, React(b, inputs[0]), last, inputs[1..])
  }

  ghost function After(f: Flow, b: Bus, last: Time, inputs: seq<Input>): Bus
    requires Traffic(f, b, last, inputs)
    decreases |inputs|
  {
    if inputs == [] then b
    else match inputs[0]
      case Offer(t, tx) => After(f, React(b, inputs[0]), LastAfter(last, t, tx), inputs[1..])
      case Fire => After(f, React(b, inputs[0]), last, inputs[1..])
  }

  lemma SubmitOnTime(f: Flow, b: Bus, last: Time, t: Time, tx: Txn)
    requires Reachable(b) && OnTime(f, b, last) && Enabled(b, Advance(t))
    requires tx.issuedAt <= t && Conforms(f, last, t, tx)
    ensures Reachable(React(b, Offer(t, tx))) && OnTime(f, React(b, Offer(t, tx)), LastAfter(last, t, tx))
    ensures React(b, Offer(t, tx)).cfg == b.cfg
  {
    ReachablePhysical(b);
    AdvanceOnTime(f, b, last, t);
    AdvanceRuns(b, t);
    ReachablePhysical(b.(now := t));
    AcceptOnTime(f, b.(now := t), last, tx);
    AcceptRuns(b.(now := t), tx);
  }

  lemma FireOnTime(f: Flow, b: Bus, last: Time)
    requires Reachable(b) && OnTime(f, b, last) && b.slot.Some? && b.now <= b.slot.value.fireAt
    ensures Reachable(React(b, Fire)) && OnTime(f, React(b, Fire), last)
    ensures React(b, Fire).cfg == b.cfg
  {
    var t := b.slot.value.fireAt;
    ReachablePhysical(b);
    AdvanceOnTime(f, b, last, t);
    AdvanceRuns(b, t);
    ReachablePhysical(b.(now := t));
    QuantumEndOnTime(f, b.(now := t), last);
    QuantumEndRuns(b.(now := t));
  }

  lemma {:induction false} TrafficOnTime(f: Flow, b: Bus, last: Time, inputs: seq<Input>)
    requires Reachable(b) && OnTime(f, b, last) && Traffic(f, b, last, inputs)
    ensures Reachable(After(f, b, last, inputs)) && exists l :: OnTime(f, After(f, b, last, inputs), l)
    decreases |inputs|
  {
    if inputs != [] {
      match inputs[0]
      case Offer(t, tx) =>
        SubmitOnTime(f, b, last, t, tx);
        TrafficOnTime(f, React(b, inputs[0]), LastAfter(last, t, tx), inputs[1..]);
      case Fire =>
        FireOnTime(f, b, last);
        TrafficOnTime(f, React(b, inputs[0]), last, inputs[1..]);
    }
  }

  lemma FreshOnTime(c: Config, f: Flow)
    requires Feasible(c, f)
    ensures Reachable(Fresh(c)) && OnTime(f, Fresh(c), 0 - f.period)
  {
    LeadsSelf(Fresh(c));
    ReachableBucket(Fresh(c));
    FeasibleTuned(c, f);
    BucketCovers(f, 0, TokenCapacity(c));
    assert Level(Fresh(c)) == TokenCapacity(c) by { LevelRange(Fresh(c)); }
    RealProduct(f.period as real, RefillRate(c));
  }

  lemma {:induction false} WaitsForAll(q: seq<Pending>, f: Flow, at: Time, p: Pending)
    requires Waits(q, f, at) && p in q
    ensures at <= p.arrivedAt + f.worst
  {
    if p != q[0] {
      WaitsForAll(q[1..], f, at + f.service, p);
    }
  }

  /** A packet that is still in the system has not outlived its bound. */
  lemma NobodyOverstays(f: Flow, b: Bus, last: Time)
    requires OnTime(f, b, last) && SlotTimes(b)
    ensures forall p :: p in b.d.crit ==> b.now <= p.arrivedAt + f.worst
    ensures b.slot.Some? && b.slot.value.p.tx.source == Audio ==>
      b.now <= b.slot.value.p.arrivedAt + f.worst + f.service
  {
    forall p | p in b.d.crit ensures b.now <= p.arrivedAt + f.worst {
      WaitsForAll(b.d.crit, f, b.slot.value.fireAt, p);
    }
  }

  /** No audio packet was dropped; every one was picked within the longest quantum of its arrival and
      completed a service time later; none that still waits has outlived that bound. */
  ghost predicate Guaranteed(f: Flow, b: Bus) {
    && b.kpi.audioDropped == 0
    && b.d.QosQ? && (forall p :: p in b.d.crit ==> b.now <= p.arrivedAt + f.worst)
    && (forall p: Pending, at, lane, us, charge ::
          p.tx.source == Audio && InLog(b.log, Quantum(p, at, lane, us, charge)) ==> at <= p.arrivedAt + f.worst)
    && (forall p: Pending, at ::
          p.tx.source == Audio && InLog(b.log, Completed(p, at)) ==> at <= p.arrivedAt + f.worst + f.service)
  }

  lemma OnTimeGuarantees(f: Flow, b: Bus, last: Time)
    requires OnTime(f, b, last) && SlotTimes(b)
    ensures Guaranteed(f, b)
  {
    NobodyOverstays(f, b, last);
    hide Feasible, Lines, Funded, Tuned, Bucket, Waits;
    forall p: Pending, at, lane, us, charge |
      p.tx.source == Audio && InLog(b.log, Quantum(p, at, lane, us, charge))
      ensures at <= p.arrivedAt + f.worst
    {
      LogOnTime(b.log, f, Quantum(p, at, lane, us, charge));
    }
    forall p: Pending, at | p.tx.source == Audio && InLog(b.log, Completed(p, at))
      ensures at <= p.arrivedAt + f.worst + f.service
    {
      LogOnTime(b.log, f, Completed(p, at));
    }
  }

  lemma {:induction false} LogOnTime(log: Trace, f: Flow, r: Rec)
    requires AudioLog(log, f) && InLog(log, r) && r.p.tx.source == Audio
    ensures r.Quantum? ==> r.at <= r.p.arrivedAt + f.worst
    ensures r.Completed? ==> r.at <= r.p.arrivedAt + f.worst + f.service
  {
    if log.last != r {
      LogOnTime(log.past, f, r);
    }
  }

  /** The guarantee: over every history of a feasible flow and any bulk traffic, no audio packet
      is dropped, every one is picked within the longest quantum, and completes a service later. */
  lemma AudioAlwaysOnTime(c: Config, f: Flow, inputs: seq<Input>)
    requires Feasible(c, f) && Traffic(f, Fresh(c), 0 - f.period, inputs)
    ensures Guaranteed(f, After(f, Fresh(c), 0 - f.period, inputs))
  {
    hide Traffic, Feasible, OnTime, After, Fresh;
    FreshOnTime(c, f);
    TrafficOnTime(f, Fresh(c), 0 - f.period, inputs);
    var b := After(f, Fresh(c), 0 - f.period, inputs);
    var last :| OnTime(f, b, last);
    ReachablePhysical(b);
    OnTimeGuarantees(f, b, last);
  }
}
