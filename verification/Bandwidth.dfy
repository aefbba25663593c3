/** The bus serves one transaction at a time and never more bytes than its bandwidth allows. */
module Bandwidth {
  import opened Base
  import opened Configuration
  import opened Scheduling
  import opened Runs
  import opened Lifecycle
  import opened Slicing

  /** The service parameters of `p` are the ones `accept` computes from the configuration. */
  predicate Made(c: Config, p: Pending) {
    && p.bw == EffectiveBw(c, p.tx.source)
    && p.quantum == QuantumFor(c, p.tx.source)
    && p.remaining <= p.tx.size
    && p.cpuCycles == CpuCyclesFor(c, p.tx)
    && p.decompressCycles == DecompressCyclesFor(c, p.tx)
    && p.sglEntries == SglEntriesFor(c, p.tx)
  }

  ghost predicate AllMade(b: Bus) {
    forall p :: p in System(b) ==> Made(b.cfg, p)
  }

  lemma AdmitMade(b: Bus, tx: Txn)
    requires AllMade(b)
    ensures AllMade(Admit(b, tx))
  {
    var p := NewPending(b.cfg, b.kpi.issued, tx, b.now);
    PushBag(b.d, p);
    assert forall q :: q in System(Admit(b, tx)) ==> q in System(b) || q == p;
  }

  lemma DropMade(b: Bus)
    requires AllMade(b) && HeadExpired(b)
    ensures AllMade(DropHead(b))
  {
    PopBag(b.d, GuardedLane(b.d));
    assert forall p :: p in System(DropHead(b)) ==> p in System(b);
  }

  lemma BeginMade(b: Bus)
    requires AllMade(b) && Enabled(b, Begin)
    ensures AllMade(Do(b, Begin))
  {
    BeginSystem(b);
    var p := Queue(b.d, Choice(b.cfg, b.d).value)[0];
    assert forall q :: q in System(Do(b, Begin)) ==> q in System(b) || q == p.(started := true);
  }

  lemma RetireMade(b: Bus)
    requires AllMade(b) && b.slot.Some?
    ensures AllMade(Retire(b))
  {
    RetireSystem(b);
    assert forall q :: q in System(Retire(b)) ==> q in System(b) || q == AfterQuantum(b.slot.value.p);
  }

  lemma ActMade(b: Bus, a: Act)
    requires AllMade(b) && Enabled(b, a)
    ensures AllMade(Do(b, a))
  {
    match a
    case Advance(t) => assert System(Do(b, a)) == System(b);
    case Arrive(tx) => AdmitMade(b, tx);
    case Drop => DropMade(b);
    case Refill => assert System(Do(b, a)) == System(b);
    case Begin => BeginMade(b);
    case Finish => RetireMade(b);
  }

  function MaxBw(c: Config): pos {
    Max(Max(EffectiveBw(c, Audio), EffectiveBw(c, Texture)), EffectiveBw(c, Weight))
  }

  /** Bytes delivered by all finished quanta. */
  function ServedTotal(log: Trace): nat {
    match log
    case Empty => 0
    case Snoc(past, Served(_, _, _, bytes)) => ServedTotal(past) + bytes
    case Snoc(past, _) => ServedTotal(past)
  }

  /** Duration of all finished quanta. */
  function BusyTotal(log: Trace): int {
    match log
    case Empty => 0
    case Snoc(past, Served(_, _, us, _)) => BusyTotal(past) + us
    case Snoc(past, _) => BusyTotal(past)
  }

  predicate Throughput(b: Bus) {
    && BusyTotal(b.log) <= (if b.slot.Some? then b.slot.value.startAt else b.now)
    && ServedTotal(b.log) <= MaxBw(b.cfg) * BusyTotal(b.log) + b.kpi.completed * (MaxBw(b.cfg) - 1)
  }

  ghost predicate Physical(b: Bus) {
    SlotTimes(b) && AllMade(b) && Throughput(b)
  }

  /** One quantum moves at most its share, plus the rounding of a last, shorter quantum. */
  lemma QuantumShare(p: Pending, m: pos)
    requires p.bw <= m
    ensures ServedBytes(p) <= m * ServiceUs(p) + if AfterQuantum(p).remaining == 0 then m - 1 else 0
  {
    MulMono(p.bw, m, ServiceUs(p));
    if p.remaining <= ChunkBytes(p) {
      assert p.remaining == p.bw * (p.remaining / p.bw) + p.remaining % p.bw;
    }
  }

  lemma ShareAdds(m: pos, busy: int, us: int, done: nat, extra: nat)
    ensures m * (busy + us) + (done + extra) * (m - 1) == m * busy + done * (m - 1) + m * us + extra * (m - 1)
  {
  }

  lemma RetireTotals(b: Bus)
    requires SlotTimes(b) && Enabled(b, Finish)
    ensures var p, b' := b.slot.value.p, Do(b, Finish);
      && BusyTotal(b'.log) == BusyTotal(b.log) + ServiceUs(p)
      && ServedTotal(b'.log) == ServedTotal(b.log) + ServedBytes(p)
      && b'.kpi.completed == b.kpi.completed + (if AfterQuantum(p).remaining == 0 then 1 else 0)
      && b'.slot.None? && b'.now == b.slot.value.fireAt && b'.cfg == b.cfg
  {
  }

  lemma RetireThroughput(b: Bus)
    requires Physical(b) && Enabled(b, Finish)
    ensures Throughput(Do(b, Finish))
  {
    var p := b.slot.value.p;
    var m := MaxBw(b.cfg);
    assert p in System(b);
    QuantumShare(p, m);
    RetireTotals(b);
    ShareAdds(m, BusyTotal(b.log), ServiceUs(p), b.kpi.completed, if AfterQuantum(p).remaining == 0 then 1 else 0);
  }

  lemma ActThroughput(b: Bus, a: Act)
    requires Physical(b) && Enabled(b, a)
    ensures Throughput(Do(b, a))
  {
    match a
    case Advance(t) =>
    case Arrive(tx) =>
    case Drop =>
    case Refill =>
    case Begin =>
    case Finish => RetireThroughput(b);
  }

  lemma ReachablePhysical(b: Bus)
    requires Reachable(b)
    ensures Physical(b)
  {
    forall c, a | Physical(c) && Enabled(c, a) ensures Physical(Do(c, a)) {
      ActSlotTimes(c, a);
      ActMade(c, a);
      ActThroughput(c, a);
    }
    InvariantRule(Physical, b);
  }

  /** Finished quanta never overlap, so the bytes served by time `now` respect the bandwidth. */
  lemma BandwidthBound(b: Bus)
    requires Reachable(b)
    ensures BusyTotal(b.log) <= b.now
    ensures ServedTotal(b.log) <= MaxBw(b.cfg) * b.now + b.kpi.completed * (MaxBw(b.cfg) - 1)
  {
    ReachablePhysical(b);
    var m := MaxBw(b.cfg);
    MulMono(BusyTotal(b.log), b.now, m);
  }
}
