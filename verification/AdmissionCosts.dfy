/** What `accept` promises about the parameters it gives a transaction, said without its formulas. */
module AdmissionCosts {
  import opened Base
  import opened Configuration
  import opened Scheduling
  import opened Runs
  import opened Lifecycle
  import opened Bandwidth
  import opened KpiAgreement
  import opened Simulation

  lemma CeilIsLeast(n: nat, d: pos, k: nat)
    ensures CeilDiv(n, d) <= k <==> n <= k * d
  {
    var q := CeilDiv(n, d);
    assert d * q <= n + d - 1 < d * q + d;
    if q <= k {
      MulLe(q, k, d);
    } else {
      MulLe(k + 1, q, d);
    }
  }

  lemma MulLe(a: int, b: int, k: nat)
    requires a <= b
    ensures a * k <= b * k
  {
  }

  /** A zero-copy weight transfer gets the shortest quantum that carries one scatter-gather entry, and the
      fewest entries that hold its bytes; everything else gets the configured quantum and one entry. */
  lemma QuantumAndEntries(c: Config, uid: nat, tx: Txn, now: Time)
    ensures var p := NewPending(c, uid, tx, now);
      if tx.source == Weight && c.neuroDma then
        && (forall k: nat :: p.sglEntries <= k <==> tx.size <= k * c.sglEntryBytes)
        && (forall k: pos :: p.quantum <= k <==> c.sglEntryBytes <= k * c.bus)
      else p.quantum == c.quantumUs && p.sglEntries == 1
    ensures NewPending(c, uid, tx, now).path ==
      if tx.source != Weight then NoDma else if c.neuroDma then NeuroDma else Bounce
  {
    if tx.source == Weight && c.neuroDma {
      forall k: nat ensures CeilDiv(tx.size, c.sglEntryBytes) <= k <==> tx.size <= k * c.sglEntryBytes {
        CeilIsLeast(tx.size, c.sglEntryBytes, k);
      }
      CeilIsLeast(c.sglEntryBytes, c.bus, 0);
      forall k: pos ensures CeilDiv(c.sglEntryBytes, c.bus) <= k <==> c.sglEntryBytes <= k * c.bus {
        CeilIsLeast(c.sglEntryBytes, c.bus, k);
      }
    }
  }

  /** A bounce transfer passes the bus twice and memory once: its bandwidth is the largest whose time per
      byte is not below the sum of the three. */
  lemma BounceIsSeries(c: RawConfig, w: nat)
    ensures w <= BounceBw(c) <==> w * (2 * c.memcpy + c.bus) <= c.bus * c.memcpy
  {
    var d, n, q := 2 * c.memcpy + c.bus, c.bus * c.memcpy, BounceBw(c);
    assert d * q <= n < d * q + d;
    if w <= q {
      MulLe(w, q, d);
    } else {
      MulLe(q + 1, w, d);
    }
  }

  /** The whole bytes per microsecond in `x`, but never less than one. */
  predicate WholeAtLeastOne(bw: int, x: real) {
    if x < 1.0 then bw == 1 else bw as real <= x < bw as real + 1.0
  }

  lemma LiftedIsWhole(x: real)
    ensures WholeAtLeastOne(AtLeastOne(x), x)
  {
  }

  /** Bandwidth before compression: the bus, or the bounce bandwidth for weights without zero-copy. */
  function PlainBw(c: RawConfig, s: Source): int {
    if s == Weight && !c.neuroDma then c.bus * c.memcpy / (2 * c.memcpy + c.bus) else c.bus
  }

  /** Plain bandwidth times the compression ratio of the source, capped. */
  function CappedBoost(c: RawConfig, s: Source, cap: int): real {
    var boosted := PlainBw(c, s) as real * (if s == Weight then c.weightRatio else c.textureRatio);
    if boosted <= cap as real then boosted else cap as real
  }

  lemma BoostIs(c: RawConfig, s: Source, cap: int)
    ensures RMin(Boosted(c, s), cap as real) == CappedBoost(c, s, cap)
  {
    assert PathBw(c, s) == PlainBw(c, s);
  }

  lemma CompressedIs(c: RawConfig, s: Source, cap: int)
    ensures WholeAtLeastOne(AtLeastOne(RMin(Boosted(c, s), cap as real)), CappedBoost(c, s, cap))
  {
    hide Boosted, CappedBoost, RMin, WholeAtLeastOne, AtLeastOne;
    BoostIs(c, s, cap);
    LiftedIsWhole(CappedBoost(c, s, cap));
  }

  /** The bandwidth by compression: audio and uncompressed paths get the plain one; with a decompressor it is
      the plain one times the ratio, capped by the decompressor's, in whole bytes and at least one; an unknown
      path only lifts zero to one. */
  lemma CompressedBandwidth(c: Config, s: Source)
    ensures var bw := EffectiveBw(c, s);
      if s == Audio || c.compression == Uncompressed then bw == PlainBw(c, s)
      else match c.compression
        case InlineHw => WholeAtLeastOne(bw, CappedBoost(c, s, c.decompressorBw))
        case Cpu => WholeAtLeastOne(bw, CappedBoost(c, s, c.cpuDecompressBw))
        case _ => bw == if PlainBw(c, s) <= 0 then 1 else PlainBw(c, s)
  {
    assert PathBw(c, s) == PlainBw(c, s);
    hide WholeAtLeastOne, AtLeastOne, PlainBw, PathBw, Boosted, CappedBoost, RMin;
    CompressedIs(c, s, c.decompressorBw);
    CompressedIs(c, s, c.cpuDecompressBw);
  }

  /** The period of a generator is the exact period rounded to the nearest microsecond, halves up, and
      never zero. */
  lemma PeriodIsNearest(bytes: nat, rate: pos)
    ensures var p := Period(bytes, rate);
      (2 * bytes < rate && p == 1) || (2 * rate * p - rate <= 2 * bytes < 2 * rate * p + rate)
  {
    var q := (2 * bytes + rate) / (2 * rate);
    assert 2 * rate * q <= 2 * bytes + rate < 2 * rate * q + 2 * rate;
    if 2 * bytes >= rate {
      assert q >= 1;
    }
  }

  // ---- What whole runs cost ----

  function WeightDone(r: Rec): nat { if r.Completed? && r.p.tx.source == Weight then 1 else 0 }

  function WeightBytes(r: Rec): nat { if r.Completed? && r.p.tx.source == Weight then r.p.tx.size else 0 }

  function BulkDone(r: Rec): nat { if r.Completed? && r.p.tx.source != Audio then 1 else 0 }

  function BulkBytes(r: Rec): nat { if r.Completed? && r.p.tx.source != Audio then r.p.tx.size else 0 }

  /** Processor cycles: a set-up per zero-copy weight transfer or a price per bounced byte, and a set-up per
      transfer through the hardware decompressor; software decompression is priced per byte; outside the
      zero-copy path every transfer is one scatter-gather entry. */
  predicate Totals(c: Config, k: Kpi, log: Trace) {
    && k.cpuCycles ==
         (if c.neuroDma then c.dmaSetupCycles * Tally(log, WeightDone) else c.cyclesPerByte * Tally(log, WeightBytes))
         + (if c.compression == InlineHw then c.hwSetupCycles * Tally(log, BulkDone) else 0)
    && k.decompressCycles == (if c.compression == Cpu then c.cpuCyclesPerByte * Tally(log, BulkBytes) else 0)
    && (!c.neuroDma ==> k.sglTotal == k.completed)
  }

  lemma Distribute(k: nat, a: nat, b: nat)
    ensures k * (a + b) == k * a + k * b && k * b == b * k
  {
  }

  lemma CompletionTallies(log: Trace, p: Pending, now: Time)
    ensures var r := Completed(p, now);
      var log' := Snoc(log, r);
      && Tally(log', WeightDone) == Tally(log, WeightDone) + (if p.tx.source == Weight then 1 else 0)
      && Tally(log', WeightBytes) == Tally(log, WeightBytes) + (if p.tx.source == Weight then p.tx.size else 0)
      && Tally(log', BulkDone) == Tally(log, BulkDone) + (if p.tx.source != Audio then 1 else 0)
      && Tally(log', BulkBytes) == Tally(log, BulkBytes) + (if p.tx.source != Audio then p.tx.size else 0)
  {
  }

  lemma CompletionCounts(k: Kpi, p: Pending, now: Time)
    ensures var k' := CountCompletion(k, p, now);
      && k'.cpuCycles == k.cpuCycles + p.cpuCycles && k'.decompressCycles == k.decompressCycles + p.decompressCycles
      && k'.sglTotal == k.sglTotal + p.sglEntries && k'.completed == k.completed + 1
  {
  }

  lemma CompletionTotals(c: Config, k: Kpi, log: Trace, p: Pending, now: Time)
    requires Totals(c, k, log) && Made(c, p)
    ensures Totals(c, CountCompletion(k, p, now), Snoc(log, Completed(p, now)))
  {
    hide Tally, QuantumFor, EffectiveBw, CountCompletion;
    CompletionTallies(log, p, now);
    CompletionCounts(k, p, now);
    var weight, bulk := if p.tx.source == Weight then 1 else 0, if p.tx.source != Audio then 1 else 0;
    Distribute(c.dmaSetupCycles, Tally(log, WeightDone), weight);
    Distribute(c.cyclesPerByte, Tally(log, WeightBytes), if p.tx.source == Weight then p.tx.size else 0);
    Distribute(c.hwSetupCycles, Tally(log, BulkDone), bulk);
    Distribute(c.cpuCyclesPerByte, Tally(log, BulkBytes), if p.tx.source != Audio then p.tx.size else 0);
  }

  lemma OtherTotals(c: Config, k: Kpi, log: Trace, r: Rec)
    requires Totals(c, k, log) && !r.Completed?
    ensures Totals(c, k, Snoc(log, r))
  {
  }

  ghost predicate Priced(b: Bus) {
    AllMade(b) && Totals(b.cfg, b.kpi, b.log)
  }

  lemma RetirePriced(b: Bus)
    requires Priced(b) && b.slot.Some?
    ensures Totals(b.cfg, Retire(b).kpi, Retire(b).log)
  {
    RetireSystem(b);
    hide Totals, System, Bag;
    var s := b.slot.value;
    var p := AfterQuantum(s.p);
    var served := Served(p, b.now, s.fireAt - s.startAt, ServedBytes(s.p));
    assert Made(b.cfg, s.p) && Made(b.cfg, p);
    OtherTotals(b.cfg, b.kpi, b.log, served);
    if p.remaining == 0 {
      CompletionTotals(b.cfg, b.kpi, Snoc(b.log, served), p, b.now);
    } else {
      OtherTotals(b.cfg, b.kpi, Snoc(b.log, served), Dropped(p, b.now));
    }
  }

  lemma QuietTallies(b: Bus, a: Act)
    requires Enabled(b, a) && a != Finish
    ensures var k, k' := b.kpi, Do(b, a).kpi;
      && k'.cpuCycles == k.cpuCycles && k'.decompressCycles == k.decompressCycles
      && k'.sglTotal == k.sglTotal && k'.completed == k.completed && Do(b, a).cfg == b.cfg
    ensures forall f: Rec -> nat :: (forall r: Rec :: !r.Completed? ==> f(r) == 0) ==>
      Tally(Do(b, a).log, f) == Tally(b.log, f)
  {
  }

  lemma QuietPriced(b: Bus, a: Act)
    requires Totals(b.cfg, b.kpi, b.log) && Enabled(b, a) && a != Finish
    ensures Do(b, a).cfg == b.cfg && Totals(b.cfg, Do(b, a).kpi, Do(b, a).log)
  {
    QuietTallies(b, a);
    hide Do, Tally;
  }

  lemma ActPriced(b: Bus, a: Act)
    requires Priced(b) && Enabled(b, a)
    ensures Priced(Do(b, a))
  {
    ActMade(b, a);
    hide Totals, AllMade;
    if a == Finish {
      RetirePriced(b);
    } else {
      QuietPriced(b, a);
    }
  }

  /** In every run the cycle counters are the prices of what was completed: audio costs nothing, each other
      transfer what its path asks for, and a dropped or unfinished one nothing. */
  lemma CycleTotals(b: Bus)
    requires Reachable(b)
    ensures Totals(b.cfg, b.kpi, b.log)
  {
    forall c, a | Priced(c) && Enabled(c, a) ensures Priced(Do(c, a)) {
      ActPriced(c, a);
    }
    InvariantRule(Priced, b);
  }

  /** The point of zero-copy: the same completed transfers cost fewer cycles than bounced exactly when the
      set-ups cost less than the copied bytes. */
  lemma ZeroCopySaves(b: Bus, b': Bus)
    requires Reachable(b) && Reachable(b') && b'.cfg == b.cfg.(neuroDma := true) && !b.cfg.neuroDma
    requires Tally(b.log, WeightDone) == Tally(b'.log, WeightDone) && Tally(b.log, BulkDone) == Tally(b'.log, BulkDone)
    ensures b'.kpi.cpuCycles < b.kpi.cpuCycles <==>
      b.cfg.dmaSetupCycles * Tally(b.log, WeightDone) < b.cfg.cyclesPerByte * Tally(b.log, WeightBytes)
  {
    CycleTotals(b);
    CycleTotals(b');
    hide Reachable, Tally;
  }
}
