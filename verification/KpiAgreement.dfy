/** The scheduler's counters agree with its trace and with the latency histogram. */
module KpiAgreement {
  import opened Base
  import opened Configuration
  import opened Scheduling
  import opened Runs
  import opened Lifecycle
  import opened Slicing
  import opened LatencyHistograms

  function Tally(log: Trace, pick: Rec -> nat): nat {
    match log
    case Empty => 0
    case Snoc(past, r) => Tally(past, pick) + pick(r)
  }

  function IsArrival(r: Rec): nat { if r.Arrived? then 1 else 0 }

  function IsCompletion(r: Rec): nat { if r.Completed? then 1 else 0 }

  function IsDrop(r: Rec): nat { if r.Dropped? then 1 else 0 }

  function IsAudioDrop(r: Rec): nat { if r.Dropped? && r.p.tx.source == Audio then 1 else 0 }

  function CyclesOf(r: Rec): nat { if r.Completed? then r.p.cpuCycles else 0 }

  function DecompressOf(r: Rec): nat { if r.Completed? then r.p.decompressCycles else 0 }

  function SglOf(r: Rec): nat { if r.Completed? then r.p.sglEntries else 0 }

  /** End-to-end latencies of completed audio, in completion order. */
  function AudioLatencies(log: Trace): seq<int> {
    match log
    case Empty => []
    case Snoc(past, Completed(p, at)) =>
      if p.tx.source == Audio then AudioLatencies(past) + [at - p.tx.issuedAt] else AudioLatencies(past)
    case Snoc(past, _) => AudioLatencies(past)
  }

  /** Longest end-to-end latency of a completed weight transfer. */
  function WeightLatency(log: Trace): Time {
    match log
    case Empty => 0
    case Snoc(past, Completed(p, at)) =>
      if p.tx.source == Weight then Max(WeightLatency(past), at - p.tx.issuedAt) else WeightLatency(past)
    case Snoc(past, _) => WeightLatency(past)
  }

  /** Every counter is a tally of the trace. */
  predicate Counters(k: Kpi, log: Trace) {
    && k.issued == Tally(log, IsArrival)
    && k.completed == Tally(log, IsCompletion)
    && k.dropped == Tally(log, IsDrop)
    && k.audioDropped == Tally(log, IsAudioDrop)
    && k.cpuCycles == Tally(log, CyclesOf)
    && k.decompressCycles == Tally(log, DecompressOf)
    && k.sglTotal == Tally(log, SglOf)
    && k.weightLatMax == WeightLatency(log)
  }

  /** Count, maximum and mean of a list of latencies. */
  predicate Summarises(samples: seq<int>, count: nat, max: Time, mean: real) {
    && count == |samples| && max == MaxOf(samples)
    && mean * |samples| as real == SumOf(samples) as real
    && (samples == [] ==> mean == 0.0)
    && (forall x :: x in samples ==> x >= 0)
  }

  /** The streaming count, maximum and mean are those of the recorded latencies. */
  predicate AudioStats(k: Kpi, log: Trace) {
    && k.audioSamples == AudioLatencies(log)
    && Summarises(k.audioSamples, k.audioCompleted, k.audioLatMax, k.audioLatMean)
  }

  /** No transaction in the system was issued in the future. */
  ghost predicate IssuedInPast(b: Bus) {
    && (forall p :: p in Bag(b.d) ==> p.tx.issuedAt <= b.now)
    && (b.slot.Some? ==> b.slot.value.p.tx.issuedAt <= b.now)
  }

  ghost predicate Agrees(b: Bus) {
    IssuedInPast(b) && Counters(b.kpi, b.log) && AudioStats(b.kpi, b.log)
  }

  lemma QueuedInPast(b: Bus, b': Bus)
    requires IssuedInPast(b) && b.now == b'.now && b'.slot.None?
    requires forall p :: p in Bag(b'.d) ==> p in Bag(b.d) || (b.slot.Some? && p.tx == b.slot.value.p.tx)
    ensures IssuedInPast(b')
  {
  }

  lemma RetireInPast(b: Bus)
    requires IssuedInPast(b) && b.slot.Some?
    ensures IssuedInPast(Retire(b))
  {
    PushBag(b.d, AfterQuantum(b.slot.value.p));
    QueuedInPast(b, Retire(b));
  }

  lemma BeginInPast(b: Bus)
    requires IssuedInPast(b) && Enabled(b, Begin)
    ensures IssuedInPast(Do(b, Begin))
  {
    BeginShape(b);
    PopBag(b.d, Choice(b.cfg, b.d).value);
    hide Do;
  }

  lemma ActIssuedInPast(b: Bus, a: Act)
    requires IssuedInPast(b) && Enabled(b, a)
    ensures IssuedInPast(Do(b, a))
  {
    match a
    case Advance(t) =>
    case Arrive(tx) => PushBag(b.d, NewPending(b.cfg, b.kpi.issued, tx, b.now));
    case Drop => PopBag(b.d, GuardedLane(b.d));
    case Refill => assert Bag(Do(b, a).d) == Bag(b.d);
    case Begin => BeginInPast(b);
    case Finish => RetireInPast(b);
  }

  lemma FinishCounters(b: Bus)
    requires Counters(b.kpi, b.log) && b.slot.Some?
    ensures Counters(Retire(b).kpi, Retire(b).log)
  {
  }

  lemma QuietCounters(b: Bus, a: Act)
    requires Counters(b.kpi, b.log) && Enabled(b, a) && a != Finish
    ensures Counters(Do(b, a).kpi, Do(b, a).log)
  {
  }

  lemma ActCounters(b: Bus, a: Act)
    requires Counters(b.kpi, b.log) && Enabled(b, a)
    ensures Counters(Do(b, a).kpi, Do(b, a).log)
  {
    hide Counters;
    if a == Finish {
      FinishCounters(b);
    } else {
      QuietCounters(b, a);
    }
  }

  /** The streaming update of the mean keeps mean times count equal to the sum. */
  lemma MeanStep(mean: real, n: nat, sum: int, x: int)
    requires mean * n as real == sum as real
    ensures (mean + (x as real - mean) / (n + 1) as real) * (n + 1) as real == (sum + x) as real
  {
    var d := (n + 1) as real;
    assert ((x as real - mean) / d) * d == x as real - mean;
    assert (mean + (x as real - mean) / d) * d == mean * d + ((x as real - mean) / d) * d;
    assert mean * d == mean * n as real + mean;
  }

  /** One more sample, and the streaming update that goes with it. */
  lemma SampleAdded(samples: seq<int>, count: nat, max: Time, mean: real, x: nat)
    requires Summarises(samples, count, max, mean)
    ensures Summarises(samples + [x], count + 1, Max(max, x), mean + (x as real - mean) / (count + 1) as real)
  {
    var s := samples + [x];
    assert s[..|s| - 1] == samples;
    MeanStep(mean, count, SumOf(samples), x);
  }

  lemma CompletionStats(k: Kpi, log: Trace, p: Pending, now: Time)
    requires AudioStats(k, log) && p.tx.issuedAt <= now
    ensures AudioStats(CountCompletion(k, p, now), Snoc(log, Completed(p, now)))
  {
    hide Summarises;
    if p.tx.source == Audio {
      SampleAdded(k.audioSamples, k.audioCompleted, k.audioLatMax, k.audioLatMean, now - p.tx.issuedAt);
    }
  }

  lemma QuietStats(b: Bus, a: Act)
    requires Enabled(b, a) && a != Finish
    ensures var k, k' := b.kpi, Do(b, a).kpi;
      && AudioLatencies(Do(b, a).log) == AudioLatencies(b.log)
      && k'.audioSamples == k.audioSamples && k'.audioCompleted == k.audioCompleted
      && k'.audioLatMax == k.audioLatMax && k'.audioLatMean == k.audioLatMean
  {
  }

  lemma FinishStats(b: Bus)
    requires AudioStats(b.kpi, b.log) && IssuedInPast(b) && b.slot.Some?
    ensures AudioStats(Retire(b).kpi, Retire(b).log)
  {
    hide Summarises;
    var s := b.slot.value;
    var p := AfterQuantum(s.p);
    var log := Snoc(b.log, Served(p, b.now, s.fireAt - s.startAt, ServedBytes(s.p)));
    assert AudioStats(b.kpi, log);
    if p.remaining == 0 {
      CompletionStats(b.kpi, log, p, b.now);
    }
  }

  lemma ActStats(b: Bus, a: Act)
    requires AudioStats(b.kpi, b.log) && IssuedInPast(b) && Enabled(b, a)
    ensures AudioStats(Do(b, a).kpi, Do(b, a).log)
  {
    hide Summarises;
    if a == Finish {
      FinishStats(b);
    } else {
      QuietStats(b, a);
    }
  }

  /** In every reachable state the counters are tallies of the trace, and the streaming audio
      statistics are the count, maximum and mean of the latencies in the histogram. */
  lemma CountersAgree(b: Bus)
    requires Reachable(b)
    ensures Counters(b.kpi, b.log) && AudioStats(b.kpi, b.log)
  {
    forall c, a | Agrees(c) && Enabled(c, a) ensures Agrees(Do(c, a)) {
      ActIssuedInPast(c, a);
      ActCounters(c, a);
      ActStats(c, a);
    }
    InvariantRule(Agrees, b);
  }
}
