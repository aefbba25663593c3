/** The theorems about single components, restated for every state of every simulation. */
module RunFacts {
  import opened Lifecycle
  import opened KpiAgreement
  import opened Events
  import opened SlotSafety
  import opened Simulation
  import opened SimulationSafety

  /** There is a pending quantum end exactly while the bus is busy, only one, and it is the due one. */
  lemma OneQuantumEnd(s: Setup, r: seq<World>, n: nat)
    requires WellPosed(s) && History(s, r) && n < |r|
    ensures QuantaPending(r[n].items) == if r[n].bus.slot.Some? then 1 else 0
    ensures r[n].bus.slot.Some? ==> var slot := r[n].bus.slot.value;
      exists it :: it in r[n].items && it.ev == QuantumDone(slot.p) && it.when == slot.fireAt
  {
    HistoryInv(s, r, n);
    if r[n].bus.slot.Some? {
      QuantumPending(s, r[n]);
    }
  }

  /** The scheduler's counters are tallies of what happened, the streaming audio statistics are those of
      the histogram's samples, every accepted transaction is accounted for, and only audio is dropped. */
  lemma SchedulerCountersAgree(s: Setup, r: seq<World>, n: nat)
    requires WellPosed(s) && History(s, r) && n < |r|
    ensures var b := r[n].bus;
      && Counters(b.kpi, b.log) && AudioStats(b.kpi, b.log)
      && b.kpi.issued == b.kpi.completed + b.kpi.dropped + |System(b)|
      && b.kpi.dropped == b.kpi.audioDropped
  {
    HistoryInv(s, r, n);
    CountersAgree(r[n].bus);
    ReachableCoherent(r[n].bus);
  }

  /** Hits and misses add up to the interactions handled, each key once; slots are held one per NPC, on
      pinned residents; and pins are exactly the occupied slots when interaction windows are disjoint. */
  lemma PredictorAgrees(s: Setup, r: seq<World>, n: nat)
    requires WellPosed(s) && History(s, r) && n < |r| && s.kind.ByIntent?
    ensures r[n].pred.Intents?
    ensures var i := r[n].pred.intent;
      && i.kpi.hits + i.kpi.misses == |i.handled| && i.kpi.degradations == i.kpi.misses
      && Safe(i.entries, i.slots)
      && (Disjoint(s.sc.interactions) ==> Exact(i.entries, i.slots))
  {
    HistoryInv(s, r, n);
    assert PredictorOk(s, r[n].pred, r[n].bus.now);
  }
}
