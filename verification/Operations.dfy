/** The scheduler's own operations, as runs of acts, and what holds whenever one returns. */
module Operations {
  import opened Base
  import opened Configuration
  import opened Scheduling
  import opened Runs
  import opened TokenBucket

  lemma {:induction false} DropExpiredRuns(b: Bus)
    requires b.slot.None?
    ensures var b' := DropExpired(b);
      && Leads(b, b') && b'.slot.None? && !HeadExpired(b')
      && b'.cfg == b.cfg && b'.now == b.now && (Refilled(b) ==> Refilled(b'))
    decreases |Queue(b.d, GuardedLane(b.d))|
  {
    if HeadExpired(b) {
      var b1 := Do(b, Drop);
      DropExpiredRuns(b1);
      LeadsAct(b, Drop);
      LeadsJoin(b, b1, DropExpired(b1));
    } else {
      LeadsSelf(b);
    }
  }

  lemma PrepareRuns(b: Bus)
    requires b.slot.None? && Bucket(b)
    ensures var b' := Prepare(b);
      && Leads(b, b') && b'.slot.None? && !HeadExpired(b') && Refilled(b')
      && b'.cfg == b.cfg && b'.now == b.now
  {
    var b1 := Do(b, Refill);
    LeadsAct(b, Refill);
    DropExpiredRuns(b1);
    LeadsJoin(b, b1, Prepare(b));
  }

  lemma StartIfIdleRuns(b: Bus)
    requires Bucket(b)
    ensures Leads(b, StartIfIdle(b)) && StartIfIdle(b).cfg == b.cfg && StartIfIdle(b).now == b.now
  {
    if b.slot.Some? {
      LeadsSelf(b);
    } else {
      var b1 := Prepare(b);
      PrepareRuns(b);
      if Choice(b1.cfg, b1.d).Some? {
        LeadsAct(b1, Begin);
        LeadsJoin(b, b1, Do(b1, Begin));
      }
    }
  }

  /** Scheduling takes no simulated time. */
  lemma StartTime(b: Bus)
    ensures StartIfIdle(b).now == b.now && StartIfIdle(b).cfg == b.cfg
  {
    if b.slot.None? {
      DropExpiredRuns(Do(b, Refill));
    }
  }

  /** `accept` is a run of the scheduler. */
  lemma AcceptRuns(b: Bus, tx: Txn)
    requires Reachable(b) && tx.issuedAt <= b.now
    ensures Leads(b, Accept(b, tx)) && Reachable(Accept(b, tx))
    ensures Accept(b, tx).cfg == b.cfg && Accept(b, tx).now == b.now
  {
    var b1 := Admit(b, tx);
    ReachableBucket(b);
    assert b1 == Do(b, Arrive(tx));
    LeadsAct(b, Arrive(tx));
    StartIfIdleRuns(b1);
    LeadsJoin(b, b1, Accept(b, tx));
    ReachableThen(b, Accept(b, tx));
  }

  /** `on_quantum_end` is a run of the scheduler, when it fires on time. */
  lemma QuantumEndRuns(b: Bus)
    requires Reachable(b) && Enabled(b, Finish)
    ensures Leads(b, QuantumEnd(b)) && Reachable(QuantumEnd(b))
    ensures QuantumEnd(b).cfg == b.cfg && QuantumEnd(b).now == b.now
  {
    var b1 := Retire(b);
    ReachableBucket(b);
    assert b1 == Do(b, Finish);
    LeadsAct(b, Finish);
    StartIfIdleRuns(b1);
    LeadsJoin(b, b1, QuantumEnd(b));
    ReachableThen(b, QuantumEnd(b));
  }

  lemma AdvanceRuns(b: Bus, t: Time)
    requires Reachable(b) && Enabled(b, Advance(t))
    ensures Leads(b, b.(now := t)) && Reachable(b.(now := t))
  {
    LeadsAct(b, Advance(t));
    ReachableThen(b, b.(now := t));
  }

  // ---- Work conservation ----

  /** The policy has nothing it may serve: empty queues, except for a critical head it cannot pay for. */
  predicate NothingToServe(b: Bus) {
    match b.d
    case FifoQ(q) => q == []
    case QosQ(crit, high, norm, tokens, _, _, _, _, _) =>
      high == [] && norm == [] && (crit == [] || ChargeOf(b.cfg, CritLane, crit[0]) as real > tokens)
  }

  /** Between events an idle bus has nothing to serve. */
  predicate Settled(b: Bus) {
    b.slot.None? ==> NothingToServe(b)
  }

  /** The bus stays idle after an operation exactly when nothing could be served. */
  lemma IdleIffNothingToServe(b: Bus)
    requires b.slot.None?
    ensures StartIfIdle(b).slot.None? <==> NothingToServe(Prepare(b))
    ensures StartIfIdle(b).slot.None? ==> StartIfIdle(b) == Prepare(b)
  {
    DropExpiredRuns(Do(b, Refill));
  }

  lemma OperationsSettle(b: Bus, tx: Txn)
    ensures Settled(StartIfIdle(b))
    ensures Settled(Accept(b, tx))
    ensures b.slot.Some? ==> Settled(QuantumEnd(b))
  {
    if b.slot.None? {
      IdleIffNothingToServe(b);
    }
    if Admit(b, tx).slot.None? {
      IdleIffNothingToServe(Admit(b, tx));
    }
    if b.slot.Some? {
      IdleIffNothingToServe(Retire(b));
    }
  }

  // ---- A starved critical head ----

  /** The first critical transaction of a fresh QoS scheduler is put on the bus exactly when the
      full bucket covers its charge; otherwise the bus stays idle and nothing will wake it. */
  lemma FirstCriticalServedIff(c: Config, tx: Txn)
    requires c.policy == Qos && tx.qos == Critical
    ensures var p := NewPending(c, 0, tx, 0);
      Accept(Fresh(c), tx).slot.Some? <==>
      100 * Min(tx.size, c.bus * c.quantumUs % 0x1_0000_0000) <= 10000 * (c.bus * c.criticalPct)
  {
    RateExact(c);
    var p := NewPending(c, 0, tx, 0);
    var b := Admit(Fresh(c), tx);
    assert b.d.crit == [p];
    assert !HeadExpired(Do(b, Refill));
    assert DropExpired(Do(b, Refill)) == Do(b, Refill);
  }
}
