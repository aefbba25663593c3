/** What deadlines do in every run, said of the deadlines themselves: who is dropped, when, and who is still
    served late. */
module Deadlines {
  import opened Base
  import opened Configuration
  import opened Scheduling
  import opened Runs
  import opened Slicing
  import opened TraceTheorems
  import opened RoundRobin

  /** Only FIFO and the critical class look at deadlines before service. */
  predicate Guarded(fifo: bool, tx: Txn) {
    fifo || tx.qos == Critical
  }

  /** No guarded transaction began service at or after its deadline. */
  predicate StartsInTime(fifo: bool, log: Trace) {
    match log
    case Empty => true
    case Snoc(past, Started(p, at)) =>
      (Guarded(fifo, p.tx) && 0 < p.tx.deadline ==> at < p.tx.deadline) && StartsInTime(fifo, past)
    case Snoc(past, _) => StartsInTime(fifo, past)
  }

  /** A drop takes a guarded transaction that has not begun, or comes right after a quantum of a transaction
      that is not finished. */
  predicate DropsInPlace(fifo: bool, log: Trace) {
    match log
    case Empty => true
    case Snoc(past, Dropped(p, at)) =>
      (if p.started then past.Snoc? && past.last.Served? && past.last.p == p && past.last.at == at && p.remaining > 0
       else Guarded(fifo, p.tx))
      && DropsInPlace(fifo, past)
    case Snoc(past, _) => DropsInPlace(fifo, past)
  }

  ghost predicate Punctual(b: Bus) {
    && Sorted3(b.d) && (b.slot.Some? ==> b.slot.value.p.started)
    && StartsInTime(b.d.FifoQ?, b.log) && DropsInPlace(b.d.FifoQ?, b.log)
  }

  lemma BeginInTime(b: Bus)
    requires Sorted3(b.d) && Enabled(b, Begin) && StartsInTime(b.d.FifoQ?, b.log)
    ensures StartsInTime(b.d.FifoQ?, Do(b, Begin).log)
  {
    var lane := Choice(b.cfg, b.d).value;
    var p := Queue(b.d, lane)[0];
    assert p in Queue(b.d, lane);
    assert KeyLane(b.d.FifoQ?, p) == lane;
    hide Bill, ServiceUs, ChargeOf, Sorted3, PopFrom;
  }

  lemma BeginInPlace(b: Bus)
    requires Enabled(b, Begin) && DropsInPlace(b.d.FifoQ?, b.log)
    ensures DropsInPlace(b.d.FifoQ?, Do(b, Begin).log)
  {
    hide Bill, ServiceUs, ChargeOf, PopFrom;
  }

  lemma DropInPlace(b: Bus)
    requires Sorted3(b.d) && Enabled(b, Drop) && DropsInPlace(b.d.FifoQ?, b.log)
    ensures DropsInPlace(b.d.FifoQ?, Do(b, Drop).log)
  {
    var lane := GuardedLane(b.d);
    var p := Queue(b.d, lane)[0];
    assert p in Queue(b.d, lane);
    assert KeyLane(b.d.FifoQ?, p) == lane;
    hide Sorted3, PopFrom;
  }

  lemma FinishInPlace(b: Bus)
    requires Enabled(b, Finish) && b.slot.value.p.started && DropsInPlace(b.d.FifoQ?, b.log)
    ensures DropsInPlace(b.d.FifoQ?, Do(b, Finish).log)
  {
    hide Push, CountCompletion, CountDrop;
  }

  lemma OthersInTime(b: Bus, a: Act)
    requires Enabled(b, a) && a != Begin && StartsInTime(b.d.FifoQ?, b.log)
    ensures StartsInTime(b.d.FifoQ?, Do(b, a).log)
    ensures !a.Drop? && !a.Finish? && DropsInPlace(b.d.FifoQ?, b.log) ==> DropsInPlace(b.d.FifoQ?, Do(b, a).log)
  {
  }

  lemma SlotStarted(b: Bus, a: Act)
    requires Enabled(b, a) && (b.slot.Some? ==> b.slot.value.p.started)
    ensures Do(b, a).slot.Some? ==> Do(b, a).slot.value.p.started
  {
  }

  lemma ActPunctual(b: Bus, a: Act)
    requires Punctual(b) && Enabled(b, a)
    ensures Punctual(Do(b, a))
  {
    ActSorted(b, a);
    SlotStarted(b, a);
    if a == Begin {
      BeginInTime(b);
      BeginInPlace(b);
    } else {
      OthersInTime(b, a);
      match a
      case Drop => DropInPlace(b);
      case Finish => FinishInPlace(b);
      case _ =>
    }
    hide Sorted3, StartsInTime, DropsInPlace, Do;
  }

  lemma ReachablePunctual(b: Bus)
    requires Reachable(b)
    ensures Punctual(b)
  {
    forall c, a | Punctual(c) && Enabled(c, a) ensures Punctual(Do(c, a)) {
      ActPunctual(c, a);
    }
    InvariantRule(Punctual, b);
  }

  lemma {:induction false} StartOf(fifo: bool, log: Trace, p: Pending, at: Time)
    requires StartsInTime(fifo, log) && InLog(log, Started(p, at)) && Guarded(fifo, p.tx) && 0 < p.tx.deadline
    ensures at < p.tx.deadline
  {
    if log.last != Started(p, at) {
      StartOf(fifo, log.past, p, at);
    }
  }

  lemma {:induction false} DropOf(fifo: bool, log: Trace, p: Pending, at: Time)
    requires DropsInPlace(fifo, log) && InLog(log, Dropped(p, at))
    ensures if p.started then exists us, bytes :: InLog(log, Served(p, at, us, bytes)) else Guarded(fifo, p.tx)
  {
    if log.last == Dropped(p, at) {
      if p.started {
        assert InLog(log.past, log.past.last);
        assert InLog(log, Served(p, at, log.past.last.us, log.past.last.bytes));
      }
    } else {
      DropOf(fifo, log.past, p, at);
      if p.started {
        var us, bytes :| InLog(log.past, Served(p, at, us, bytes));
        assert InLog(log, Served(p, at, us, bytes));
      }
    }
  }

  /** A quantum that began at or after the deadline. */
  predicate BeganLate(r: Rec) {
    r.Quantum? && 0 < r.p.tx.deadline <= r.at
  }

  lemma {:induction false} TwoLate(log: Trace, x: Rec, y: Rec)
    requires InLog(log, x) && InLog(log, y) && x != y && BeganLate(x) && BeganLate(y) && x.p.uid == y.p.uid
    ensures LateQuanta(log, x.p.uid) >= 2
  {
    if log.last == x {
      OneLate(log.past, y);
    } else if log.last == y {
      OneLate(log.past, x);
    } else {
      TwoLate(log.past, x, y);
    }
  }

  lemma {:induction false} OneLate(log: Trace, x: Rec)
    requires InLog(log, x) && BeganLate(x)
    ensures LateQuanta(log, x.p.uid) >= 1
  {
    if log.last != x {
      OneLate(log.past, x);
    }
  }

  /** Deadlines in every run. A drop comes at or after a positive deadline, and takes either a transaction of
      FIFO or of the critical class that has not begun, or one whose quantum has just ended; nothing of FIFO or
      of the critical class begins at or after its deadline; nobody has two quanta that begin late. */
  lemma DeadlinesKept(b: Bus)
    requires Reachable(b)
    ensures forall p, at :: InLog(b.log, Dropped(p, at)) ==> 0 < p.tx.deadline <= at
    ensures forall p, at :: InLog(b.log, Dropped(p, at)) ==>
      if p.started then exists us, bytes :: InLog(b.log, Served(p, at, us, bytes)) else Guarded(b.d.FifoQ?, p.tx)
    ensures forall p, at :: InLog(b.log, Started(p, at)) && Guarded(b.d.FifoQ?, p.tx) && 0 < p.tx.deadline ==>
      at < p.tx.deadline
    ensures forall x, y ::
      InLog(b.log, x) && InLog(b.log, y) && BeganLate(x) && BeganLate(y) && x.p.uid == y.p.uid ==> x == y
  {
    ReachableAccounted(b);
    ReachablePunctual(b);
    assert DropsJustified(b.log) && forall u: nat :: LateQuanta(b.log, u) <= 1;
    hide Accounted, Punctual, Reachable;
    forall p, at | InLog(b.log, Dropped(p, at)) ensures 0 < p.tx.deadline <= at {
      DropWasOverdue(b.log, p, at);
    }
    forall p, at | InLog(b.log, Dropped(p, at))
      ensures if p.started then exists us, bytes :: InLog(b.log, Served(p, at, us, bytes))
              else Guarded(b.d.FifoQ?, p.tx)
    {
      DropOf(b.d.FifoQ?, b.log, p, at);
    }
    forall p, at | InLog(b.log, Started(p, at)) && Guarded(b.d.FifoQ?, p.tx) && 0 < p.tx.deadline
      ensures at < p.tx.deadline
    {
      StartOf(b.d.FifoQ?, b.log, p, at);
    }
    forall x, y | InLog(b.log, x) && InLog(b.log, y) && BeganLate(x) && BeganLate(y) && x.p.uid == y.p.uid
      ensures x == y
    {
      if x != y {
        TwoLate(b.log, x, y);
      }
    }
  }
}
