/** Sums over the transactions in the system, by queue position. */
module LaneSums {
  import opened Base
  import opened Configuration
  import opened Scheduling
  import opened Lifecycle
  import opened RoundRobin

  function SumQ(q: seq<Pending>, f: Pending -> nat): nat {
    if q == [] then 0 else f(q[0]) + SumQ(q[1..], f)
  }

  lemma {:induction false} SumPush(q: seq<Pending>, p: Pending, f: Pending -> nat)
    ensures SumQ(q + [p], f) == SumQ(q, f) + f(p)
  {
    if q == [] {
      assert (q + [p])[1..] == [];
    } else {
      assert (q + [p])[1..] == q[1..] + [p];
      SumPush(q[1..], p, f);
    }
  }

  lemma {:induction false} SumQZero(q: seq<Pending>, f: Pending -> nat)
    ensures SumQ(q, f) == 0 <==> forall p :: p in q ==> f(p) == 0
  {
    if q != [] {
      SumQZero(q[1..], f);
      assert q == [q[0]] + q[1..];
    }
  }

  /** Sum of `f` over everything that waits or is on the bus. */
  function SystemSum(b: Bus, f: Pending -> nat): nat {
    DisciplineSum(b.d, f) + SlotSum(b.slot, f)
  }

  function SlotSum(s: Option<Slot>, f: Pending -> nat): nat {
    if s.Some? then f(s.value.p) else 0
  }

  function DisciplineSum(d: Discipline, f: Pending -> nat): nat {
    SumQ(Queue(d, FifoLane), f) + SumQ(Queue(d, CritLane), f) + SumQ(Queue(d, HighLane), f)
      + SumQ(Queue(d, NormLane), f)
  }

  /** `f` does not care whether service has started. */
  ghost predicate IgnoresStart(f: Pending -> nat) {
    forall p: Pending :: f(p.(started := true)) == f(p)
  }

  lemma FreshSum(c: Config, f: Pending -> nat)
    ensures SystemSum(Fresh(c), f) == 0
  {
    hide TokenCapacity, RefillRate;
  }

  lemma PushSum(d: Discipline, p: Pending, f: Pending -> nat)
    ensures DisciplineSum(Push(d, p), f) == DisciplineSum(d, f) + f(p)
  {
    forall lane
      ensures Queue(Push(d, p), lane) ==
        if lane == KeyLane(d.FifoQ?, p) then Queue(d, lane) + [p] else Queue(d, lane)
    {
      PushQueue(d, p, lane);
    }
    SumPush(Queue(d, KeyLane(d.FifoQ?, p)), p, f);
  }

  lemma PopSum(d: Discipline, l: Lane, f: Pending -> nat)
    requires Queue(d, l) != []
    ensures DisciplineSum(PopFrom(d, l), f) == DisciplineSum(d, f) - f(Queue(d, l)[0])
  {
    forall lane ensures Queue(PopFrom(d, l), lane) == if lane == l then Queue(d, l)[1..] else Queue(d, lane) {
      PopQueue(d, l, lane);
    }
  }

  lemma SameQueues(d: Discipline, d': Discipline, f: Pending -> nat)
    requires forall lane :: Queue(d', lane) == Queue(d, lane)
    ensures DisciplineSum(d', f) == DisciplineSum(d, f)
  {
  }

  lemma AdmitSum(b: Bus, tx: Txn, f: Pending -> nat)
    ensures SystemSum(Admit(b, tx), f) == SystemSum(b, f) + f(NewPending(b.cfg, b.kpi.issued, tx, b.now))
  {
    PushSum(b.d, NewPending(b.cfg, b.kpi.issued, tx, b.now), f);
  }

  lemma DropSum(b: Bus, f: Pending -> nat)
    requires HeadExpired(b)
    ensures SystemSum(DropHead(b), f) == SystemSum(b, f) - f(Queue(b.d, GuardedLane(b.d))[0])
  {
    PopSum(b.d, GuardedLane(b.d), f);
  }

  lemma RefillSum(b: Bus, f: Pending -> nat)
    requires b.slot.None?
    ensures SystemSum(Do(b, Refill), f) == SystemSum(b, f)
  {
    SameQueues(b.d, Do(b, Refill).d, f);
  }

  lemma RetireSum(b: Bus, f: Pending -> nat)
    requires b.slot.Some?
    ensures var p := b.slot.value.p;
      SystemSum(Retire(b), f) == SystemSum(b, f) - f(p) + if Requeues(b) then f(AfterQuantum(p)) else 0
  {
    PushSum(b.d, AfterQuantum(b.slot.value.p), f);
  }

  // ---- Over the scheduler's operations ----

  /** Anything the guarded lane could drop contributes nothing, or we only bound from above. */
  lemma {:induction false} DropExpiredSum(b: Bus, f: Pending -> nat)
    requires b.slot.None?
    ensures DropExpired(b).slot.None? && SystemSum(DropExpired(b), f) <= SystemSum(b, f)
    ensures (forall p, t :: Overdue(p, t) ==> f(p) == 0) ==> SystemSum(DropExpired(b), f) == SystemSum(b, f)
    decreases |Queue(b.d, GuardedLane(b.d))|
  {
    if HeadExpired(b) {
      DropSum(b, f);
      assert Overdue(Queue(b.d, GuardedLane(b.d))[0], b.now);
      DropExpiredSum(DropHead(b), f);
    }
  }

  lemma StartSum(b: Bus, f: Pending -> nat)
    requires IgnoresStart(f)
    ensures SystemSum(StartIfIdle(b), f) <= SystemSum(b, f)
    ensures (forall p, t :: Overdue(p, t) ==> f(p) == 0) ==> SystemSum(StartIfIdle(b), f) == SystemSum(b, f)
  {
    if b.slot.None? {
      var b1 := Prepare(b);
      RefillSum(b, f);
      DropExpiredSum(Do(b, Refill), f);
      if Choice(b1.cfg, b1.d).Some? {
        LaunchSum(b1, f);
      }
    }
  }

  lemma LaunchSum(b: Bus, f: Pending -> nat)
    requires b.slot.None? && Choice(b.cfg, b.d).Some? && IgnoresStart(f)
    ensures var l := Choice(b.cfg, b.d).value;
      SystemSum(Launch(Take(b, l), l, Queue(b.d, l)[0]), f) == SystemSum(b, f)
  {
    var l := Choice(b.cfg, b.d).value;
    var p := Queue(b.d, l)[0];
    PopSum(b.d, l, f);
    SameQueues(PopFrom(b.d, l), Bill(b.cfg, PopFrom(b.d, l), l, ChargeOf(b.cfg, l, p)), f);
    assert f(p.(started := true)) == f(p);
  }

  // ---- Quanta still to be served ----

  function QuantaLeft(p: Pending): nat
    decreases p.remaining
  {
    if p.remaining <= ChunkBytes(p) then 1 else 1 + QuantaLeft(AfterQuantum(p))
  }

  lemma {:induction false} QuantaIgnoreStart(p: Pending)
    ensures QuantaLeft(p.(started := true)) == QuantaLeft(p)
    decreases p.remaining
  {
    if p.remaining > ChunkBytes(p) {
      QuantaIgnoreStart(AfterQuantum(p));
      assert AfterQuantum(p.(started := true)) == AfterQuantum(p).(started := true);
    }
  }

  function Work(b: Bus): nat {
    SystemSum(b, QuantaLeft)
  }

  /** Every quantum end brings the system closer to being empty. */
  lemma QuantumEndWorks(b: Bus)
    requires b.slot.Some?
    ensures Work(QuantumEnd(b)) < Work(b)
  {
    forall p: Pending ensures QuantaLeft(p.(started := true)) == QuantaLeft(p) {
      QuantaIgnoreStart(p);
    }
    RetireSum(b, QuantaLeft);
    StartSum(Retire(b), QuantaLeft);
  }
}
