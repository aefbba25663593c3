/** What every run of the scheduler keeps, under both policies: the identity of each
    transaction is in exactly one place, its trace follows the lifecycle automaton, and
    the counters account for all of them. */
module Lifecycle {
  import opened Base
  import opened Configuration
  import opened Scheduling
  import opened Runs

  // ---- The transactions waiting in the queues ----

  ghost function Bag(d: Discipline): multiset<Pending> {
    match d
    case FifoQ(q) => multiset(q)
    case QosQ(c, h, n, _, _, _, _, _, _) => multiset(c) + multiset(h) + multiset(n)
  }

  lemma PushBag(d: Discipline, p: Pending)
    ensures Bag(Push(d, p)) == Bag(d) + multiset{p}
  {
    var lane := LaneOf(d, p);
    assert multiset(Queue(d, lane) + [p]) == multiset(Queue(d, lane)) + multiset{p};
    match lane
    case FifoLane =>
    case CritLane =>
      MoveLast(multiset(d.crit), multiset{p}, multiset(d.high));
      MoveLast(multiset(d.crit) + multiset(d.high), multiset{p}, multiset(d.norm));
    case HighLane =>
      MoveLast(multiset(d.crit), multiset(d.high), multiset{p});
      MoveLast(multiset(d.crit) + multiset(d.high), multiset{p}, multiset(d.norm));
    case NormLane =>
  }

  lemma MoveLast(a: multiset<Pending>, b: multiset<Pending>, c: multiset<Pending>)
    ensures a + b + c == a + c + b == a + (b + c)
  {
  }

  lemma PopBag(d: Discipline, lane: Lane)
    requires Queue(d, lane) != []
    ensures Queue(d, lane)[0] in Bag(d)
    ensures Bag(PopFrom(d, lane)) == Bag(d) - multiset{Queue(d, lane)[0]}
  {
    var q := Queue(d, lane);
    assert q == [q[0]] + q[1..];
    var p, rest := multiset{q[0]}, multiset(q[1..]);
    assert multiset(q) == p + rest;
    match lane
    case FifoLane =>
    case CritLane => LessOne(q[0], rest, multiset(d.high), multiset(d.norm));
    case HighLane => LessOne(q[0], multiset(d.crit), rest, multiset(d.norm));
    case NormLane => LessOne(q[0], multiset(d.crit), multiset(d.high), rest);
  }

  lemma LessOne(x: Pending, a: multiset<Pending>, b: multiset<Pending>, c: multiset<Pending>)
    ensures multiset{x} + a + b + c - multiset{x} == a + b + c
    ensures a + (multiset{x} + b) + c - multiset{x} == a + b + c
    ensures a + b + (multiset{x} + c) - multiset{x} == a + b + c
  {
  }

  ghost function OnBus(s: Option<Slot>): multiset<Pending> {
    if s.Some? then multiset{s.value.p} else multiset{}
  }

  /** Every transaction that was accepted and has neither completed nor been dropped. */
  ghost function System(b: Bus): multiset<Pending> {
    Bag(b.d) + OnBus(b.slot)
  }

  ghost predicate Has(m: multiset<Pending>, u: nat) {
    exists p :: p in m && p.uid == u
  }

  // ---- The lifecycle automaton ----

  datatype Phase = Unseen | Queued | Begun | Finished | Discarded | Illegal

  function Move(ph: Phase, r: Rec): Phase {
    match r
    case Arrived(_, _) => if ph == Unseen then Queued else Illegal
    case Dropped(_, _) => if ph == Queued || ph == Begun then Discarded else Illegal
    case Started(_, _) => if ph == Queued then Begun else Illegal
    case Quantum(_, _, _, _, _) => if ph == Begun then Begun else Illegal
    case Served(_, _, _, _) => if ph == Begun then Begun else Illegal
    case Completed(_, _) => if ph == Begun then Finished else Illegal
  }

  function Life(log: Trace, u: nat): Phase {
    match log
    case Empty => Unseen
    case Snoc(past, r) => if r.p.uid == u then Move(Life(past, u), r) else Life(past, u)
  }

  function PhaseOf(p: Pending): Phase {
    if p.started then Begun else Queued
  }

  ghost predicate Distinct(m: multiset<Pending>, n: nat) {
    && (forall p :: p in m ==> p.uid < n && m[p] == 1)
    && (forall p, q :: p in m && q in m && p.uid == q.uid ==> p == q)
  }

  ghost predicate Located(m: multiset<Pending>, log: Trace) {
    forall p :: p in m ==> Life(log, p.uid) == PhaseOf(p)
  }

  ghost predicate Legal(n: nat, log: Trace) {
    && (forall u: nat :: Life(log, u) != Illegal)
    && (forall u: nat :: Life(log, u) == Unseen <==> u >= n)
  }

  predicate Open(ph: Phase) {
    ph == Queued || ph == Begun
  }

  ghost predicate Covered(m: multiset<Pending>, log: Trace) {
    forall u: nat :: Open(Life(log, u)) ==> Has(m, u)
  }

  /** The transactions `m` have distinct identities below `n`, and the phase of every
      identity says where it is: open phases are exactly the ones still in `m`. */
  ghost predicate Agree(m: multiset<Pending>, n: nat, log: Trace) {
    Distinct(m, n) && Located(m, log) && Legal(n, log) && Covered(m, log)
  }

  ghost predicate Counted(b: Bus) {
    b.kpi.issued == b.kpi.completed + b.kpi.dropped + |System(b)|
  }

  ghost predicate Coherent(b: Bus) {
    && Agree(System(b), b.kpi.issued, b.log)
    && Counted(b)
    && (b.slot.Some? ==> b.slot.value.p.started)
  }

  /** `log'` extends `log` with records about `u` only. */
  ghost predicate Only(u: nat, log: Trace, log': Trace) {
    forall v: nat :: v != u ==> Life(log', v) == Life(log, v)
  }

  lemma HasAfter(m: multiset<Pending>, p: Pending, u: nat)
    ensures Has(m + multiset{p}, u) <==> Has(m, u) || u == p.uid
    ensures Has(m, u) && u != p.uid ==> Has(m - multiset{p}, u)
  {
    if u == p.uid {
      assert p in m + multiset{p};
    } else if q :| q in m && q.uid == u {
      assert q in m + multiset{p} && q in m - multiset{p};
    }
  }

  lemma DistinctAdd(m: multiset<Pending>, n: nat, p: Pending)
    requires Distinct(m, n) && p.uid < n
    requires forall q :: q in m ==> q.uid != p.uid
    ensures Distinct(m + multiset{p}, n)
  {
    assert forall q :: q in m + multiset{p} ==> q == p || q in m;
  }

  lemma DistinctRemove(m: multiset<Pending>, n: nat, p: Pending)
    requires Distinct(m, n) && p in m
    ensures Distinct(m - multiset{p}, n)
    ensures forall q :: q in m - multiset{p} ==> q in m && q.uid != p.uid
  {
    assert forall q :: q in m - multiset{p} ==> q in m && q != p;
  }

  lemma AgreeAdd(m: multiset<Pending>, n: nat, log: Trace, log': Trace, p: Pending)
    requires Agree(m, n, log) && Only(n, log, log')
    requires p.uid == n && Life(log', n) == PhaseOf(p)
    ensures Agree(m + multiset{p}, n + 1, log')
  {
    DistinctAdd(m, n + 1, p);
    forall q | q in m + multiset{p} ensures Life(log', q.uid) == PhaseOf(q) {
      assert q == p || q in m;
    }
    forall u: nat | Open(Life(log', u)) ensures Has(m + multiset{p}, u) {
      HasAfter(m, p, u);
    }
  }

  lemma AgreeRemove(m: multiset<Pending>, n: nat, log: Trace, log': Trace, p: Pending)
    requires Agree(m, n, log) && p in m && Only(p.uid, log, log')
    requires Life(log', p.uid) == Finished || Life(log', p.uid) == Discarded
    ensures Agree(m - multiset{p}, n, log')
  {
    DistinctRemove(m, n, p);
    assert Located(m - multiset{p}, log');
    forall u: nat | Open(Life(log', u)) ensures Has(m - multiset{p}, u) {
      HasAfter(m, p, u);
    }
  }

  lemma AgreeReplace(m: multiset<Pending>, n: nat, log: Trace, log': Trace, p: Pending, p': Pending)
    requires Agree(m, n, log) && p in m && Only(p.uid, log, log')
    requires p'.uid == p.uid && Life(log', p.uid) == PhaseOf(p')
    ensures Agree(m - multiset{p} + multiset{p'}, n, log')
  {
    var m1 := m - multiset{p};
    DistinctRemove(m, n, p);
    DistinctAdd(m1, n, p');
    forall q | q in m1 + multiset{p'} ensures Life(log', q.uid) == PhaseOf(q) {
      assert q == p' || q in m1;
    }
    forall u: nat | Open(Life(log', u)) ensures Has(m1 + multiset{p'}, u) {
      HasAfter(m, p, u);
      HasAfter(m1, p', u);
    }
  }

  lemma AdmitCoherent(b: Bus, tx: Txn)
    requires Coherent(b)
    ensures Coherent(Admit(b, tx))
  {
    var p := NewPending(b.cfg, b.kpi.issued, tx, b.now);
    PushBag(b.d, p);
    MoveLast(Bag(b.d), multiset{p}, OnBus(b.slot));
    AgreeAdd(System(b), b.kpi.issued, b.log, Snoc(b.log, Arrived(p, b.now)), p);
  }

  lemma DropCoherent(b: Bus)
    requires Coherent(b) && b.slot.None? && HeadExpired(b)
    ensures Coherent(DropHead(b))
  {
    var lane := GuardedLane(b.d);
    var p := Queue(b.d, lane)[0];
    PopBag(b.d, lane);
    assert System(DropHead(b)) == System(b) - multiset{p};
    AgreeRemove(System(b), b.kpi.issued, b.log, Snoc(b.log, Dropped(p, b.now)), p);
  }

  lemma BillBag(c: Config, d: Discipline, lane: Lane, charge: nat)
    requires lane != FifoLane ==> d.QosQ?
    ensures Bag(Bill(c, d, lane, charge)) == Bag(d)
  {
  }

  lemma BeginSystem(b: Bus)
    requires Enabled(b, Begin)
    ensures var p := Queue(b.d, Choice(b.cfg, b.d).value)[0];
      && p in System(b)
      && System(Do(b, Begin)) == System(b) - multiset{p} + multiset{p.(started := true)}
  {
    var lane := Choice(b.cfg, b.d).value;
    var p := Queue(b.d, lane)[0];
    PopBag(b.d, lane);
    BillBag(b.cfg, PopFrom(b.d, lane), lane, ChargeOf(b.cfg, lane, p));
    assert System(b) == Bag(b.d);
  }

  lemma BeginLife(b: Bus, u: nat)
    requires Enabled(b, Begin)
    requires var p := Queue(b.d, Choice(b.cfg, b.d).value)[0]; Life(b.log, p.uid) == PhaseOf(p)
    ensures var p := Queue(b.d, Choice(b.cfg, b.d).value)[0];
      Life(Do(b, Begin).log, u) == if u == p.uid then Begun else Life(b.log, u)
  {
  }

  lemma BeginCoherent(b: Bus)
    requires Coherent(b) && Enabled(b, Begin)
    ensures Coherent(Do(b, Begin))
  {
    var p := Queue(b.d, Choice(b.cfg, b.d).value)[0];
    var b' := Do(b, Begin);
    BeginSystem(b);
    forall u: nat ensures Life(b'.log, u) == if u == p.uid then Begun else Life(b.log, u) {
      BeginLife(b, u);
    }
    AgreeReplace(System(b), b.kpi.issued, b.log, b'.log, p, p.(started := true));
  }

  /** The transaction stays in the system after its quantum. */
  predicate Requeues(b: Bus)
    requires b.slot.Some?
  {
    var p := AfterQuantum(b.slot.value.p);
    p.remaining > 0 && !Overdue(p, b.now)
  }

  lemma RetireSystem(b: Bus)
    requires b.slot.Some?
    ensures b.slot.value.p in System(b)
    ensures var p := b.slot.value.p;
      System(Retire(b)) == System(b) - multiset{p} + if Requeues(b) then multiset{AfterQuantum(p)} else multiset{}
  {
    var p := b.slot.value.p;
    assert System(b) - multiset{p} == Bag(b.d);
    if Requeues(b) {
      PushBag(b.d, AfterQuantum(p));
    }
  }

  function RetirePhase(b: Bus): Phase
    requires b.slot.Some?
  {
    if Requeues(b) then Begun
    else if AfterQuantum(b.slot.value.p).remaining == 0 then Finished
    else Discarded
  }

  lemma RetireLife(b: Bus, u: nat)
    requires b.slot.Some? && Life(b.log, b.slot.value.p.uid) == Begun
    ensures Life(Retire(b).log, u) == if u == b.slot.value.p.uid then RetirePhase(b) else Life(b.log, u)
  {
  }

  lemma RetireCounts(b: Bus)
    requires b.slot.Some?
    ensures var k := Retire(b).kpi;
      && k.issued == b.kpi.issued
      && k.completed + k.dropped == b.kpi.completed + b.kpi.dropped + if Requeues(b) then 0 else 1
  {
  }

  lemma RetireCoherent(b: Bus)
    requires Coherent(b) && b.slot.Some?
    ensures Coherent(Retire(b))
  {
    var p := b.slot.value.p;
    var b' := Retire(b);
    RetireSystem(b);
    forall u: nat ensures Life(b'.log, u) == if u == p.uid then RetirePhase(b) else Life(b.log, u) {
      RetireLife(b, u);
    }
    RetireCounts(b);
    if Requeues(b) {
      AgreeReplace(System(b), b.kpi.issued, b.log, b'.log, p, AfterQuantum(p));
    } else {
      AgreeRemove(System(b), b.kpi.issued, b.log, b'.log, p);
    }
  }

  lemma ActCoherent(b: Bus, a: Act)
    requires Coherent(b) && Enabled(b, a)
    ensures Coherent(Do(b, a))
  {
    match a
    case Advance(t) =>
    case Arrive(tx) => AdmitCoherent(b, tx);
    case Drop => DropCoherent(b);
    case Refill => assert System(Do(b, a)) == System(b);
    case Begin => BeginCoherent(b);
    case Finish => RetireCoherent(b);
  }

  lemma ReachableCoherent(b: Bus)
    requires Reachable(b)
    ensures Coherent(b)
  {
    forall c, a | Coherent(c) && Enabled(c, a) ensures Coherent(Do(c, a)) {
      ActCoherent(c, a);
    }
    InvariantRule(Coherent, b);
  }
}
