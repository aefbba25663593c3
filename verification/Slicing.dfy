/** How long a transaction holds the bus: quantum slicing telescopes. */
module Slicing {
  import opened Base
  import opened Configuration
  import opened Scheduling
  import opened Runs
  import opened Lifecycle

  // ---- Integer division ----

  lemma DivIs(n: nat, b: pos, k: nat)
    requires b * k <= n < b * (k + 1)
    ensures n / b == k
  {
    var q := n / b;
    assert q * b <= n < (q + 1) * b;
    MulMono(k + 1, q, b);
    MulMono(q + 1, k, b);
  }

  lemma DivShift(n: nat, b: pos, q: nat)
    requires b * q <= n
    ensures (n - b * q) / b == n / b - q
  {
    var m := n - b * q;
    var k := m / b;
    assert b * k <= m < b * (k + 1);
    assert b * (k + q) == b * k + b * q && b * (k + q + 1) == b * (k + 1) + b * q;
    DivIs(n, b, k + q);
  }

  lemma CeilShift(n: nat, b: pos, q: nat)
    requires b * q <= n
    ensures CeilDiv(n - b * q, b) == CeilDiv(n, b) - q
  {
    DivShift(n + b - 1, b, q);
  }

  lemma DivAtLeast(n: nat, b: pos, k: nat)
    requires b * k <= n
    ensures n / b >= k
  {
    MulMono(n / b + 1, k, b);
  }

  // ---- Bus time of a whole transfer ----

  /** Sum of the quanta that serve `bytes` at `bw` with slices of `quantum` microseconds. */
  function SliceUs(bytes: nat, bw: pos, quantum: pos): pos
    decreases bytes
  {
    MulPos(bw, quantum);
    if bytes <= bw * quantum then Max(1, bytes / bw)
    else quantum + SliceUs(bytes - bw * quantum, bw, quantum)
  }

  /** The total is the exact transfer time up to one microsecond, whatever the slice length. */
  lemma {:induction false} SliceBounds(bytes: nat, bw: pos, quantum: pos)
    ensures bytes / bw <= SliceUs(bytes, bw, quantum) <= Max(1, CeilDiv(bytes, bw))
    decreases bytes
  {
    MulPos(bw, quantum);
    if bytes <= bw * quantum {
      DivAtLeast(bytes + bw - 1, bw, bytes / bw);
    } else {
      var rest := bytes - bw * quantum;
      SliceBounds(rest, bw, quantum);
      DivShift(bytes, bw, quantum);
      CeilShift(bytes, bw, quantum);
      assert CeilDiv(rest, bw) >= 1 by { DivAtLeast(rest + bw - 1, bw, 1); }
    }
  }

  function RemainingUs(p: Pending): pos {
    SliceUs(p.remaining, p.bw, p.quantum)
  }

  function TotalUs(p: Pending): pos {
    SliceUs(p.tx.size, p.bw, p.quantum)
  }

  lemma HalfBus(c: RawConfig)
    ensures 2 * BounceBw(c) <= c.bus
  {
    var w, d := BounceBw(c), 2 * c.memcpy + c.bus;
    assert w * d <= c.bus * c.memcpy;
    assert w * d == (2 * w) * c.memcpy + w * c.bus;
    MulCancel(2 * w, c.bus, c.memcpy);
  }

  lemma MulCancel(x: int, y: int, m: pos)
    requires x * m <= y * m
    ensures x <= y
  {
  }

  /** An uncontended, uncompressed weight transfer is never faster through the bounce buffer. */
  lemma BounceNeverFaster(c: Config, tx: Txn, uid: nat, now: Time)
    requires c.compression == Uncompressed && !c.neuroDma && tx.source == Weight
    ensures TotalUs(NewPending(c, uid, tx, now)) >= TotalUs(NewPending(c.(neuroDma := true), uid, tx, now))
  {
    var slow, fast := NewPending(c, uid, tx, now), NewPending(c.(neuroDma := true), uid, tx, now);
    SliceBounds(tx.size, slow.bw, slow.quantum);
    SliceBounds(tx.size, fast.bw, fast.quantum);
    HalfBus(c);
    var k := CeilDiv(tx.size, c.bus);
    if k >= 1 {
      CeilTimesHalf(tx.size, c.bus, slow.bw, k);
    }
  }

  lemma CeilTimesHalf(n: nat, bus: pos, half: pos, k: pos)
    requires 2 * half <= bus && k == CeilDiv(n, bus)
    ensures k == 1 || n / half >= k
  {
    assert bus * k <= n + bus - 1;
    assert bus * (k - 1) <= n - 1;
    MulMono(2 * half, bus, k - 1);
    if k >= 2 {
      MulMono(k, 2 * (k - 1), half);
      assert (2 * half) * (k - 1) == (2 * (k - 1)) * half;
      DivAtLeast(n, half, k);
    }
  }

  lemma MulMono(a: int, b: int, k: nat)
    ensures a <= b ==> a * k <= b * k
    ensures a * k > b * k ==> a > b
  {
  }

  // ---- The ledger of bus time ----

  /** Bus time given to `u` so far, the running quantum included. */
  function BusUs(log: Trace, u: nat): int {
    match log
    case Empty => 0
    case Snoc(past, Quantum(p, _, _, us, _)) => BusUs(past, u) + if p.uid == u then us else 0
    case Snoc(past, _) => BusUs(past, u)
  }

  /** Quanta of `u` that began when its deadline had already passed. */
  function LateQuanta(log: Trace, u: nat): nat {
    match log
    case Empty => 0
    case Snoc(past, Quantum(p, at, _, _, _)) =>
      LateQuanta(past, u) + if p.uid == u && 0 < p.tx.deadline <= at then 1 else 0
    case Snoc(past, _) => LateQuanta(past, u)
  }

  /** Each completed transaction had exactly its slice total, and was never dropped early. */
  predicate CompletionsExact(log: Trace) {
    match log
    case Empty => true
    case Snoc(past, Completed(p, _)) => BusUs(past, p.uid) == TotalUs(p) && CompletionsExact(past)
    case Snoc(past, _) => CompletionsExact(past)
  }

  predicate DropsJustified(log: Trace) {
    match log
    case Empty => true
    case Snoc(past, Dropped(p, at)) => 0 < p.tx.deadline <= at && DropsJustified(past)
    case Snoc(past, _) => DropsJustified(past)
  }

  ghost predicate Paid(p: Pending, log: Trace) {
    BusUs(log, p.uid) + RemainingUs(p) == TotalUs(p) && LateQuanta(log, p.uid) == 0
  }

  ghost predicate AllPaid(m: multiset<Pending>, log: Trace) {
    forall p :: p in m ==> Paid(p, log)
  }

  ghost predicate SlotPaid(s: Slot, log: Trace) {
    && BusUs(log, s.p.uid) + RemainingUs(s.p) == TotalUs(s.p) + ServiceUs(s.p)
    && LateQuanta(log, s.p.uid) == if 0 < s.p.tx.deadline <= s.startAt then 1 else 0
  }

  /** Identities not yet issued have no history, and nobody has two late quanta. */
  ghost predicate Sound(n: nat, log: Trace) {
    && (forall u: nat :: LateQuanta(log, u) <= 1)
    && (forall u: nat :: u >= n ==> BusUs(log, u) == 0 && LateQuanta(log, u) == 0)
    && CompletionsExact(log) && DropsJustified(log)
  }

  predicate SlotTimes(b: Bus) {
    b.slot.Some? ==>
      var s := b.slot.value;
      s.startAt <= b.now <= s.fireAt && s.fireAt == s.startAt + ServiceUs(s.p)
  }

  ghost predicate Ledger(b: Bus) {
    AllPaid(Bag(b.d), b.log) && (b.slot.Some? ==> SlotPaid(b.slot.value, b.log)) && Sound(b.kpi.issued, b.log)
  }

  ghost predicate Accounted(b: Bus) {
    Coherent(b) && SlotTimes(b) && Ledger(b)
  }

  /** `log'` extends `log` with quanta of nobody but `u`. */
  ghost predicate SameBut(u: nat, log: Trace, log': Trace) {
    forall v: nat :: v != u ==> BusUs(log', v) == BusUs(log, v) && LateQuanta(log', v) == LateQuanta(log, v)
  }

  lemma BagDistinct(b: Bus)
    requires Coherent(b)
    ensures forall p :: p in Bag(b.d) ==> p.uid < b.kpi.issued
    ensures b.slot.Some? ==> forall p :: p in Bag(b.d) ==> p.uid != b.slot.value.p.uid
    ensures forall p, q :: p in Bag(b.d) && q in Bag(b.d) && p.uid == q.uid ==> p == q
    ensures forall p :: p in Bag(b.d) ==> Bag(b.d)[p] == 1
  {
    forall p | p in Bag(b.d) ensures p in System(b) && System(b)[p] == 1 {
    }
    if b.slot.Some? {
      var s := b.slot.value.p;
      assert System(b)[s] == Bag(b.d)[s] + 1;
      assert s in System(b);
    }
  }

  lemma PopDistinct(b: Bus, lane: Lane)
    requires Coherent(b) && Queue(b.d, lane) != []
    ensures Queue(b.d, lane)[0] in Bag(b.d)
    ensures Queue(b.d, lane)[0].uid < b.kpi.issued
    ensures forall p :: p in Bag(PopFrom(b.d, lane)) ==> p in Bag(b.d) && p.uid != Queue(b.d, lane)[0].uid
  {
    BagDistinct(b);
    PopBag(b.d, lane);
  }

  lemma PaidKept(m: multiset<Pending>, m': multiset<Pending>, log: Trace, log': Trace, u: nat)
    requires AllPaid(m, log) && SameBut(u, log, log')
    requires forall p :: p in m' ==> p in m && p.uid != u
    ensures AllPaid(m', log')
  {
  }

  lemma AdmitLedger(b: Bus, tx: Txn)
    requires Accounted(b)
    ensures Ledger(Admit(b, tx))
  {
    var b' := Admit(b, tx);
    var p := NewPending(b.cfg, b.kpi.issued, tx, b.now);
    PushBag(b.d, p);
    forall v: nat ensures BusUs(b'.log, v) == BusUs(b.log, v) && LateQuanta(b'.log, v) == LateQuanta(b.log, v) {
    }
    assert Paid(p, b'.log);
    forall q | q in Bag(b'.d) ensures Paid(q, b'.log) {
      assert q == p || (q in Bag(b.d) && Paid(q, b.log));
    }
  }

  lemma DropLedger(b: Bus)
    requires Accounted(b) && b.slot.None? && HeadExpired(b)
    ensures Ledger(DropHead(b))
  {
    var lane := GuardedLane(b.d);
    var p := Queue(b.d, lane)[0];
    var log' := Snoc(b.log, Dropped(p, b.now));
    PopDistinct(b, lane);
    forall v: nat ensures BusUs(log', v) == BusUs(b.log, v) && LateQuanta(log', v) == LateQuanta(b.log, v) {
    }
    PaidKept(Bag(b.d), Bag(PopFrom(b.d, lane)), b.log, log', p.uid);
    assert Sound(b.kpi.issued, log');
  }

  lemma BeginLog(b: Bus, u: nat)
    requires Enabled(b, Begin)
    ensures var p := Queue(b.d, Choice(b.cfg, b.d).value)[0];
      && BusUs(Do(b, Begin).log, u) == BusUs(b.log, u) + (if u == p.uid then ServiceUs(p) else 0)
      && LateQuanta(Do(b, Begin).log, u) ==
           LateQuanta(b.log, u) + (if u == p.uid && 0 < p.tx.deadline <= b.now then 1 else 0)
    ensures CompletionsExact(b.log) ==> CompletionsExact(Do(b, Begin).log)
    ensures DropsJustified(b.log) ==> DropsJustified(Do(b, Begin).log)
  {
  }

  lemma BeginSound(b: Bus)
    requires Accounted(b) && Enabled(b, Begin)
    ensures Sound(b.kpi.issued, Do(b, Begin).log)
  {
    var lane := Choice(b.cfg, b.d).value;
    PopDistinct(b, lane);
    assert Paid(Queue(b.d, lane)[0], b.log);
    forall u: nat ensures LateQuanta(Do(b, Begin).log, u) <= 1
      && (u >= b.kpi.issued ==> BusUs(Do(b, Begin).log, u) == 0 && LateQuanta(Do(b, Begin).log, u) == 0)
    {
      BeginLog(b, u);
    }
    BeginLog(b, 0);
  }

  lemma BeginShape(b: Bus)
    requires Enabled(b, Begin)
    ensures var lane := Choice(b.cfg, b.d).value;
      var p := Queue(b.d, lane)[0];
      && Bag(Do(b, Begin).d) == Bag(PopFrom(b.d, lane))
      && Do(b, Begin).slot == Some(Slot(p.(started := true), b.now, b.now + ServiceUs(p)))
  {
    var lane := Choice(b.cfg, b.d).value;
    BillBag(b.cfg, PopFrom(b.d, lane), lane, ChargeOf(b.cfg, lane, Queue(b.d, lane)[0]));
  }

  lemma BeginPaid(b: Bus)
    requires Accounted(b) && Enabled(b, Begin)
    ensures AllPaid(Bag(Do(b, Begin).d), Do(b, Begin).log)
  {
    var lane := Choice(b.cfg, b.d).value;
    var p := Queue(b.d, lane)[0];
    var log' := Do(b, Begin).log;
    PopDistinct(b, lane);
    BeginShape(b);
    forall u: nat
      ensures u != p.uid ==> BusUs(log', u) == BusUs(b.log, u) && LateQuanta(log', u) == LateQuanta(b.log, u)
    {
      BeginLog(b, u);
    }
    PaidKept(Bag(b.d), Bag(PopFrom(b.d, lane)), b.log, log', p.uid);
  }

  lemma BeginSlotPaid(b: Bus)
    requires Accounted(b) && Enabled(b, Begin)
    ensures Do(b, Begin).slot.Some? && SlotPaid(Do(b, Begin).slot.value, Do(b, Begin).log)
  {
    var lane := Choice(b.cfg, b.d).value;
    var p := Queue(b.d, lane)[0];
    PopDistinct(b, lane);
    BeginShape(b);
    BeginLog(b, p.uid);
    assert Paid(p, b.log);
  }

  lemma BeginLedger(b: Bus)
    requires Accounted(b) && Enabled(b, Begin)
    ensures Ledger(Do(b, Begin))
  {
    BeginSound(b);
    BeginPaid(b);
    BeginSlotPaid(b);
  }

  lemma SliceStep(p: Pending)
    ensures p.remaining > ChunkBytes(p) ==> RemainingUs(p) == p.quantum + RemainingUs(AfterQuantum(p))
    ensures p.remaining <= ChunkBytes(p) ==> RemainingUs(p) == ServiceUs(p)
    ensures AfterQuantum(p).remaining == 0 <==> p.remaining <= ChunkBytes(p)
  {
  }

  lemma RetireHistory(b: Bus, u: nat)
    requires b.slot.Some?
    ensures BusUs(Retire(b).log, u) == BusUs(b.log, u) && LateQuanta(Retire(b).log, u) == LateQuanta(b.log, u)
  {
  }

  lemma RetirePaid(b: Bus)
    requires Accounted(b) && b.slot.Some? && Requeues(b)
    ensures Paid(AfterQuantum(b.slot.value.p), b.log)
  {
    SliceStep(b.slot.value.p);
  }

  lemma RetireBag(b: Bus)
    requires b.slot.Some?
    ensures var b' := Retire(b);
      && b'.slot.None? && b'.kpi.issued == b.kpi.issued
      && Bag(b'.d) == Bag(b.d) + if Requeues(b) then multiset{AfterQuantum(b.slot.value.p)} else multiset{}
  {
    PushBag(b.d, AfterQuantum(b.slot.value.p));
  }

  lemma RetireJustified(b: Bus)
    requires Accounted(b) && b.slot.Some?
    ensures CompletionsExact(Retire(b).log) && DropsJustified(Retire(b).log)
  {
    hide Bag, System, Distinct;
    SliceStep(b.slot.value.p);
  }

  lemma RetireLedger(b: Bus)
    requires Accounted(b) && b.slot.Some?
    ensures Ledger(Retire(b))
  {
    hide Retire, Coherent, BusUs, LateQuanta, RemainingUs, TotalUs, Bag;
    var b', p := Retire(b), AfterQuantum(b.slot.value.p);
    RetireBag(b);
    RetireJustified(b);
    forall u: nat ensures BusUs(b'.log, u) == BusUs(b.log, u) && LateQuanta(b'.log, u) == LateQuanta(b.log, u) {
      RetireHistory(b, u);
    }
    if Requeues(b) {
      RetirePaid(b);
    }
    forall q | q in Bag(b'.d) ensures Paid(q, b'.log) {
      assert q in Bag(b.d) || (q == p && Requeues(b));
    }
  }

  lemma ActSlotTimes(b: Bus, a: Act)
    requires SlotTimes(b) && Enabled(b, a)
    ensures SlotTimes(Do(b, a))
  {
  }

  lemma ActLedger(b: Bus, a: Act)
    requires Accounted(b) && Enabled(b, a)
    ensures Ledger(Do(b, a))
  {
    match a
    case Advance(t) =>
    case Arrive(tx) => AdmitLedger(b, tx);
    case Drop => DropLedger(b);
    case Refill => assert Bag(Do(b, a).d) == Bag(b.d);
    case Begin => BeginLedger(b);
    case Finish => RetireLedger(b);
  }

  lemma ActAccounted(b: Bus, a: Act)
    requires Accounted(b) && Enabled(b, a)
    ensures Accounted(Do(b, a))
  {
    ActCoherent(b, a);
    ActSlotTimes(b, a);
    ActLedger(b, a);
  }

  lemma ReachableAccounted(b: Bus)
    requires Reachable(b)
    ensures Accounted(b)
  {
    forall c, a | Accounted(c) && Enabled(c, a) ensures Accounted(Do(c, a)) {
      ActAccounted(c, a);
    }
    InvariantRule(Accounted, b);
  }
}
