/** Every queue is a round robin: the FIFO queue, and each class of the QoS policy. */
module RoundRobin {
  import opened Base
  import opened Scheduling
  import opened Runs
  import opened Lifecycle
  import opened Slicing

  function Uids(q: seq<Pending>): seq<nat> {
    seq(|q|, i requires 0 <= i < |q| => q[i].uid)
  }

  /** The transaction on the bus came from the queue `lane`. */
  predicate SlotIn(b: Bus, lane: Lane) {
    b.slot.Some? && KeyLane(b.d.FifoQ?, b.slot.value.p) == lane
  }

  /** Identities in the order in which a queue is served: the one on the bus, then those that wait. */
  function Ring(b: Bus, lane: Lane): seq<nat> {
    (if SlotIn(b, lane) then [b.slot.value.p.uid] else []) + Uids(Queue(b.d, lane))
  }

  ghost predicate Unique(s: seq<nat>) {
    forall i, j :: 0 <= i < j < |s| ==> s[i] != s[j]
  }

  lemma QueueUnique(b: Bus, lane: Lane)
    requires Coherent(b)
    ensures Unique(Uids(Queue(b.d, lane)))
    ensures forall i :: 0 <= i < |Queue(b.d, lane)| ==>
      Queue(b.d, lane)[i] in Bag(b.d) && (b.slot.Some? ==> b.slot.value.p.uid != Queue(b.d, lane)[i].uid)
  {
    var q := Queue(b.d, lane);
    BagDistinct(b);
    hide Coherent, Queue, Bag;
    LaneInBag(b.d, lane);
    forall i, j | 0 <= i < j < |q| ensures q[i].uid != q[j].uid {
      TwiceInBag(q, i, j);
      assert multiset(q)[q[i]] <= Bag(b.d)[q[i]];
    }
  }

  lemma LaneInBag(d: Discipline, lane: Lane)
    ensures multiset(Queue(d, lane)) <= Bag(d)
    ensures forall i :: 0 <= i < |Queue(d, lane)| ==> Queue(d, lane)[i] in Bag(d)
  {
    var q := Queue(d, lane);
    assert multiset(q) <= Bag(d);
    hide Queue, Bag;
    forall i | 0 <= i < |q| ensures q[i] in Bag(d) {
      assert q[i] in multiset(q);
    }
  }

  lemma RingUnique(b: Bus, lane: Lane)
    requires Coherent(b)
    ensures Unique(Ring(b, lane))
  {
    QueueUnique(b, lane);
    hide Coherent, Bag;
  }

  lemma TwiceInBag(q: seq<Pending>, i: nat, j: nat)
    requires i < j < |q|
    ensures q[i] == q[j] ==> multiset(q)[q[i]] >= 2
  {
    assert q == q[..j] + q[j..];
    assert q[i] in q[..j] && q[j] in q[j..];
    assert multiset(q) == multiset(q[..j]) + multiset(q[j..]);
  }

  // ---- How an act turns the ring ----

  /** The ring moves on by dropping its head, or by moving it to the back, or grows at the back. */
  ghost predicate Turned(ring: seq<nat>, ring': seq<nat>, requeued: bool) {
    if requeued then ring != [] && ring' == ring[1..] + [ring[0]]
    else ring' == ring || (ring != [] && ring' == ring[1..]) || (ring' != [] && ring == ring'[..|ring'| - 1])
  }

  /** Finished quanta of `u`. */
  function Quanta(log: Trace, u: nat): nat {
    match log
    case Empty => 0
    case Snoc(past, Served(p, _, _, _)) => Quanta(past, u) + if p.uid == u then 1 else 0
    case Snoc(past, _) => Quanta(past, u)
  }

  /** Started quanta of `u`. */
  function Starts(log: Trace, u: nat): nat {
    match log
    case Empty => 0
    case Snoc(past, Quantum(p, _, _, _, _)) => Starts(past, u) + if p.uid == u then 1 else 0
    case Snoc(past, _) => Starts(past, u)
  }

  predicate Running(b: Bus, u: nat) {
    b.slot.Some? && b.slot.value.p.uid == u
  }

  predicate StartsAre(b: Bus, u: nat) {
    Starts(b.log, u) == Quanta(b.log, u) + if Running(b, u) then 1 else 0
  }

  /** A quantum that started has finished, except the one on the bus. */
  ghost predicate StartsMatch(b: Bus) {
    forall u: nat :: StartsAre(b, u)
  }

  lemma ActStartsMatch(b: Bus, a: Act)
    requires StartsMatch(b) && Enabled(b, a)
    ensures StartsMatch(Do(b, a))
  {
    forall u: nat ensures StartsAre(Do(b, a), u) {
      assert StartsAre(b, u);
    }
  }

  lemma ReachableStartsMatch(b: Bus)
    requires Reachable(b)
    ensures StartsMatch(b)
  {
    forall c, a | StartsMatch(c) && Enabled(c, a) ensures StartsMatch(Do(c, a)) {
      ActStartsMatch(c, a);
    }
    InvariantRule(StartsMatch, b);
  }

  lemma ActQuanta(b: Bus, a: Act, u: nat)
    requires Enabled(b, a)
    ensures Quanta(Do(b, a).log, u) == Quanta(b.log, u) + if a == Finish && Running(b, u) then 1 else 0
  {
  }

  lemma FinishTurns(b: Bus, lane: Lane)
    requires b.slot.Some?
    ensures SlotIn(b, lane) ==> Ring(b, lane) != [] && Running(b, Ring(b, lane)[0])
    ensures Ring(Retire(b), lane) ==
      if !SlotIn(b, lane) then Ring(b, lane)
      else Ring(b, lane)[1..] + if Requeues(b) then [Ring(b, lane)[0]] else []
  {
    RetireLane(b, lane);
    hide Retire, Requeues, Queue;
    if SlotIn(b, lane) {
      assert Ring(b, lane)[1..] == Uids(Queue(b.d, lane));
      if Requeues(b) {
        assert Ring(Retire(b), lane) == Uids(Queue(b.d, lane)) + [Ring(b, lane)[0]];
      }
    }
  }

  lemma ArriveTurns(b: Bus, tx: Txn, lane: Lane)
    ensures var ring, ring' := Ring(b, lane), Ring(Admit(b, tx), lane);
      ring' == ring || (ring' != [] && ring == ring'[..|ring'| - 1])
  {
    PushQueue(b.d, NewPending(b.cfg, b.kpi.issued, tx, b.now), lane);
    hide NewPending, Push, Queue;
  }

  lemma DropTurns(b: Bus, lane: Lane)
    requires b.slot.None? && HeadExpired(b)
    ensures var ring, ring' := Ring(b, lane), Ring(DropHead(b), lane);
      ring' == ring || (ring != [] && ring' == ring[1..])
  {
    PopQueue(b.d, GuardedLane(b.d), lane);
    hide Queue, PopFrom;
  }

  lemma BeginTurns(b: Bus, lane: Lane)
    requires Sorted3(b.d) && Enabled(b, Begin)
    ensures Ring(Do(b, Begin), lane) == Ring(b, lane)
  {
    var l := Choice(b.cfg, b.d).value;
    var p := Queue(b.d, l)[0];
    assert p in Queue(b.d, l);
    assert KeyLane(b.d.FifoQ?, p) == l;
    BeginQueue(b, lane);
    BeginSlot(b);
    hide Sorted3, Queue, Choice, Do;
  }

  lemma BeginSlot(b: Bus)
    requires Enabled(b, Begin)
    ensures var p, b' := Queue(b.d, Choice(b.cfg, b.d).value)[0], Do(b, Begin);
      b.slot.None? && b'.slot.Some? && b'.slot.value.p == p.(started := true)
  {
  }

  lemma RefillTurns(b: Bus, lane: Lane)
    requires b.slot.None?
    ensures Ring(Do(b, Refill), lane) == Ring(b, lane)
  {
  }

  lemma ActTurns(b: Bus, a: Act, lane: Lane)
    requires Sorted3(b.d) && Enabled(b, a)
    ensures Turned(Ring(b, lane), Ring(Do(b, a), lane), a == Finish && SlotIn(b, lane) && Requeues(b))
    ensures a == Finish && SlotIn(b, lane) ==> Ring(b, lane) != [] && Running(b, Ring(b, lane)[0])
    ensures a == Finish && SlotIn(b, lane) && !Requeues(b) ==> Ring(Do(b, a), lane) == Ring(b, lane)[1..]
    ensures a == Finish && !SlotIn(b, lane) ==> Ring(Do(b, a), lane) == Ring(b, lane)
  {
    hide Admit, DropHead, Retire, Requeues, Running, HeadExpired, Launch, Take, Ring, SlotIn, Sorted3, RefillTokens;
    match a
    case Advance(t) => AdvanceTurns(b, t, lane);
    case Arrive(tx) => ArriveTurns(b, tx, lane);
    case Drop => DropTurns(b, lane);
    case Refill => RefillTurns(b, lane);
    case Begin => BeginTurns(b, lane);
    case Finish => FinishTurns(b, lane);
  }

  lemma AdvanceTurns(b: Bus, t: Time, lane: Lane)
    ensures Ring(b.(now := t), lane) == Ring(b, lane)
  {
  }

  // ---- Fairness between two transactions ----

  ghost predicate Before(s: seq<nat>, x: nat, y: nat) {
    exists i, j :: 0 <= i < j < |s| && s[i] == x && s[j] == y
  }

  /** Two transactions have run level in ring order, or the one that was first is one quantum
      ahead and now behind in the ring. */
  ghost predicate Level(ring: seq<nat>, x: nat, y: nat, dx: int, dy: int) {
    (Before(ring, x, y) && dx == dy) || (Before(ring, y, x) && dx == dy + 1)
  }

  lemma BeforeTurns(s: seq<nat>, s': seq<nat>, x: nat, y: nat, requeued: bool)
    requires Unique(s) && Before(s, x, y) && x in s' && y in s' && x != y
    requires Turned(s, s', requeued) && Unique(s')
    ensures if requeued && s[0] == x then Before(s', y, x) else Before(s', x, y)
  {
    var i, j :| 0 <= i < j < |s| && s[i] == x && s[j] == y;
    if requeued {
      if i == 0 {
        assert s'[j - 1] == y && s'[|s'| - 1] == x;
      } else {
        assert s'[i - 1] == x && s'[j - 1] == y;
      }
    } else if s' == s {
    } else if s' == s[1..] {
      var k :| 0 <= k < |s'| && s'[k] == x;
      assert s[k + 1] == x && i >= 1;
      assert s'[i - 1] == x && s'[j - 1] == y;
    } else {
      assert s'[i] == x && s'[j] == y;
    }
  }

  function One(c: bool): nat {
    if c then 1 else 0
  }

  lemma LevelTurn(s: seq<nat>, s': seq<nat>, finish: bool, requeued: bool, x: nat, y: nat, dx: int, dy: int)
    requires Unique(s) && Unique(s') && Turned(s, s', requeued) && x in s' && y in s' && x != y
    requires finish ==> s != [] && (requeued || s' == s[1..])
    requires requeued ==> finish
    requires Level(s, x, y, dx, dy)
    ensures Level(s', x, y, dx + One(finish && s[0] == x), dy + One(finish && s[0] == y))
  {
    if finish && !requeued {
      assert forall k :: 0 <= k < |s'| ==> s'[k] == s[k + 1];
      assert s[0] != x && s[0] != y;
    }
    if Before(s, x, y) && dx == dy {
      BeforeTurns(s, s', x, y, requeued);
      OnlyFirst(s, x, y);
    } else {
      BeforeTurns(s, s', y, x, requeued);
      OnlyFirst(s, y, x);
    }
  }

  lemma OnlyFirst(s: seq<nat>, x: nat, y: nat)
    requires Unique(s) && Before(s, x, y)
    ensures s != [] && s[0] != y
  {
  }

  /** Finished quanta of somebody in the ring come from its head. */
  lemma HeadFinishes(b: Bus, a: Act, lane: Lane, u: nat)
    requires Sorted3(b.d) && Enabled(b, a) && Coherent(b) && u in Ring(b, lane)
    ensures a == Finish ==> (Running(b, u) <==> SlotIn(b, lane) && Ring(b, lane) != [] && Ring(b, lane)[0] == u)
  {
    QueueUnique(b, lane);
    hide Coherent, Bag, Sorted3;
  }

  ghost predicate Placed(b: Bus) {
    Coherent(b) && Sorted3(b.d)
  }

  /** The act ends a quantum of the queue, and the transaction goes back to it. */
  predicate Ends(b: Bus, a: Act, lane: Lane) {
    a == Finish && SlotIn(b, lane)
  }

  predicate GoesBack(b: Bus, a: Act, lane: Lane) {
    Ends(b, a, lane) && Requeues(b)
  }

  lemma RingMoves(b: Bus, a: Act, lane: Lane)
    requires Placed(b) && Enabled(b, a)
    ensures var ring, ring' := Ring(b, lane), Ring(Do(b, a), lane);
      && Unique(ring) && Unique(ring') && Turned(ring, ring', GoesBack(b, a, lane))
      && (Ends(b, a, lane) ==> ring != [] && (GoesBack(b, a, lane) || ring' == ring[1..]))
  {
    hide Coherent, Do, Ring, SlotIn, Running, Requeues, Turned, Unique, Enabled, Sorted3;
    ActTurns(b, a, lane);
    ActCoherent(b, a);
    RingUnique(b, lane);
    RingUnique(Do(b, a), lane);
  }

  lemma GainOf(b: Bus, a: Act, lane: Lane, u: nat)
    requires Placed(b) && Enabled(b, a) && u in Ring(b, lane)
    ensures Quanta(Do(b, a).log, u) == Quanta(b.log, u) +
      One(Ends(b, a, lane) && Ring(b, lane) != [] && Ring(b, lane)[0] == u)
  {
    hide Coherent, Do, Ring, SlotIn, Running, Enabled, Sorted3, Quanta;
    ActQuanta(b, a, u);
    HeadFinishes(b, a, lane, u);
  }

  lemma RingStep(b: Bus, a: Act, lane: Lane, x: nat, y: nat, dx: int, dy: int)
    requires Placed(b) && Enabled(b, a) && x != y && x in Ring(b, lane) && y in Ring(b, lane)
    requires Level(Ring(b, lane), x, y, dx, dy)
    requires x in Ring(Do(b, a), lane) && y in Ring(Do(b, a), lane)
    ensures Level(Ring(Do(b, a), lane), x, y, dx + Quanta(Do(b, a).log, x) - Quanta(b.log, x),
                  dy + Quanta(Do(b, a).log, y) - Quanta(b.log, y))
  {
    hide Placed, Do, Ring, Quanta, Level, Turned, Unique, Ends, GoesBack, Enabled;
    RingMoves(b, a, lane);
    GainOf(b, a, lane, x);
    GainOf(b, a, lane, y);
    BackEnds(b, a, lane);
    LevelTurn(Ring(b, lane), Ring(Do(b, a), lane), Ends(b, a, lane), GoesBack(b, a, lane), x, y, dx, dy);
  }

  lemma BackEnds(b: Bus, a: Act, lane: Lane)
    ensures GoesBack(b, a, lane) ==> Ends(b, a, lane)
  {
  }

  ghost predicate InRing(b: Bus, lane: Lane, u: nat) {
    u in Ring(b, lane)
  }

  ghost predicate BothStay(r: seq<Bus>, lane: Lane, x: nat, y: nat) {
    forall k :: 0 <= k < |r| ==> InRing(r[k], lane, x) && InRing(r[k], lane, y)
  }

  /** Finished quanta of `u` between two states. */
  function Gain(b: Bus, b': Bus, u: nat): int {
    Quanta(b'.log, u) - Quanta(b.log, u)
  }

  lemma GainAdds(start: Bus, b: Bus, b': Bus, u: nat)
    ensures Gain(start, b', u) == Gain(start, b, u) + Quanta(b'.log, u) - Quanta(b.log, u)
  {
  }

  lemma NextLevel(start: Bus, b: Bus, b': Bus, lane: Lane, x: nat, y: nat)
    requires Placed(b) && Next(b, b') && x != y
    requires InRing(b, lane, x) && InRing(b, lane, y) && InRing(b', lane, x) && InRing(b', lane, y)
    requires Level(Ring(b, lane), x, y, Gain(start, b, x), Gain(start, b, y))
    ensures Placed(b') && Level(Ring(b', lane), x, y, Gain(start, b', x), Gain(start, b', y))
  {
    hide Level, Ring, Quanta, Placed, Enabled, Do, Gain;
    var a :| Enabled(b, a) && b' == Do(b, a);
    ActPlaced(b, a);
    GainAdds(start, b, b', x);
    GainAdds(start, b, b', y);
    RingStep(b, a, lane, x, y, Gain(start, b, x), Gain(start, b, y));
  }

  lemma ActPlaced(b: Bus, a: Act)
    requires Placed(b) && Enabled(b, a)
    ensures Placed(Do(b, a))
  {
    ActCoherent(b, a);
    ActSorted(b, a);
  }

  lemma ReachablePlaced(b: Bus)
    requires Reachable(b)
    ensures Placed(b)
  {
    ReachableCoherent(b);
    forall c: Bus, a | Sorted3(c.d) && Enabled(c, a) ensures Sorted3(Do(c, a).d) {
      ActSorted(c, a);
    }
    InvariantRule((c: Bus) => Sorted3(c.d), b);
  }

  lemma LevelAtStart(ring: seq<nat>, x: nat, y: nat)
    requires Before(ring, x, y)
    ensures Level(ring, x, y, 0, 0)
  {
  }

  lemma {:induction false} LevelAlong(r: seq<Bus>, n: nat, lane: Lane, x: nat, y: nat)
    requires Run(r) && n < |r| && x != y && BothStay(r, lane, x, y)
    requires Placed(r[0]) && Before(Ring(r[0], lane), x, y)
    ensures Placed(r[n])
    ensures Level(Ring(r[n], lane), x, y, Gain(r[0], r[n], x), Gain(r[0], r[n], y))
  {
    hide Placed, Level, InRing, Ring, Before;
    if n == 0 {
      LevelAtStart(Ring(r[0], lane), x, y);
    } else {
      LevelAlong(r, n - 1, lane, x, y);
      assert StepAt(r, n - 1);
      NextLevel(r[0], r[n - 1], r[n], lane, x, y);
    }
  }

  lemma OnlyHeadRuns(b: Bus, lane: Lane, x: nat, y: nat)
    requires Placed(b) && Before(Ring(b, lane), x, y)
    ensures !Running(b, y)
  {
    RingUnique(b, lane);
    OnlyFirst(Ring(b, lane), x, y);
    QueueUnique(b, lane);
    hide Placed, Bag;
  }

  /** Level rings at both ends bound the difference in started quanta. */
  lemma LevelStarts(b: Bus, b': Bus, lane: Lane, x: nat, y: nat)
    requires Placed(b) && Placed(b') && StartsMatch(b) && StartsMatch(b')
    requires Before(Ring(b, lane), x, y) && Level(Ring(b', lane), x, y, Gain(b, b', x), Gain(b, b', y))
    ensures -1 <= (Starts(b'.log, x) - Starts(b.log, x)) - (Starts(b'.log, y) - Starts(b.log, y)) <= 1
  {
    assert StartsAre(b, x) && StartsAre(b, y) && StartsAre(b', x) && StartsAre(b', y);
    hide Placed, Ring, Before;
    OnlyHeadRuns(b, lane, x, y);
    if Before(Ring(b', lane), x, y) && Gain(b, b', x) == Gain(b, b', y) {
      OnlyHeadRuns(b', lane, x, y);
    } else {
      OnlyHeadRuns(b', lane, y, x);
    }
  }

  lemma FairFromOrder(r: seq<Bus>, lane: Lane, x: nat, y: nat)
    requires Run(r) && Reachable(r[0]) && x != y && BothStay(r, lane, x, y) && Before(Ring(r[0], lane), x, y)
    ensures var b, b' := r[0], r[|r| - 1];
      -1 <= (Starts(b'.log, x) - Starts(b.log, x)) - (Starts(b'.log, y) - Starts(b.log, y)) <= 1
  {
    hide Placed, Level, Starts;
    ReachablePlaced(r[0]);
    LevelAlong(r, |r| - 1, lane, x, y);
    ReachableExtends(r, |r| - 1);
    ReachableStartsMatch(r[0]);
    ReachableStartsMatch(r[|r| - 1]);
    LevelStarts(r[0], r[|r| - 1], lane, x, y);
  }

  /** While two transactions of one queue, the FIFO queue or a class, both stay in the system, the quanta they
      start differ by at most one. */
  lemma RoundRobinFair(r: seq<Bus>, lane: Lane, x: nat, y: nat)
    requires Run(r) && Reachable(r[0]) && x != y && BothStay(r, lane, x, y)
    ensures var b, b' := r[0], r[|r| - 1];
      -1 <= (Starts(b'.log, x) - Starts(b.log, x)) - (Starts(b'.log, y) - Starts(b.log, y)) <= 1
  {
    var ring := Ring(r[0], lane);
    assert InRing(r[0], lane, x) && InRing(r[0], lane, y);
    var i, j :| 0 <= i < |ring| && 0 <= j < |ring| && ring[i] == x && ring[j] == y;
    if i < j {
      FairFromOrder(r, lane, x, y);
    } else {
      FairFromOrder(r, lane, y, x);
    }
  }

  // ---- How long a transaction waits ----

  /** Picks made from the queue so far. */
  function Picks(log: Trace, lane: Lane): nat {
    match log
    case Empty => 0
    case Snoc(past, Quantum(_, _, l, _, _)) => Picks(past, lane) + if l == lane then 1 else 0
    case Snoc(past, _) => Picks(past, lane)
  }

  ghost predicate At(b: Bus, lane: Lane, i: nat, u: nat) {
    i < |Queue(b.d, lane)| && Queue(b.d, lane)[i].uid == u
  }

  ghost predicate InQueue(b: Bus, lane: Lane, u: nat) {
    u in Uids(Queue(b.d, lane))
  }

  ghost predicate StaysQueued(r: seq<Bus>, lane: Lane, u: nat) {
    forall k :: 0 <= k < |r| ==> InQueue(r[k], lane, u)
  }

  /** An act pops the head of the queue or leaves it as a prefix, and a pick from it pops. */
  lemma QueueTurns(b: Bus, a: Act, lane: Lane)
    requires Enabled(b, a)
    ensures var q, q' := Queue(b.d, lane), Queue(Do(b, a).d, lane);
      var picked := Picks(Do(b, a).log, lane) - Picks(b.log, lane);
      && 0 <= picked <= 1 && ((q != [] && q' == q[1..]) || (q <= q' && picked == 0))
  {
    match a
    case Advance(t) =>
    case Arrive(tx) => PushQueue(b.d, NewPending(b.cfg, b.kpi.issued, tx, b.now), lane);
    case Drop => PopQueue(b.d, GuardedLane(b.d), lane);
    case Refill => assert Queue(Do(b, a).d, lane) == Queue(b.d, lane);
    case Begin => BeginQueue(b, lane);
    case Finish => RetireLane(b, lane);
  }

  /** Where a transaction stands once the head of its queue has gone. */
  lemma MovesUp(q: seq<Pending>, i: nat, u: nat)
    requires q != [] && i < |q| && q[i].uid == u && Unique(Uids(q)) && u in Uids(q[1..])
    ensures i > 0 && q[1..][i - 1].uid == u
  {
    var k :| 0 <= k < |q[1..]| && Uids(q[1..])[k] == u;
    assert Uids(q)[k + 1] == u && Uids(q)[i] == u;
  }

  lemma WaitStep(b: Bus, a: Act, lane: Lane, i: nat, u: nat) returns (j: nat)
    requires Coherent(b) && Enabled(b, a) && At(b, lane, i, u)
    requires InQueue(Do(b, a), lane, u)
    ensures At(Do(b, a), lane, j, u) && Picks(Do(b, a).log, lane) + j <= Picks(b.log, lane) + i
  {
    hide Do, Coherent, Picks, Uids, Unique, Enabled, Bag, Queue;
    QueueTurns(b, a, lane);
    QueueUnique(b, lane);
    var q, q' := Queue(b.d, lane), Queue(Do(b, a).d, lane);
    if q != [] && q' == q[1..] {
      MovesUp(q, i, u);
      j := i - 1;
    } else {
      j := i;
    }
  }

  lemma NextWait(b: Bus, b': Bus, lane: Lane, i: nat, u: nat) returns (j: nat)
    requires Coherent(b) && Next(b, b') && At(b, lane, i, u) && InQueue(b', lane, u)
    ensures Coherent(b') && At(b', lane, j, u) && Picks(b'.log, lane) + j <= Picks(b.log, lane) + i
  {
    var a :| Enabled(b, a) && b' == Do(b, a);
    ActCoherent(b, a);
    j := WaitStep(b, a, lane, i, u);
  }

  /** From index `i` of a queue, a transaction is picked or dropped after at most `i` further picks from it. */
  lemma {:induction false} PickedWithin(r: seq<Bus>, n: nat, lane: Lane, i: nat, u: nat) returns (j: nat)
    requires Run(r) && n < |r| && Coherent(r[0]) && At(r[0], lane, i, u) && StaysQueued(r, lane, u)
    ensures Coherent(r[n]) && At(r[n], lane, j, u)
    ensures Picks(r[n].log, lane) - Picks(r[0].log, lane) <= i - j
  {
    hide Coherent, Picks, InQueue, Uids, At;
    if n == 0 {
      j := i;
    } else {
      var k := PickedWithin(r, n - 1, lane, i, u);
      assert StepAt(r, n - 1);
      j := NextWait(r[n - 1], r[n], lane, k, u);
    }
  }

  // ---- Everything waits in its own queue ----

  ghost predicate Sorted3(d: Discipline) {
    forall lane, p :: p in Queue(d, lane) ==> KeyLane(d.FifoQ?, p) == lane
  }

  lemma ActSorted(b: Bus, a: Act)
    requires Sorted3(b.d) && Enabled(b, a)
    ensures Sorted3(Do(b, a).d) && Do(b, a).d.FifoQ? == b.d.FifoQ? && Do(b, a).cfg == b.cfg
  {
    forall lane, p | p in Queue(Do(b, a).d, lane) ensures KeyLane(b.d.FifoQ?, p) == lane {
      match a
      case Advance(t) =>
      case Arrive(tx) => PushQueue(b.d, NewPending(b.cfg, b.kpi.issued, tx, b.now), lane);
      case Drop => PopQueue(b.d, GuardedLane(b.d), lane);
      case Refill => assert Queue(Do(b, a).d, lane) == Queue(b.d, lane);
      case Begin => BeginQueue(b, lane);
      case Finish => RetireLane(b, lane);
    }
  }

  // ---- First services come in arrival order ----

  /** Identity of the latest first service in `lane`; every queue is a lane of its own. */
  function LastStart(fifo: bool, lane: Lane, log: Trace): int {
    match log
    case Empty => -1
    case Snoc(past, Started(p, _)) =>
      if KeyLane(fifo, p) == lane then p.uid else LastStart(fifo, lane, past)
    case Snoc(past, _) => LastStart(fifo, lane, past)
  }

  function KeyLane(fifo: bool, p: Pending): Lane {
    if fifo then FifoLane
    else match p.tx.qos
      case Critical => CritLane
      case High => HighLane
      case Normal => NormLane
  }

  /** First services in `lane` happen in the order of acceptance. */
  predicate StartsInOrder(fifo: bool, lane: Lane, log: Trace) {
    match log
    case Empty => true
    case Snoc(past, Started(p, _)) =>
      (KeyLane(fifo, p) == lane ==> LastStart(fifo, lane, past) < p.uid) && StartsInOrder(fifo, lane, past)
    case Snoc(past, _) => StartsInOrder(fifo, lane, past)
  }

  /** New transactions in a queue are sorted, and all of them came after the last one started. */
  ghost predicate Sorted(q: seq<Pending>, last: int, n: nat) {
    && (forall i :: 0 <= i < |q| && !q[i].started ==> last < q[i].uid < n)
    && (forall i, j :: 0 <= i < j < |q| && !q[i].started && !q[j].started ==> q[i].uid < q[j].uid)
  }

  ghost predicate Keyed(q: seq<Pending>, fifo: bool, lane: Lane) {
    forall i :: 0 <= i < |q| ==> KeyLane(fifo, q[i]) == lane
  }

  ghost predicate Ordered(b: Bus, lane: Lane) {
    var fifo, last := b.d.FifoQ?, LastStart(b.d.FifoQ?, lane, b.log);
    && last < b.kpi.issued
    && Keyed(Queue(b.d, lane), fifo, lane)
    && Sorted(Queue(b.d, lane), last, b.kpi.issued)
    && (b.slot.Some? ==> b.slot.value.p.started)
    && StartsInOrder(fifo, lane, b.log)
  }

  lemma SortedPush(q: seq<Pending>, p: Pending, last: int, n: nat, n': nat)
    requires Sorted(q, last, n) && last < n <= n'
    requires p.started || n <= p.uid < n'
    ensures Sorted(q + [p], last, n')
  {
  }

  lemma SortedPop(q: seq<Pending>, last: int, n: nat)
    requires Sorted(q, last, n) && q != []
    ensures Sorted(q[1..], last, n)
    ensures !q[0].started ==> last < q[0].uid && Sorted(q[1..], q[0].uid, n)
  {
  }

  lemma PushQueue(d: Discipline, p: Pending, lane: Lane)
    ensures Queue(Push(d, p), lane) == if lane == KeyLane(d.FifoQ?, p) then Queue(d, lane) + [p] else Queue(d, lane)
    ensures Push(d, p).FifoQ? == d.FifoQ?
  {
  }

  lemma PopQueue(d: Discipline, l: Lane, lane: Lane)
    requires Queue(d, l) != []
    ensures Queue(PopFrom(d, l), lane) == if lane == l then Queue(d, l)[1..] else Queue(d, lane)
    ensures PopFrom(d, l).FifoQ? == d.FifoQ?
  {
  }

  lemma BeginQueue(b: Bus, lane: Lane)
    requires Enabled(b, Begin)
    ensures var l := Choice(b.cfg, b.d).value;
      var p := Queue(b.d, l)[0];
      var b' := Do(b, Begin);
      && Queue(b'.d, lane) == (if lane == l then Queue(b.d, l)[1..] else Queue(b.d, lane))
      && b'.d.FifoQ? == b.d.FifoQ?
      && b'.kpi == b.kpi && b'.slot.value.p.started
      && LastStart(b.d.FifoQ?, lane, b'.log)
        == (if !p.started && KeyLane(b.d.FifoQ?, p) == lane then p.uid else LastStart(b.d.FifoQ?, lane, b.log))
  {
    PopQueue(b.d, Choice(b.cfg, b.d).value, lane);
  }

  lemma BeginOrdered(b: Bus, lane: Lane)
    requires Enabled(b, Begin) && Ordered(b, lane) && Ordered(b, Choice(b.cfg, b.d).value)
    ensures Ordered(Do(b, Begin), lane)
  {
    var l := Choice(b.cfg, b.d).value;
    assert KeyLane(b.d.FifoQ?, Queue(b.d, l)[0]) == l;
    BeginQueue(b, lane);
    SortedPop(Queue(b.d, l), LastStart(b.d.FifoQ?, l, b.log), b.kpi.issued);
    assert StartsInOrder(b.d.FifoQ?, lane, Do(b, Begin).log);
  }

  lemma DropOrdered(b: Bus, lane: Lane)
    requires Ordered(b, lane) && HeadExpired(b)
    ensures Ordered(DropHead(b), lane)
  {
    PopQueue(b.d, GuardedLane(b.d), lane);
    if lane == GuardedLane(b.d) {
      SortedPop(Queue(b.d, lane), LastStart(b.d.FifoQ?, lane, b.log), b.kpi.issued);
    }
  }

  lemma AdmitOrdered(b: Bus, tx: Txn, lane: Lane)
    requires Ordered(b, lane)
    ensures Ordered(Admit(b, tx), lane)
  {
    var p := NewPending(b.cfg, b.kpi.issued, tx, b.now);
    PushQueue(b.d, p, lane);
    SortedPush(Queue(b.d, lane), p, LastStart(b.d.FifoQ?, lane, b.log), b.kpi.issued, b.kpi.issued + 1);
  }

  lemma RetireLane(b: Bus, lane: Lane)
    requires b.slot.Some?
    ensures var b', p, fifo := Retire(b), AfterQuantum(b.slot.value.p), b.d.FifoQ?;
      && Queue(b'.d, lane) ==
           (if Requeues(b) && lane == KeyLane(fifo, p) then Queue(b.d, lane) + [p] else Queue(b.d, lane))
      && b'.d.FifoQ? == fifo && b'.slot.None? && b'.kpi.issued == b.kpi.issued && p.started == b.slot.value.p.started
      && LastStart(fifo, lane, b'.log) == LastStart(fifo, lane, b.log)
      && StartsInOrder(fifo, lane, b'.log) == StartsInOrder(fifo, lane, b.log)
  {
    PushQueue(b.d, AfterQuantum(b.slot.value.p), lane);
  }

  lemma RetireOrdered(b: Bus, lane: Lane)
    requires Ordered(b, lane) && b.slot.Some?
    ensures Ordered(Retire(b), lane)
  {
    var p := AfterQuantum(b.slot.value.p);
    RetireLane(b, lane);
    hide Retire, AfterQuantum, Requeues;
    SortedPush(Queue(b.d, lane), p, LastStart(b.d.FifoQ?, lane, b.log), b.kpi.issued, b.kpi.issued);
  }

  lemma ActOrdered(b: Bus, a: Act, lane: Lane)
    requires Enabled(b, a) && forall l :: Ordered(b, l)
    ensures Ordered(Do(b, a), lane)
  {
    assert Ordered(b, lane);
    match a
    case Advance(t) =>
    case Arrive(tx) => AdmitOrdered(b, tx, lane);
    case Drop => DropOrdered(b, lane);
    case Refill => assert Queue(Do(b, a).d, lane) == Queue(b.d, lane);
    case Begin => BeginOrdered(b, lane);
    case Finish => RetireOrdered(b, lane);
  }

  /** First services follow acceptance order: over all traffic for FIFO, within each class for QoS. */
  lemma FirstServicesInOrder(b: Bus, lane: Lane)
    requires Reachable(b)
    ensures StartsInOrder(b.d.FifoQ?, lane, b.log)
  {
    var inv := (c: Bus) => forall l :: Ordered(c, l);
    forall c, a | inv(c) && Enabled(c, a) ensures inv(Do(c, a)) {
      forall l ensures Ordered(Do(c, a), l) {
        ActOrdered(c, a, l);
      }
    }
    InvariantRule(inv, b);
    assert Ordered(b, lane);
  }
}
