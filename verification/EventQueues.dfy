/** The tombstone event queue and the monotone clock, against a sorted queue with eager deletion. */
module EventQueues {
  import opened Base
  import opened Events

  class Clock {
    var now: Time

    constructor ()
      ensures now == 0
    {
      now := 0;
    }

    /** False where the original throws: the clock cannot move backward. */
    method AdvanceTo(t: Time) returns (ok: bool)
      modifies this
      ensures ok <==> t >= old(now)
      ensures now == if ok then t else old(now)
    {
      if t < now {
        return false;
      }
      now := t;
      ok := true;
    }
  }

  // ---- The abstract queue: pending events in firing order ----

  datatype Item = Item(when: Time, id: nat, ev: Event)

  /** Earlier time first, earlier scheduling first among equal times. */
  predicate Earlier(a: Item, b: Item) {
    a.when < b.when || (a.when == b.when && a.id < b.id)
  }

  predicate Before(a: Item, b: Item) {
    Earlier(a, b) && a.id != b.id
  }

  /** Strictly increasing, and every event once. */
  predicate Ordered(items: seq<Item>) {
    forall i, j :: 0 <= i < j < |items| ==> Before(items[i], items[j])
  }

  function Insert(items: seq<Item>, it: Item): seq<Item> {
    if items == [] || Earlier(it, items[0]) then [it] + items
    else [items[0]] + Insert(items[1..], it)
  }

  function Delete(items: seq<Item>, id: nat): seq<Item> {
    if items == [] then []
    else if items[0].id == id then items[1..]
    else [items[0]] + Delete(items[1..], id)
  }

  lemma OrderedTail(items: seq<Item>)
    requires Ordered(items) && items != []
    ensures items == [items[0]] + items[1..]
    ensures Ordered(items[1..]) && forall x :: x in items[1..] ==> Before(items[0], x)
  {
  }

  lemma OrderedPrepend(x: Item, items: seq<Item>)
    requires Ordered(items) && forall y :: y in items ==> Before(x, y)
    ensures Ordered([x] + items)
  {
  }

  lemma {:induction false} InsertFacts(items: seq<Item>, it: Item)
    requires Ordered(items) && forall x :: x in items ==> x.id != it.id
    ensures Ordered(Insert(items, it))
    ensures forall x :: x in Insert(items, it) <==> x in items || x == it
  {
    if items == [] {
      OrderedPrepend(it, items);
    } else {
      OrderedTail(items);
      if Earlier(it, items[0]) {
        OrderedPrepend(it, items);
      } else {
        InsertFacts(items[1..], it);
        OrderedPrepend(items[0], Insert(items[1..], it));
      }
    }
  }

  lemma {:induction false} DeleteFacts(items: seq<Item>, id: nat)
    requires Ordered(items)
    ensures Ordered(Delete(items, id))
    ensures forall x :: x in Delete(items, id) <==> x in items && x.id != id
  {
    if items != [] {
      OrderedTail(items);
      if items[0].id != id {
        DeleteFacts(items[1..], id);
        OrderedPrepend(items[0], Delete(items[1..], id));
      }
    }
  }

  // ---- Firing order over whole histories ----

  datatype Eager = Eager(items: seq<Item>, next: nat)

  datatype Op = Push(when: Time, ev: Event) | Kill(id: nat) | Pop

  function Apply(q: Eager, op: Op): Eager {
    match op
    case Push(when, ev) => Eager(Insert(q.items, Item(when, q.next, ev)), q.next + 1)
    case Kill(id) => q.(items := Delete(q.items, id))
    case Pop => if q.items == [] then q else q.(items := q.items[1..])
  }

  /** The clock refuses to move to the first pending event, which lies before `now`. */
  predicate Refuses(q: Eager, now: Time) {
    q.items != [] && q.items[0].when < now
  }

  /** The clock after one operation that it did not refuse. */
  function ClockAfter(q: Eager, now: Time, op: Op): Time {
    if op.Pop? && q.items != [] then Max(now, q.items[0].when) else now
  }

  /** Events in the order in which they fire; a refused pop throws, and ends the history. */
  function Fired(q: Eager, now: Time, ops: seq<Op>): seq<Item>
    decreases |ops|
  {
    if ops == [] || (ops[0].Pop? && Refuses(q, now)) then []
    else
      (if ops[0].Pop? && q.items != [] then [q.items[0]] else [])
      + Fired(Apply(q, ops[0]), ClockAfter(q, now, ops[0]), ops[1..])
  }

  /** Some pop of the history is refused. */
  predicate Thrown(q: Eager, now: Time, ops: seq<Op>)
    decreases |ops|
  {
    ops != [] && ((ops[0].Pop? && Refuses(q, now)) || Thrown(Apply(q, ops[0]), ClockAfter(q, now, ops[0]), ops[1..]))
  }

  /** The numbers of events scheduled in the past and not cancelled since. */
  function LateAfter(q: Eager, now: Time, late: set<nat>, op: Op): set<nat> {
    match op
    case Push(when, _) => if when < now then late + {q.next} else late
    case Kill(id) => late - {id}
    case Pop => late
  }

  /** An event that was scheduled in the past has not been cancelled by the time of a pop. */
  predicate LateAtPop(q: Eager, now: Time, late: set<nat>, ops: seq<Op>)
    decreases |ops|
  {
    ops != [] &&
    ((ops[0].Pop? && late != {})
     || LateAtPop(Apply(q, ops[0]), ClockAfter(q, now, ops[0]), LateAfter(q, now, late, ops[0]), ops[1..]))
  }

  ghost predicate Good(q: Eager) {
    Ordered(q.items) && forall x :: x in q.items ==> x.id < q.next
  }

  lemma ApplyGood(q: Eager, op: Op)
    requires Good(q)
    ensures Good(Apply(q, op))
    ensures forall x :: x in Apply(q, op).items ==> x in q.items || (op.Push? && x == Item(op.when, q.next, op.ev))
    ensures op.Pop? ==> forall x :: x in Apply(q, op).items ==> Before(q.items[0], x)
  {
    match op
    case Push(when, ev) => InsertFacts(q.items, Item(when, q.next, ev));
    case Kill(id) => DeleteFacts(q.items, id);
    case Pop =>
      if q.items != [] {
        OrderedTail(q.items);
      }
  }

  predicate Increasing(items: seq<Item>) {
    forall i, j :: 0 <= i < j < |items| ==> Earlier(items[i], items[j])
  }

  /** Nothing pending that the clock would still accept comes before the latest firing. */
  ghost predicate Behind(q: Eager, last: Item) {
    last.id < q.next && forall x :: x in q.items ==> x.when < last.when || Earlier(last, x)
  }

  lemma FirstIsLeast(q: Eager, x: Item)
    requires Good(q) && x in q.items
    ensures q.items[0].when <= x.when
  {
    if x != q.items[0] {
      OrderedTail(q.items);
      assert Before(q.items[0], x);
    }
  }

  lemma {:induction false} FiredAfter(q: Eager, last: Item, ops: seq<Op>)
    requires Good(q) && Behind(q, last)
    ensures forall x :: x in Fired(q, last.when, ops) ==> Earlier(last, x)
    ensures Increasing(Fired(q, last.when, ops))
    decreases |ops|
  {
    if ops != [] && !(ops[0].Pop? && Refuses(q, last.when)) {
      var q' := Apply(q, ops[0]);
      ApplyGood(q, ops[0]);
      if ops[0].Pop? && q.items != [] {
        assert q.items[0] in q.items;
        FiredAfter(q', q.items[0], ops[1..]);
        FiredFirst(q, last.when, ops);
      } else {
        FiredAfter(q', last, ops[1..]);
        FiredLater(q, last.when, ops);
      }
    }
  }

  lemma FiredFirst(q: Eager, now: Time, ops: seq<Op>)
    requires ops != [] && ops[0].Pop? && q.items != [] && !Refuses(q, now)
    ensures Fired(q, now, ops) == [q.items[0]] + Fired(Apply(q, ops[0]), q.items[0].when, ops[1..])
  {
  }

  lemma FiredLater(q: Eager, now: Time, ops: seq<Op>)
    requires ops != [] && !(ops[0].Pop? && q.items != [])
    ensures Fired(q, now, ops) == Fired(Apply(q, ops[0]), now, ops[1..])
  {
  }

  lemma {:induction false} FiringsOrdered(q: Eager, now: Time, ops: seq<Op>)
    requires Good(q)
    ensures Increasing(Fired(q, now, ops))
    decreases |ops|
  {
    if ops != [] && !(ops[0].Pop? && Refuses(q, now)) {
      var q' := Apply(q, ops[0]);
      ApplyGood(q, ops[0]);
      if ops[0].Pop? && q.items != [] {
        FiredAfter(q', q.items[0], ops[1..]);
        FiredFirst(q, now, ops);
      } else {
        FiringsOrdered(q', now, ops[1..]);
        FiredLater(q, now, ops);
      }
    }
  }

  /** Over every history whatever, the fired (time, number) pairs are strictly lexicographically increasing:
      tombstones never change the order, and the clock refuses what would break it. */
  lemma FiringsIncrease(q: Eager, now: Time, ops: seq<Op>)
    requires Good(q)
    ensures var fired := Fired(q, now, ops);
      forall i, j :: 0 <= i < j < |fired| ==>
        fired[i].when < fired[j].when || (fired[i].when == fired[j].when && fired[i].id < fired[j].id)
  {
    FiringsOrdered(q, now, ops);
    hide Fired, Good;
  }

  /** The late numbers are exactly those of the pending events before `now`. */
  ghost predicate Marks(late: set<nat>, q: Eager, now: Time) {
    && (forall x :: x in q.items ==> (x.when < now <==> x.id in late))
    && (forall id :: id in late ==> exists x :: x in q.items && x.id == id)
  }

  lemma RefusesIffLate(q: Eager, now: Time, late: set<nat>)
    requires Good(q) && Marks(late, q, now)
    ensures Refuses(q, now) <==> late != {}
  {
    if id :| id in late {
      var x :| x in q.items && x.id == id;
      FirstIsLeast(q, x);
    } else if q.items != [] {
      assert q.items[0] in q.items;
    }
  }

  lemma MarksAfter(q: Eager, now: Time, late: set<nat>, op: Op)
    requires Good(q) && Marks(late, q, now) && !(op.Pop? && Refuses(q, now))
    ensures Marks(LateAfter(q, now, late, op), Apply(q, op), ClockAfter(q, now, op))
  {
    match op
    case Push(when, ev) => InsertFacts(q.items, Item(when, q.next, ev));
    case Kill(id) => DeleteFacts(q.items, id);
    case Pop =>
      RefusesIffLate(q, now, late);
      if q.items != [] {
        OrderedTail(q.items);
      }
  }

  /** The clock throws exactly when an event that was scheduled in the past is neither cancelled nor gone at a pop. */
  lemma {:induction false} ThrownIff(q: Eager, now: Time, late: set<nat>, ops: seq<Op>)
    requires Good(q) && Marks(late, q, now)
    ensures Thrown(q, now, ops) <==> LateAtPop(q, now, late, ops)
    decreases |ops|
  {
    if ops != [] {
      RefusesIffLate(q, now, late);
      if !(ops[0].Pop? && Refuses(q, now)) {
        ApplyGood(q, ops[0]);
        MarksAfter(q, now, late, ops[0]);
        ThrownIff(Apply(q, ops[0]), ClockAfter(q, now, ops[0]), LateAfter(q, now, late, ops[0]), ops[1..]);
      }
    }
  }

  /** From an empty queue: whoever never schedules in the past, or cancels in time, never sees the exception. */
  lemma ThrownIffLate(ops: seq<Op>)
    ensures Thrown(Eager([], 0), 0, ops) <==> LateAtPop(Eager([], 0), 0, {}, ops)
  {
    ThrownIff(Eager([], 0), 0, {}, ops);
  }

  /** A late event is refused, not fired out of order; once cancelled it does no harm. */
  lemma LateEvent(e: Event)
    ensures Thrown(Eager([], 0), 0, [Push(10, e), Pop, Push(5, e), Pop])
    ensures !Thrown(Eager([], 0), 0, [Push(10, e), Pop, Push(5, e), Kill(1), Pop])
  {
    var q1, q2, q3 := Eager([Item(10, 0, e)], 1), Eager([], 1), Eager([Item(5, 1, e)], 2);
    var ops, ops' := [Push(10, e), Pop, Push(5, e), Pop], [Push(10, e), Pop, Push(5, e), Kill(1), Pop];
    assert Apply(Eager([], 0), ops[0]) == q1 && Apply(q1, Pop) == q2 && Apply(q2, Push(5, e)) == q3;
    assert ops[1..] == [Pop, Push(5, e), Pop] && ops[1..][1..] == [Push(5, e), Pop] && ops[1..][1..][1..] == [Pop];
    assert Thrown(q3, 10, [Pop]);
    assert Thrown(q2, 10, [Push(5, e), Pop]);
    assert Thrown(q1, 0, [Pop, Push(5, e), Pop]);
    assert ops'[1..] == [Pop, Push(5, e), Kill(1), Pop] && ops'[1..][1..] == [Push(5, e), Kill(1), Pop];
    assert ops'[1..][1..][1..] == [Kill(1), Pop] && ops'[1..][1..][1..][1..] == [Op.Pop];
    assert Apply(q3, Kill(1)) == Eager([], 2);
    assert [Op.Pop][1..] == [];
    assert !Thrown(Eager([], 2), 10, [Pop]);
    assert !Thrown(q3, 10, [Kill(1), Pop]);
    assert !Thrown(q2, 10, [Push(5, e), Kill(1), Pop]);
    assert !Thrown(q1, 0, [Pop, Push(5, e), Kill(1), Pop]);
  }

  lemma NoMembers(items: seq<Item>)
    ensures items == [] || exists x :: x in items
  {
    if items != [] {
      assert items[0] in items;
    }
  }

  // ---- The queue with tombstones ----

  class Handle {
    var alive: bool

    constructor ()
      ensures alive
    {
      alive := true;
    }
  }

  datatype Entry = Entry(item: Item, handle: Handle)

  datatype Popped = Took(ev: Event) | Drained | ClockError

  const INVALID_TIME: Time := -1

  class EventQueue {
    /** The entries of the priority queue, in no particular order, dead ones included. */
    var heap: seq<Entry>
    var nextSeq: nat
    /** The live events in firing order. */
    ghost var pending: seq<Item>

    ghost function Handles(): set<Handle>
      reads this
    {
      set e | e in heap :: e.handle
    }

    ghost predicate Tidy()
      reads this
    {
      && (forall i :: 0 <= i < |heap| ==> heap[i].item.id < nextSeq)
      && (forall i, j :: 0 <= i < j < |heap| ==> heap[i].item.id != heap[j].item.id && heap[i].handle != heap[j].handle)
    }

    ghost predicate Valid()
      reads this, Handles()
    {
      && Tidy() && Good(Eager(pending, nextSeq))
      && (forall it :: it in pending <==> it in Live())
    }

    /** The events whose flag is still up. */
    ghost function Live(): set<Item>
      reads this, Handles()
    {
      set e | e in heap && e.handle.alive :: e.item
    }

    lemma LiveEntry(it: Item) returns (k: nat)
      requires it in Live()
      ensures k < |heap| && heap[k].handle.alive && heap[k].item == it
    {
      var e :| e in heap && e.handle.alive && e.item == it;
      k :| 0 <= k < |heap| && heap[k] == e;
    }

    constructor ()
      ensures Valid() && pending == [] && nextSeq == 0 && heap == []
    {
      heap, nextSeq, pending := [], 0, [];
    }

    method Schedule(when: Time, ev: Event) returns (h: Handle)
      requires Valid()
      modifies this
      ensures Valid() && fresh(h) && Handles() == old(Handles()) + {h}
      ensures pending == Insert(old(pending), Item(when, old(nextSeq), ev)) && nextSeq == old(nextSeq) + 1
    {
      h := new Handle();
      var it := Item(when, nextSeq, ev);
      InsertFacts(pending, it);
      heap := heap + [Entry(it, h)];
      nextSeq := nextSeq + 1;
      pending := Insert(pending, it);
      assert heap[|heap| - 1] in heap;
      assert Live() == old(Live()) + {it};
    }

    /** Position of the entry that owns `h`, or the length of the heap. */
    ghost function IndexOf(h: Handle): (i: nat)
      reads this
      ensures i <= |heap|
      ensures i < |heap| ==> heap[i].handle == h
      ensures i == |heap| ==> forall e :: e in heap ==> e.handle != h
    {
      if k :| 0 <= k < |heap| && heap[k].handle == h then k else |heap|
    }

    /** The live events, the one that owns `h` left aside. */
    ghost function Others(h: Handle): set<Item>
      reads this, Handles() - {h}
    {
      set e | e in heap && e.handle != h && e.handle.alive :: e.item
    }

    lemma OthersWhenDead(h: Handle)
      requires !h.alive
      ensures Live() == Others(h)
    {
    }

    lemma OthersOf(h: Handle)
      requires Tidy()
      ensures Others(h) == if IndexOf(h) < |heap| then Live() - {heap[IndexOf(h)].item} else Live()
    {
      var k := IndexOf(h);
      if k < |heap| {
        assert forall e :: e in heap && (e.handle == h || e.item == heap[k].item) ==> e == heap[k];
      }
    }

    /** What is left of the pending events when the one that owns `h` is deleted. */
    ghost function Forget(h: Handle): seq<Item>
      reads this
    {
      if IndexOf(h) < |heap| then Delete(pending, heap[IndexOf(h)].item.id) else pending
    }

    lemma ForgetGood(h: Handle)
      requires Valid()
      ensures Good(Eager(Forget(h), nextSeq)) && forall it :: it in Forget(h) <==> it in Others(h)
    {
      OthersOf(h);
      var k := IndexOf(h);
      if k < |heap| {
        ApplyGood(Eager(pending, nextSeq), Kill(heap[k].item.id));
        DeleteFacts(pending, heap[k].item.id);
        forall it | it in Live() ensures it.id == heap[k].item.id <==> it == heap[k].item {
          var j := LiveEntry(it);
        }
      }
    }

    /** Flips the flag of an entry; a handle that is null or whose event has fired changes nothing. */
    method Cancel(h: Handle?)
      requires Valid()
      modifies this`pending, h
      ensures Valid() && nextSeq == old(nextSeq) && heap == old(heap)
      ensures pending == if h == null then old(pending) else old(Forget(h))
    {
      if h == null {
        return;
      }
      ForgetGood(h);
      hide Live, Others, Good, Forget, IndexOf;
      pending := Forget(h);
      h.alive := false;
      OthersWhenDead(h);
    }

    /** Index of the entry on top of the priority queue. */
    method Top() returns (k: nat)
      requires Valid() && heap != []
      ensures k < |heap| && forall i :: 0 <= i < |heap| && i != k ==> Earlier(heap[k].item, heap[i].item)
    {
      k := 0;
      for i := 1 to |heap|
        invariant k < i && forall j :: 0 <= j < i && j != k ==> Earlier(heap[k].item, heap[j].item)
      {
        if !Earlier(heap[k].item, heap[i].item) {
          k := i;
        }
      }
    }

    /** The top entry, if alive, is the first pending event. */
    lemma TopIsFirst(k: nat)
      requires Valid() && k < |heap| && heap[k].handle.alive
      requires forall i :: 0 <= i < |heap| && i != k ==> Earlier(heap[k].item, heap[i].item)
      ensures pending != [] && pending[0] == heap[k].item
    {
      assert heap[k] in heap;
      assert heap[k].item in Live();
      var j := LiveEntry(pending[0]);
    }

    lemma NothingPending()
      requires Valid() && heap == []
      ensures pending == []
    {
      assert Live() == {};
      NoMembers(pending);
    }

    /** Drop entry `k`, which is dead or is the first pending event. */
    method Remove(k: nat)
      requires Valid() && k < |heap|
      requires heap[k].handle.alive ==> pending != [] && pending[0] == heap[k].item
      modifies this
      ensures Valid() && heap == old(heap[..k] + heap[k + 1..]) && nextSeq == old(nextSeq)
      ensures pending == if old(heap[k].handle.alive) then old(pending)[1..] else old(pending)
      ensures Handles() <= old(Handles())
    {
      ghost var was := Live();
      var gone := heap[k];
      assert heap == heap[..k] + [gone] + heap[k + 1..];
      heap := heap[..k] + heap[k + 1..];
      if gone.handle.alive {
        OrderedTail(pending);
        pending := pending[1..];
        assert Live() == was - {gone.item};
      } else {
        assert Live() == was;
      }
    }

    /** Advance the clock to the next live event and take it; dead entries are skipped. */
    method PopNext(clock: Clock) returns (r: Popped)
      requires Valid()
      modifies this, clock
      ensures Valid() && nextSeq == old(nextSeq) && Handles() <= old(Handles())
      ensures old(pending) == [] <==> r == Drained
      ensures old(pending) == [] ==> heap == [] && pending == [] && clock.now == old(clock.now)
      ensures old(pending) != [] ==>
        var first := old(pending)[0];
        && pending == old(pending)[1..]
        && r == (if first.when >= old(clock.now) then Took(first.ev) else ClockError)
        && clock.now == Max(old(clock.now), first.when)
    {
      while heap != []
        invariant Valid() && pending == old(pending) && nextSeq == old(nextSeq)
        invariant clock.now == old(clock.now) && Handles() <= old(Handles())
        decreases |heap|
      {
        var k := Top();
        var e := heap[k];
        if e.handle.alive {
          TopIsFirst(k);
        }
        Remove(k);
        if e.handle.alive {
          var ok := clock.AdvanceTo(e.item.when);
          return if ok then Took(e.item.ev) else ClockError;
        }
      }
      NothingPending();
      r := Drained;
    }

    /** Time of the next firing, or the invalid time: the same event that `PopNext` takes. */
    method PeekTime() returns (t: Time)
      requires Valid()
      modifies this
      ensures Valid() && pending == old(pending) && nextSeq == old(nextSeq) && Handles() <= old(Handles())
      ensures t == if pending == [] then INVALID_TIME else pending[0].when
    {
      while heap != []
        invariant Valid() && pending == old(pending) && nextSeq == old(nextSeq) && Handles() <= old(Handles())
        decreases |heap|
      {
        var k := Top();
        if heap[k].handle.alive {
          TopIsFirst(k);
          return heap[k].item.when;
        }
        Remove(k);
      }
      NothingPending();
      t := INVALID_TIME;
    }
  }
}
