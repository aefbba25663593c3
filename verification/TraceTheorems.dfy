/** What the trace of one transaction looks like in every run. */
module TraceTheorems {
  import opened Base
  import opened Scheduling
  import opened Runs
  import opened Lifecycle
  import opened Slicing

  predicate InLog(log: Trace, r: Rec) {
    match log
    case Empty => false
    case Snoc(past, last) => last == r || InLog(past, r)
  }

  /** A completion is the last word: the bus time recorded then is the bus time for ever. */
  lemma {:induction false} CompletionFinal(log: Trace, p: Pending, at: Time)
    requires Life(log, p.uid) != Illegal && CompletionsExact(log) && InLog(log, Completed(p, at))
    ensures Life(log, p.uid) == Finished && BusUs(log, p.uid) == TotalUs(p)
  {
    if log.last != Completed(p, at) {
      CompletionFinal(log.past, p, at);
    }
  }

  /** An undropped transaction holds the bus for its exact transfer time, up to a microsecond. */
  lemma TransferTime(b: Bus, p: Pending, at: Time)
    requires Reachable(b) && InLog(b.log, Completed(p, at))
    ensures p.tx.size / p.bw <= BusUs(b.log, p.uid) <= Max(1, CeilDiv(p.tx.size, p.bw))
  {
    ReachableAccounted(b);
    CompletionFinal(b.log, p, at);
    SliceBounds(p.tx.size, p.bw, p.quantum);
  }

  lemma {:induction false} DropWasOverdue(log: Trace, p: Pending, at: Time)
    requires DropsJustified(log) && InLog(log, Dropped(p, at))
    ensures 0 < p.tx.deadline <= at
  {
    if log.last != Dropped(p, at) {
      DropWasOverdue(log.past, p, at);
    }
  }

  datatype Milestone = ArriveEv | StartEv | CompleteEv | DropEv

  /** The records of `u` that the trace writer emits. */
  function Milestones(log: Trace, u: nat): seq<Milestone> {
    match log
    case Empty => []
    case Snoc(past, r) =>
      if r.p.uid != u then Milestones(past, u)
      else match r
        case Arrived(_, _) => Milestones(past, u) + [ArriveEv]
        case Started(_, _) => Milestones(past, u) + [StartEv]
        case Completed(_, _) => Milestones(past, u) + [CompleteEv]
        case Dropped(_, _) => Milestones(past, u) + [DropEv]
        case _ => Milestones(past, u)
  }

  predicate PhaseWord(ph: Phase, w: seq<Milestone>) {
    match ph
    case Unseen => w == []
    case Queued => w == [ArriveEv]
    case Begun => w == [ArriveEv, StartEv]
    case Finished => w == [ArriveEv, StartEv, CompleteEv]
    case Discarded => w == [ArriveEv, DropEv] || w == [ArriveEv, StartEv, DropEv]
    case Illegal => true
  }

  lemma {:induction false} PhaseSpellsWord(log: Trace, u: nat)
    ensures PhaseWord(Life(log, u), Milestones(log, u))
  {
    if log.Snoc? {
      PhaseSpellsWord(log.past, u);
    }
  }

  /** The lifecycle language, the only reason for a drop, and at most one late quantum. */
  lemma LifecycleLanguage(b: Bus, u: nat)
    requires Reachable(b)
    ensures Milestones(b.log, u) in
      {[], [ArriveEv], [ArriveEv, DropEv], [ArriveEv, StartEv],
       [ArriveEv, StartEv, CompleteEv], [ArriveEv, StartEv, DropEv]}
    ensures forall p, at :: InLog(b.log, Dropped(p, at)) ==> 0 < p.tx.deadline <= at
    ensures LateQuanta(b.log, u) <= 1
  {
    ReachableAccounted(b);
    PhaseSpellsWord(b.log, u);
    forall p, at | InLog(b.log, Dropped(p, at)) ensures 0 < p.tx.deadline <= at {
      DropWasOverdue(b.log, p, at);
    }
  }

  /** Conservation: every accepted identity is completed, dropped, or in the system exactly once. */
  lemma Conservation(b: Bus, u: nat)
    requires Reachable(b) && u < b.kpi.issued
    ensures b.kpi.issued == b.kpi.completed + b.kpi.dropped + |Bag(b.d)| + |OnBus(b.slot)|
    ensures Has(System(b), u) <==> Life(b.log, u) !in {Finished, Discarded}
    ensures forall p, q :: p in System(b) && q in System(b) && p.uid == q.uid ==> p == q && System(b)[p] == 1
  {
    ReachableCoherent(b);
    assert Legal(b.kpi.issued, b.log);
  }
}
