/** Runs of the scheduler: sequences of states joined by enabled acts. */
module Runs {
  import opened Configuration
  import opened Scheduling

  ghost predicate Next(b: Bus, b': Bus) {
    exists a :: Enabled(b, a) && b' == Do(b, a)
  }

  ghost predicate StepAt(r: seq<Bus>, i: nat)
    requires i + 1 < |r|
  {
    Next(r[i], r[i + 1])
  }

  /** A run: consecutive states are joined by enabled acts. */
  ghost predicate Run(r: seq<Bus>) {
    r != [] && forall i :: 0 <= i < |r| - 1 ==> StepAt(r, i)
  }

  ghost predicate RunFrom(b: Bus, b': Bus, r: seq<Bus>) {
    Run(r) && r[0] == b && r[|r| - 1] == b'
  }

  ghost predicate Leads(b: Bus, b': Bus) {
    exists r :: RunFrom(b, b', r)
  }

  /** Reachable from a freshly constructed scheduler. */
  ghost predicate Reachable(b: Bus) {
    Leads(Fresh(b.cfg), b)
  }

  lemma LeadsSelf(b: Bus)
    ensures Leads(b, b)
  {
    assert RunFrom(b, b, [b]);
  }

  lemma LeadsAct(b: Bus, a: Act)
    requires Enabled(b, a)
    ensures Leads(b, Do(b, a)) && Do(b, a).cfg == b.cfg
  {
    var r := [b, Do(b, a)];
    assert StepAt(r, 0) by { assert Next(b, Do(b, a)); }
    assert RunFrom(b, Do(b, a), r);
  }

  lemma LeadsJoin(b: Bus, c: Bus, d: Bus)
    requires Leads(b, c) && Leads(c, d)
    ensures Leads(b, d)
  {
    var r1 :| RunFrom(b, c, r1);
    var r2 :| RunFrom(c, d, r2);
    var r := r1 + r2[1..];
    forall i | 0 <= i < |r| - 1 ensures StepAt(r, i) {
      if i < |r1| - 1 {
        assert StepAt(r1, i);
      } else {
        assert StepAt(r2, i - (|r1| - 1));
      }
    }
    assert RunFrom(b, d, r);
  }

  lemma ReachableThen(b: Bus, b': Bus)
    requires Reachable(b) && Leads(b, b') && b'.cfg == b.cfg
    ensures Reachable(b')
  {
    LeadsJoin(Fresh(b.cfg), b, b');
  }

  lemma {:induction false} PrefixLeads(r: seq<Bus>, n: nat)
    requires Run(r) && n < |r|
    ensures Leads(r[0], r[n]) && r[n].cfg == r[0].cfg
  {
    if n == 0 {
      LeadsSelf(r[0]);
    } else {
      PrefixLeads(r, n - 1);
      assert StepAt(r, n - 1);
      var a :| Enabled(r[n - 1], a) && r[n] == Do(r[n - 1], a);
      LeadsAct(r[n - 1], a);
      LeadsJoin(r[0], r[n - 1], r[n]);
    }
  }

  lemma ReachableExtends(r: seq<Bus>, n: nat)
    requires Run(r) && n < |r| && Reachable(r[0])
    ensures Reachable(r[n]) && r[n].cfg == r[0].cfg
  {
    PrefixLeads(r, n);
    ReachableThen(r[0], r[n]);
  }

  // ---- Invariants along runs ----

  lemma {:induction false} AlongRun(inv: Bus -> bool, r: seq<Bus>, n: nat)
    requires Run(r) && n < |r|
    requires inv(r[0])
    requires forall b, a :: inv(b) && Enabled(b, a) ==> inv(Do(b, a))
    ensures inv(r[n])
  {
    if n > 0 {
      AlongRun(inv, r, n - 1);
      assert StepAt(r, n - 1);
      var a :| Enabled(r[n - 1], a) && r[n] == Do(r[n - 1], a);
    }
  }

  /** Whatever holds initially and survives every enabled act holds in every reachable state. */
  lemma InvariantRule(inv: Bus -> bool, b: Bus)
    requires Reachable(b)
    requires inv(Fresh(b.cfg))
    requires forall b, a :: inv(b) && Enabled(b, a) ==> inv(Do(b, a))
    ensures inv(b)
  {
    var r :| RunFrom(Fresh(b.cfg), b, r);
    AlongRun(inv, r, |r| - 1);
  }

  /** The two disciplines never mix. */
  lemma ReachablePolicy(b: Bus)
    requires Reachable(b)
    ensures b.d.FifoQ? <==> b.cfg.policy == Fifo
  {
    InvariantRule((c: Bus) => (c.d.FifoQ? <==> c.cfg.policy == Fifo), b);
  }
}
