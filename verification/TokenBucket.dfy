/** The critical class is rate limited over every window of a run. */
module TokenBucket {
  import opened Base
  import opened Configuration
  import opened Scheduling
  import opened Runs

  lemma RateExact(c: Config)
    ensures 100.0 * RefillRate(c) == (c.bus * c.criticalPct) as real
    ensures 100.0 * TokenCapacity(c) == (10000 * (c.bus * c.criticalPct)) as real
  {
  }

  /** Bytes charged to the critical class so far. */
  function CriticalCharge(log: Trace): nat {
    match log
    case Empty => 0
    case Snoc(past, Quantum(_, _, CritLane, _, charge)) => CriticalCharge(past) + charge
    case Snoc(past, _) => CriticalCharge(past)
  }

  lemma RealProduct(x: real, y: real)
    requires x >= 0.0 && y >= 0.0
    ensures x * y >= 0.0
  {
  }

  lemma AddSpans(x: int, y: int, rate: real)
    ensures (x + y) as real * rate == x as real * rate + y as real * rate
  {
    assert (x + y) as real == x as real + y as real;
  }

  /** The bucket is never overdrawn and never overfull. */
  predicate Bucket(b: Bus) {
    b.d.QosQ? ==> b.d.rate >= 0.0 && b.d.lastRefill <= b.now && 0.0 <= b.d.tokens <= b.d.capacity
  }

  /** The tokens the bucket would hold if it were refilled now. */
  function Level(b: Bus): real
    requires b.d.QosQ?
  {
    RMin(b.d.capacity, b.d.tokens + (b.now - b.d.lastRefill) as real * b.d.rate)
  }

  lemma LevelRange(b: Bus)
    requires b.d.QosQ? && Bucket(b)
    ensures 0.0 <= b.d.tokens <= Level(b) <= b.d.capacity
    ensures b.d.lastRefill == b.now ==> Level(b) == b.d.tokens
  {
    RealProduct((b.now - b.d.lastRefill) as real, b.d.rate);
  }

  /** A refill makes the level explicit and changes nothing else about the bucket. */
  lemma RefillBucket(b: Bus)
    requires b.d.QosQ? && Bucket(b) && Enabled(b, Refill)
    ensures var b' := Do(b, Refill);
      && b'.d.QosQ? && Bucket(b') && b'.log == b.log && b'.now == b.now
      && b'.d.lastRefill == b.now && b'.d.tokens == Level(b)
      && b'.d.rate == b.d.rate && b'.d.capacity == b.d.capacity
  {
    LevelRange(b);
  }

  lemma BeginBucket(b: Bus)
    requires b.d.QosQ? && Bucket(b) && Enabled(b, Begin)
    ensures var b' := Do(b, Begin);
      && b'.d.QosQ? && Bucket(b') && b'.now == b.now && b'.d.lastRefill == b.d.lastRefill == b.now
      && CriticalCharge(b.log) <= CriticalCharge(b'.log)
      && b'.d.tokens == b.d.tokens - (CriticalCharge(b'.log) - CriticalCharge(b.log)) as real
      && b'.d.rate == b.d.rate && b'.d.capacity == b.d.capacity
  {
    var l := Choice(b.cfg, b.d).value;
    var charge := ChargeOf(b.cfg, l, Queue(b.d, l)[0]);
    assert CriticalCharge(Do(b, Begin).log) == CriticalCharge(b.log) + if l == CritLane then charge else 0;
  }

  lemma QuietBucket(b: Bus, a: Act)
    requires b.d.QosQ? && Bucket(b) && Enabled(b, a) && !a.Refill? && !a.Begin?
    ensures var b' := Do(b, a);
      && b'.d.QosQ? && Bucket(b') && b.now <= b'.now
      && b'.d.tokens == b.d.tokens && b'.d.lastRefill == b.d.lastRefill
      && CriticalCharge(b'.log) == CriticalCharge(b.log)
      && b'.d.rate == b.d.rate && b'.d.capacity == b.d.capacity
  {
  }

  /** Charges so far plus the current level, less everything time has put in. */
  function Potential(b: Bus): real
    requires b.d.QosQ?
  {
    CriticalCharge(b.log) as real + Level(b) - Accrued(b.now, b.d.rate)
  }

  /** What time has put in. */
  function Accrued(t: Time, rate: real): real {
    t as real * rate
  }

  /** One act charges no more than it takes out of the bucket. */
  lemma ActPotential(b: Bus, a: Act)
    requires b.d.QosQ? && Bucket(b) && Enabled(b, a)
    ensures var b' := Do(b, a);
      && b'.d.QosQ? && Bucket(b') && b'.d.rate == b.d.rate && b'.d.capacity == b.d.capacity
      && Potential(b') <= Potential(b)
  {
    hide Potential;
    if a == Refill {
      RefillBucket(b);
      hide Do;
      RefillPotential(b, Do(b, a));
    } else if a == Begin {
      BeginBucket(b);
      hide Do;
      BeginPotential(b, Do(b, a));
    } else {
      QuietBucket(b, a);
      hide Do;
      QuietPotential(b, Do(b, a));
    }
  }

  lemma RefillPotential(b: Bus, b': Bus)
    requires b.d.QosQ? && b'.d.QosQ? && Bucket(b) && Bucket(b')
    requires b'.log == b.log && b'.now == b.now && b'.d.rate == b.d.rate
    requires b'.d.lastRefill == b.now && b'.d.tokens == Level(b)
    ensures Potential(b') == Potential(b)
  {
    LevelRange(b');
    hide Level, Bucket;
  }

  lemma BeginPotential(b: Bus, b': Bus)
    requires b.d.QosQ? && b'.d.QosQ? && Bucket(b) && Bucket(b')
    requires b'.now == b.now && b'.d.lastRefill == b.d.lastRefill == b.now && b'.d.rate == b.d.rate
    requires b'.d.tokens == b.d.tokens - (CriticalCharge(b'.log) - CriticalCharge(b.log)) as real
    ensures Potential(b') == Potential(b)
  {
    LevelRange(b);
    LevelRange(b');
    hide Level, Bucket;
  }

  /** The bucket fills no faster than its rate. */
  lemma QuietPotential(b: Bus, b': Bus)
    requires b.d.QosQ? && Bucket(b) && b'.d.QosQ? && b.now <= b'.now
    requires b'.d.tokens == b.d.tokens && b'.d.lastRefill == b.d.lastRefill
    requires b'.d.rate == b.d.rate && b'.d.capacity == b.d.capacity
    requires CriticalCharge(b'.log) == CriticalCharge(b.log)
    ensures Potential(b') <= Potential(b)
  {
    hide Level, Bucket, Accrued;
    QuietRise(b, b');
    AccruedSince(b.now, b'.now, b.d.rate);
  }

  lemma QuietRise(b: Bus, b': Bus)
    requires b.d.QosQ? && Bucket(b) && b'.d.QosQ? && b.now <= b'.now
    requires b'.d.tokens == b.d.tokens && b'.d.lastRefill == b.d.lastRefill
    requires b'.d.rate == b.d.rate && b'.d.capacity == b.d.capacity
    ensures Level(b') <= Level(b) + (b'.now - b.now) as real * b.d.rate
  {
    RealProduct((b'.now - b.now) as real, b.d.rate);
    AddSpans(b.now - b.d.lastRefill, b'.now - b.now, b.d.rate);
  }

  ghost predicate Gauged(b: Bus) {
    Bucket(b) && (b.d.QosQ? ==> b.d.capacity == TokenCapacity(b.cfg) && b.d.rate == RefillRate(b.cfg))
  }

  lemma ActGauged(b: Bus, a: Act)
    requires Gauged(b) && Enabled(b, a)
    ensures Gauged(Do(b, a))
  {
    if b.d.QosQ? {
      ActPotential(b, a);
    }
  }

  /** Tokens stay between zero and the capacity that the configuration gives them. */
  lemma ReachableBucket(b: Bus)
    requires Reachable(b)
    ensures b.d.QosQ? ==> 0.0 <= 100.0 * b.d.tokens <= (10000 * (b.cfg.bus * b.cfg.criticalPct)) as real
    ensures Gauged(b)
  {
    RateExact(b.cfg);
    RealProduct(b.cfg.bus as real, b.cfg.criticalPct as real);
    forall c, a | Gauged(c) && Enabled(c, a) ensures Gauged(Do(c, a)) {
      ActGauged(c, a);
    }
    InvariantRule(Gauged, b);
  }

  lemma NextPotential(b: Bus, b': Bus)
    requires b.d.QosQ? && Bucket(b) && Next(b, b')
    ensures b'.d.QosQ? && Bucket(b') && b'.d.rate == b.d.rate && b'.d.capacity == b.d.capacity
    ensures Potential(b') <= Potential(b)
  {
    var a :| Enabled(b, a) && b' == Do(b, a);
    ActPotential(b, a);
  }

  lemma {:induction false} PotentialFalls(r: seq<Bus>, i: nat, j: nat)
    requires Run(r) && i <= j < |r| && r[i].d.QosQ? && Bucket(r[i])
    ensures r[j].d.QosQ? && Bucket(r[j]) && r[j].d.rate == r[i].d.rate && r[j].d.capacity == r[i].d.capacity
    ensures Potential(r[j]) <= Potential(r[i])
    decreases j
  {
    if i < j {
      PotentialFalls(r, i, j - 1);
      assert StepAt(r, j - 1);
      NextPotential(r[j - 1], r[j]);
    }
  }

  /** Over any window of a run, critical charges stay within one bucket plus the refill. */
  lemma WindowBound(r: seq<Bus>, i: nat, j: nat)
    requires Run(r) && i <= j < |r| && Reachable(r[0]) && r[i].d.QosQ?
    ensures CriticalCharge(r[j].log) as real - CriticalCharge(r[i].log) as real
      <= TokenCapacity(r[i].cfg) + (r[j].now - r[i].now) as real * RefillRate(r[i].cfg)
  {
    ReachableExtends(r, i);
    ReachableBucket(r[i]);
    WindowFromBucket(r, i, j);
  }

  lemma WindowFromBucket(r: seq<Bus>, i: nat, j: nat)
    requires Run(r) && i <= j < |r| && r[i].d.QosQ? && Bucket(r[i])
    ensures CriticalCharge(r[j].log) as real - CriticalCharge(r[i].log) as real
      <= r[i].d.capacity + (r[j].now - r[i].now) as real * r[i].d.rate
  {
    hide Level, Bucket, Run, CriticalCharge, Potential;
    PotentialFalls(r, i, j);
    PotentialSettles(r[i], r[j]);
  }

  lemma PotentialSettles(b: Bus, b': Bus)
    requires b.d.QosQ? && b'.d.QosQ? && Bucket(b) && Bucket(b')
    requires b'.d.rate == b.d.rate && b'.d.capacity == b.d.capacity
    requires Potential(b') <= Potential(b)
    ensures CriticalCharge(b'.log) as real - CriticalCharge(b.log) as real
      <= b.d.capacity + (b'.now - b.now) as real * b.d.rate
  {
    hide Level, Bucket, CriticalCharge, Accrued;
    LevelRange(b);
    LevelRange(b');
    AccruedSince(b.now, b'.now, b.d.rate);
  }

  lemma AccruedSince(t: Time, t': Time, rate: real)
    ensures Accrued(t', rate) - Accrued(t, rate) == (t' - t) as real * rate
  {
    AddSpans(t' - t, t, rate);
  }

  // ---- In whole bytes of the configuration ----

  lemma HundredTimes(x: int, level: real, elapsed: int, cap: real, rate: real, earned: nat)
    requires x as real <= cap + elapsed as real * rate
    requires 100.0 * rate == earned as real && 100.0 * cap == (10000 * earned) as real
    ensures 100 * x <= (10000 + elapsed) * earned
  {
    assert 100.0 * (elapsed as real * rate) == elapsed as real * (100.0 * rate);
    assert (100 * x) as real == 100.0 * x as real;
    assert ((10000 + elapsed) * earned) as real == (10000 * earned) as real + elapsed as real * earned as real;
  }

  /** The rate limit in bytes: over any window of any run the critical class is charged no more than its
      percentage of the bus for the window and ten milliseconds more. */
  lemma WindowBytes(r: seq<Bus>, i: nat, j: nat)
    requires Run(r) && i <= j < |r| && Reachable(r[0]) && r[i].d.QosQ?
    ensures 100 * (CriticalCharge(r[j].log) - CriticalCharge(r[i].log)) <=
      (10000 + (r[j].now - r[i].now)) * (r[i].cfg.bus * r[i].cfg.criticalPct)
  {
    hide CriticalCharge, TokenCapacity, RefillRate, Reachable, Run;
    WindowBound(r, i, j);
    RateExact(r[i].cfg);
    HundredTimes(CriticalCharge(r[j].log) - CriticalCharge(r[i].log), 0.0, r[j].now - r[i].now,
                 TokenCapacity(r[i].cfg), RefillRate(r[i].cfg), r[i].cfg.bus * r[i].cfg.criticalPct);
  }

  // ---- What is earned is there ----

  /** Nothing is lost but what overflows: the level and what was charged cover the old level and the refill, up
      to the capacity. */
  predicate EarnsTo(b: Bus, b': Bus) {
    && b.d.QosQ? && b'.d.QosQ? && Bucket(b) && Bucket(b') && b.now <= b'.now
    && b'.d.rate == b.d.rate && b'.d.capacity == b.d.capacity && CriticalCharge(b.log) <= CriticalCharge(b'.log)
    && Level(b') + (CriticalCharge(b'.log) - CriticalCharge(b.log)) as real
         >= RMin(b.d.capacity, Level(b) + (b'.now - b.now) as real * b.d.rate)
  }

  lemma ActEarns(b: Bus, a: Act)
    requires b.d.QosQ? && Bucket(b) && Enabled(b, a)
    ensures EarnsTo(b, Do(b, a))
  {
    hide EarnsTo, Level, Bucket, CriticalCharge;
    if a == Refill {
      RefillBucket(b);
      RefillCharges(b);
      hide Do;
      RefillEarns(b, Do(b, a));
    } else if a == Begin {
      BeginBucket(b);
      hide Do;
      BeginEarns(b, Do(b, a));
    } else {
      QuietBucket(b, a);
      hide Do;
      QuietEarns(b, Do(b, a));
    }
  }

  lemma RefillCharges(b: Bus)
    requires b.slot.None?
    ensures Do(b, Refill).log == b.log
  {
  }

  lemma RefillEarns(b: Bus, b': Bus)
    requires b.d.QosQ? && b'.d.QosQ? && Bucket(b) && Bucket(b') && b'.log == b.log && b'.now == b.now
    requires b'.d.lastRefill == b.now && b'.d.tokens == Level(b)
    requires b'.d.rate == b.d.rate && b'.d.capacity == b.d.capacity
    ensures EarnsTo(b, b')
  {
    LevelRange(b);
    LevelRange(b');
    hide Level, Bucket, CriticalCharge;
  }

  lemma BeginEarns(b: Bus, b': Bus)
    requires b.d.QosQ? && b'.d.QosQ? && Bucket(b) && Bucket(b') && b'.now == b.now
    requires b'.d.lastRefill == b.d.lastRefill == b.now && CriticalCharge(b.log) <= CriticalCharge(b'.log)
    requires b'.d.tokens == b.d.tokens - (CriticalCharge(b'.log) - CriticalCharge(b.log)) as real
    requires b'.d.rate == b.d.rate && b'.d.capacity == b.d.capacity
    ensures EarnsTo(b, b')
  {
    LevelRange(b);
    LevelRange(b');
    hide Level, Bucket, CriticalCharge;
  }

  lemma QuietEarns(b: Bus, b': Bus)
    requires b.d.QosQ? && b'.d.QosQ? && Bucket(b) && Bucket(b') && b.now <= b'.now
    requires b'.d.tokens == b.d.tokens && b'.d.lastRefill == b.d.lastRefill
    requires b'.d.rate == b.d.rate && b'.d.capacity == b.d.capacity
    requires CriticalCharge(b'.log) == CriticalCharge(b.log)
    ensures EarnsTo(b, b')
  {
    QuietLevel(b, b');
    hide Level, Bucket, CriticalCharge;
  }

  lemma QuietLevel(b: Bus, b': Bus)
    requires b.d.QosQ? && b'.d.QosQ? && Bucket(b) && b.now <= b'.now
    requires b'.d.tokens == b.d.tokens && b'.d.lastRefill == b.d.lastRefill
    requires b'.d.rate == b.d.rate && b'.d.capacity == b.d.capacity
    ensures Level(b') >= RMin(b.d.capacity, Level(b) + (b'.now - b.now) as real * b.d.rate)
  {
    RealProduct((b'.now - b.now) as real, b.d.rate);
    AddSpans(b.now - b.d.lastRefill, b'.now - b.now, b.d.rate);
  }

  lemma NextEarns(b: Bus, b': Bus)
    requires b.d.QosQ? && Bucket(b) && Next(b, b')
    ensures EarnsTo(b, b')
  {
    var a :| Enabled(b, a) && b' == Do(b, a);
    ActEarns(b, a);
    hide Do, EarnsTo, Bucket, Enabled;
  }

  lemma EarnsOn(cap: real, rate: real, l0: real, l1: real, l2: real, e: nat, dt: nat, c1: nat, c2: nat)
    requires rate >= 0.0 && l1 + c1 as real >= RMin(cap, l0 + e as real * rate)
    requires l2 + c2 as real >= RMin(cap, l1 + dt as real * rate)
    ensures l2 + (c1 + c2) as real >= RMin(cap, l0 + (e + dt) as real * rate)
  {
    AddSpans(e, dt, rate);
    RealProduct(dt as real, rate);
  }

  lemma EarnsJoin(a: Bus, b: Bus, c: Bus)
    requires EarnsTo(a, b) && EarnsTo(b, c)
    ensures EarnsTo(a, c)
  {
    hide Level, CriticalCharge;
    EarnsOn(a.d.capacity, a.d.rate, Level(a), Level(b), Level(c), b.now - a.now, c.now - b.now,
            CriticalCharge(b.log) - CriticalCharge(a.log), CriticalCharge(c.log) - CriticalCharge(b.log));
  }

  lemma SelfEarns(b: Bus)
    requires b.d.QosQ? && Bucket(b)
    ensures EarnsTo(b, b)
  {
    LevelRange(b);
  }

  lemma {:induction false} WindowEarns(r: seq<Bus>, i: nat, j: nat)
    requires Run(r) && i <= j < |r| && r[i].d.QosQ? && Bucket(r[i])
    ensures EarnsTo(r[i], r[j])
    decreases j
  {
    if i == j {
      SelfEarns(r[i]);
    } else {
      WindowEarns(r, i, j - 1);
      assert StepAt(r, j - 1);
      hide Level, CriticalCharge, Bucket, Next;
      EarnsBucket(r[i], r[j - 1]);
      NextEarns(r[j - 1], r[j]);
      EarnsJoin(r[i], r[j - 1], r[j]);
    }
  }

  lemma EarnsBucket(b: Bus, b': Bus)
    requires EarnsTo(b, b')
    ensures b'.d.QosQ? && Bucket(b')
  {
  }

  lemma EarnedBytes(x: real, elapsed: nat, l: real, cap: real, rate: real, earned: nat)
    requires x >= RMin(cap, l + elapsed as real * rate) && l >= 0.0
    requires 100.0 * rate == earned as real && 100.0 * cap == (10000 * earned) as real
    ensures 100.0 * x >= (Min(10000, elapsed) * earned) as real
  {
    HundredEarned(elapsed, rate, earned);
    CapEarned(elapsed, earned);
  }

  lemma HundredEarned(elapsed: nat, rate: real, earned: nat)
    requires 100.0 * rate == earned as real
    ensures 100.0 * (elapsed as real * rate) == (elapsed * earned) as real
  {
    assert 100.0 * (elapsed as real * rate) == elapsed as real * (100.0 * rate);
  }

  lemma CapEarned(elapsed: nat, earned: nat)
    ensures Min(10000, elapsed) * earned <= 10000 * earned && Min(10000, elapsed) * earned <= elapsed * earned
  {
  }

  /** The share is there to be spent: whenever the tokens are up to date they cover, with what was charged
      since, the percentage of the bus for the time since any earlier state, up to ten milliseconds. */
  lemma TokensReturn(r: seq<Bus>, i: nat, j: nat)
    requires Run(r) && i <= j < |r| && Reachable(r[0]) && r[i].d.QosQ?
    requires r[j].d.QosQ? && r[j].d.lastRefill == r[j].now
    ensures 100.0 * (r[j].d.tokens + (CriticalCharge(r[j].log) - CriticalCharge(r[i].log)) as real) >=
      (Min(10000, r[j].now - r[i].now) * (r[i].cfg.bus * r[i].cfg.criticalPct)) as real
  {
    hide CriticalCharge, TokenCapacity, RefillRate, Level, Run;
    ReachableExtends(r, i);
    ReachableBucket(r[i]);
    WindowEarns(r, i, j);
    LevelRange(r[i]);
    LevelRange(r[j]);
    RateExact(r[i].cfg);
    EarnedBytes(r[j].d.tokens + (CriticalCharge(r[j].log) - CriticalCharge(r[i].log)) as real, r[j].now - r[i].now,
                Level(r[i]), r[i].d.capacity, r[i].d.rate, r[i].cfg.bus * r[i].cfg.criticalPct);
  }

  /** And the bucket is full at the start: up to date tokens and all charges so far cover ten milliseconds. */
  lemma FullAtStart(b: Bus)
    requires Reachable(b) && b.d.QosQ? && b.d.lastRefill == b.now
    ensures 100.0 * (b.d.tokens + CriticalCharge(b.log) as real) >= (10000 * (b.cfg.bus * b.cfg.criticalPct)) as real
  {
    var r: seq<Bus> :| RunFrom(Fresh(b.cfg), b, r);
    LeadsSelf(Fresh(b.cfg));
    ReachableBucket(Fresh(b.cfg));
    PrefixLeads(r, |r| - 1);
    StartsFull(b.cfg);
    ReachableBucket(b);
    hide TokenCapacity, RefillRate, Level, Run;
    if !r[0].d.QosQ? {
      FifoStays(r, |r| - 1);
    }
    WindowEarns(r, 0, |r| - 1);
    LevelRange(b);
    RateExact(b.cfg);
    RealProduct((b.now - 0) as real, r[0].d.rate);
  }

  lemma StartsFull(c: Config)
    ensures var b := Fresh(c);
      b.d.QosQ? ==> CriticalCharge(b.log) == 0 && Level(b) == b.d.capacity == TokenCapacity(c) && b.now == 0
  {
    RealProduct(c.bus as real, c.criticalPct as real);
  }

  lemma {:induction false} FifoStays(r: seq<Bus>, n: nat)
    requires Run(r) && n < |r| && r[0].d.FifoQ?
    ensures r[n].d.FifoQ?
  {
    if n > 0 {
      FifoStays(r, n - 1);
      assert StepAt(r, n - 1);
      var a :| Enabled(r[n - 1], a) && r[n] == Do(r[n - 1], a);
    }
  }

  /** A critical head is passed over only when its charge and the charges since any earlier state together
      exceed the percentage of the bus for that time, up to ten milliseconds. */
  lemma PassedOverOnlyIf(r: seq<Bus>, i: nat, j: nat)
    requires Run(r) && i <= j < |r| && Reachable(r[0]) && r[i].d.QosQ?
    requires Enabled(r[j], Begin) && r[j].d.QosQ? && r[j].d.crit != [] && Choice(r[j].cfg, r[j].d).value != CritLane
    ensures var charge := Min(r[j].d.crit[0].remaining, r[j].cfg.bus * r[j].cfg.quantumUs % 0x1_0000_0000);
      100 * (charge + CriticalCharge(r[j].log) - CriticalCharge(r[i].log)) >
        Min(10000, r[j].now - r[i].now) * (r[i].cfg.bus * r[i].cfg.criticalPct)
  {
    TokensReturn(r, i, j);
    assert r[j].d.tokens < ChargeOf(r[j].cfg, CritLane, r[j].d.crit[0]) as real;
    hide Reachable, Run, CriticalCharge;
  }
}
