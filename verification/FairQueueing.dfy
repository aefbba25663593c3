/** Weighted-fair sharing of the bulk classes by virtual finish times. */
module FairQueueing {
  import opened Base
  import opened Configuration
  import opened Scheduling
  import opened Runs

  function HighCharge(log: Trace): nat {
    match log
    case Empty => 0
    case Snoc(past, Quantum(_, _, HighLane, _, charge)) => HighCharge(past) + charge
    case Snoc(past, _) => HighCharge(past)
  }

  function NormCharge(log: Trace): nat {
    match log
    case Empty => 0
    case Snoc(past, Quantum(_, _, NormLane, _, charge)) => NormCharge(past) + charge
    case Snoc(past, _) => NormCharge(past)
  }

  /** How far the high class is ahead in virtual time. */
  function Gap(b: Bus): real
    requires b.d.QosQ?
  {
    b.d.vfinHigh - b.d.vfinNorm
  }

  /** The act from `b` to `b'` is a pick from a bulk class. */
  ghost predicate BulkPick(b: Bus, b': Bus) {
    Enabled(b, Begin) && b' == Do(b, Begin) && Choice(b.cfg, b.d).value in {HighLane, NormLane}
  }

  predicate BothBacklogged(b: Bus) {
    b.d.QosQ? && b.d.high != [] && b.d.norm != []
  }

  ghost predicate ContendedAt(r: seq<Bus>, k: nat)
    requires k + 1 < |r|
  {
    BulkPick(r[k], r[k + 1]) ==> BothBacklogged(r[k])
  }

  /** Both bulk classes have work whenever a bulk pick is made. */
  ghost predicate Contended(r: seq<Bus>) {
    forall k :: 0 <= k < |r| - 1 ==> ContendedAt(r, k)
  }

  lemma DivMono(x: real, y: real, w: real)
    requires x <= y && w > 0.0
    ensures x / w <= y / w
  {
  }

  lemma DivSum(x: real, y: real, w: real)
    requires w > 0.0
    ensures (x + y) / w == x / w + y / w
  {
  }

  function Weighted(charge: int, w: pos): real {
    charge as real / w as real
  }

  lemma WeightedAdds(x: int, y: int, w: pos)
    ensures Weighted(x + y, w) == Weighted(x, w) + Weighted(y, w)
  {
    assert (x + y) as real == x as real + y as real;
    DivSum(x as real, y as real, w as real);
  }

  /** The part of the gap that charges do not explain. */
  function Offset(b: Bus): real
    requires b.d.QosQ?
  {
    Gap(b) - Weighted(HighCharge(b.log), Max(1, b.cfg.weightHigh))
           + Weighted(NormCharge(b.log), Max(1, b.cfg.weightNormal))
  }

  lemma BeginCharges(b: Bus)
    requires b.d.QosQ? && Enabled(b, Begin)
    ensures var l := Choice(b.cfg, b.d).value;
      var charge := ChargeOf(b.cfg, l, Queue(b.d, l)[0]);
      var b' := Do(b, Begin);
      && b'.d.QosQ? && b'.cfg == b.cfg
      && HighCharge(b'.log) == HighCharge(b.log) + (if l == HighLane then charge else 0)
      && NormCharge(b'.log) == NormCharge(b.log) + (if l == NormLane then charge else 0)
      && b'.d.vfinHigh == b.d.vfinHigh +
           (if l == HighLane then Weighted(charge, Max(1, b.cfg.weightHigh)) else 0.0)
      && b'.d.vfinNorm == b.d.vfinNorm +
           (if l == NormLane then Weighted(charge, Max(1, b.cfg.weightNormal)) else 0.0)
  {
  }

  lemma QuietCharges(b: Bus, a: Act)
    requires b.d.QosQ? && Enabled(b, a) && a != Begin
    ensures var b' := Do(b, a);
      && b'.d.QosQ? && b'.cfg == b.cfg
      && HighCharge(b'.log) == HighCharge(b.log) && NormCharge(b'.log) == NormCharge(b.log)
      && b'.d.vfinHigh == b.d.vfinHigh && b'.d.vfinNorm == b.d.vfinNorm
  {
  }

  /** Virtual time is the weighted charge: no act changes the offset. */
  lemma ActOffset(b: Bus, a: Act)
    requires b.d.QosQ? && Enabled(b, a)
    ensures Do(b, a).d.QosQ? && Do(b, a).cfg == b.cfg
    ensures Offset(Do(b, a)) == Offset(b)
  {
    if a == Begin {
      BeginCharges(b);
      var l := Choice(b.cfg, b.d).value;
      var charge := ChargeOf(b.cfg, l, Queue(b.d, l)[0]);
      WeightedAdds(HighCharge(b.log), charge, Max(1, b.cfg.weightHigh));
      WeightedAdds(NormCharge(b.log), charge, Max(1, b.cfg.weightNormal));
    } else {
      QuietCharges(b, a);
    }
  }

  lemma {:induction false} OffsetAlong(r: seq<Bus>, n: nat)
    requires Run(r) && n < |r| && r[0].d.QosQ?
    ensures r[n].d.QosQ? && r[n].cfg == r[0].cfg && Offset(r[n]) == Offset(r[0])
  {
    if n > 0 {
      OffsetAlong(r, n - 1);
      assert StepAt(r, n - 1);
      var a :| Enabled(r[n - 1], a) && r[n] == Do(r[n - 1], a);
      ActOffset(r[n - 1], a);
    }
  }

  function HighSince(b: Bus, b': Bus): int {
    HighCharge(b'.log) - HighCharge(b.log)
  }

  function NormSince(b: Bus, b': Bus): int {
    NormCharge(b'.log) - NormCharge(b.log)
  }

  /** The gap moves exactly as the weighted charges do. */
  lemma GapIsCharge(r: seq<Bus>)
    requires Run(r) && r[0].d.QosQ?
    ensures var b, b' := r[0], r[|r| - 1];
      && b'.d.QosQ? && b'.cfg == b.cfg
      && Gap(b') - Gap(b) == Weighted(HighSince(b, b'), Max(1, b.cfg.weightHigh))
                           - Weighted(NormSince(b, b'), Max(1, b.cfg.weightNormal))
  {
    var b, b' := r[0], r[|r| - 1];
    OffsetAlong(r, |r| - 1);
    WeightedAdds(HighCharge(b.log), HighSince(b, b'), Max(1, b.cfg.weightHigh));
    WeightedAdds(NormCharge(b.log), NormSince(b, b'), Max(1, b.cfg.weightNormal));
  }

  lemma WeightedMono(x: int, y: int, w: pos)
    requires x <= y
    ensures Weighted(x, w) <= Weighted(y, w)
  {
    DivMono(x as real, y as real, w as real);
  }

  function ShareHigh(c: Config): real {
    Weighted(c.bus * c.quantumUs, Max(1, c.weightHigh))
  }

  function ShareNorm(c: Config): real {
    Weighted(c.bus * c.quantumUs, Max(1, c.weightNormal))
  }

  predicate InBand(c: Config, gap: real) {
    -ShareNorm(c) <= gap <= ShareHigh(c)
  }

  lemma ChargeShare(c: Config, lane: Lane, p: Pending)
    requires lane == HighLane || lane == NormLane
    ensures 0.0 <= Weighted(ChargeOf(c, lane, p), Max(1, c.weightHigh)) <= ShareHigh(c)
    ensures 0.0 <= Weighted(ChargeOf(c, lane, p), Max(1, c.weightNormal)) <= ShareNorm(c)
  {
    WeightedMono(ChargeOf(c, lane, p), c.bus * c.quantumUs, Max(1, c.weightHigh));
    WeightedMono(ChargeOf(c, lane, p), c.bus * c.quantumUs, Max(1, c.weightNormal));
    WeightedMono(0, ChargeOf(c, lane, p), Max(1, c.weightHigh));
    WeightedMono(0, ChargeOf(c, lane, p), Max(1, c.weightNormal));
  }

  /** A contended pick keeps the gap in its band: the class that is behind is the one served. */
  lemma ActInBand(b: Bus, a: Act)
    requires b.d.QosQ? && Enabled(b, a) && InBand(b.cfg, Gap(b))
    requires BulkPick(b, Do(b, a)) ==> BothBacklogged(b)
    ensures Do(b, a).d.QosQ? && InBand(b.cfg, Gap(Do(b, a)))
  {
    if a == Begin {
      BeginCharges(b);
      var l := Choice(b.cfg, b.d).value;
      if l != CritLane {
        ChargeShare(b.cfg, l, Queue(b.d, l)[0]);
      }
    }
  }

  lemma {:induction false} BandAlong(r: seq<Bus>, n: nat)
    requires Run(r) && n < |r| && Contended(r) && r[0].d.QosQ? && InBand(r[0].cfg, Gap(r[0]))
    ensures r[n].d.QosQ? && r[n].cfg == r[0].cfg && InBand(r[n].cfg, Gap(r[n]))
  {
    if n > 0 {
      BandAlong(r, n - 1);
      assert StepAt(r, n - 1);
      var a :| Enabled(r[n - 1], a) && r[n] == Do(r[n - 1], a);
      assert ContendedAt(r, n - 1);
      ActInBand(r[n - 1], a);
      ActOffset(r[n - 1], a);
    }
  }

  /** Over any contended segment, weighted service of the two classes differs by at most
      one quantum of each. */
  lemma WeightedFair(r: seq<Bus>)
    requires Run(r) && Contended(r) && r[0].d.QosQ? && InBand(r[0].cfg, Gap(r[0]))
    ensures var b, b' := r[0], r[|r| - 1];
      var lead := Weighted(HighSince(b, b'), Max(1, b.cfg.weightHigh))
                - Weighted(NormSince(b, b'), Max(1, b.cfg.weightNormal));
      var slack := ShareHigh(b.cfg) + ShareNorm(b.cfg);
      -slack <= lead <= slack
  {
    BandAlong(r, |r| - 1);
    GapIsCharge(r);
  }

  // ---- Waiting after the other class was idle ----

  ghost predicate HighAt(r: seq<Bus>, k: nat)
    requires k + 1 < |r|
  {
    BulkPick(r[k], r[k + 1]) ==> Choice(r[k].cfg, r[k].d).value == HighLane
  }

  ghost predicate NoNormPick(r: seq<Bus>) {
    forall k :: 0 <= k < |r| - 1 ==> HighAt(r, k)
  }

  lemma ActBehind(b: Bus, a: Act)
    requires b.d.QosQ? && Enabled(b, a)
    requires BulkPick(b, Do(b, a)) ==> BothBacklogged(b) && Choice(b.cfg, b.d).value == HighLane
    requires Gap(b) <= ShareHigh(b.cfg)
    ensures Do(b, a).d.QosQ? && Gap(Do(b, a)) <= ShareHigh(b.cfg)
    ensures NormCharge(Do(b, a).log) == NormCharge(b.log)
  {
    if a == Begin {
      BeginCharges(b);
      var l := Choice(b.cfg, b.d).value;
      if l != CritLane {
        ChargeShare(b.cfg, l, Queue(b.d, l)[0]);
      }
    }
  }

  lemma {:induction false} BehindAlong(r: seq<Bus>, n: nat)
    requires Run(r) && n < |r| && Contended(r) && NoNormPick(r) && r[0].d.QosQ? && Gap(r[0]) <= 0.0
    ensures r[n].d.QosQ? && r[n].cfg == r[0].cfg && Gap(r[n]) <= ShareHigh(r[n].cfg)
    ensures NormCharge(r[n].log) == NormCharge(r[0].log)
  {
    if n == 0 {
      WeightedMono(0, r[0].cfg.bus * r[0].cfg.quantumUs, Max(1, r[0].cfg.weightHigh));
    } else {
      BehindAlong(r, n - 1);
      assert StepAt(r, n - 1);
      var a :| Enabled(r[n - 1], a) && r[n] == Do(r[n - 1], a);
      assert ContendedAt(r, n - 1) && HighAt(r, n - 1);
      ActBehind(r[n - 1], a);
      ActOffset(r[n - 1], a);
    }
  }

  /** The code never resets the virtual times, so a class that was idle can claim its lag back:
      a backlogged normal class waits for at most `lag` weighted bytes plus one quantum. */
  lemma NormalWaits(r: seq<Bus>, lag: real)
    requires Run(r) && Contended(r) && NoNormPick(r)
    requires r[0].d.QosQ? && Gap(r[0]) == -lag && lag >= 0.0
    ensures HighSince(r[0], r[|r| - 1]) as real
      <= lag * Max(1, r[0].cfg.weightHigh) as real + (r[0].cfg.bus * r[0].cfg.quantumUs) as real
  {
    var c := r[0].cfg;
    BehindAlong(r, |r| - 1);
    GapIsCharge(r);
    WeightedBound(HighSince(r[0], r[|r| - 1]), lag, c.bus * c.quantumUs, Max(1, c.weightHigh));
  }

  lemma WeightedBound(x: int, g: real, q: int, w: pos)
    requires Weighted(x, w) <= g + Weighted(q, w)
    ensures x as real <= g * w as real + q as real
  {
    MulOut(x as real, g, q as real, w as real);
  }

  lemma MulOut(x: real, g: real, q: real, w: real)
    requires w > 0.0 && x / w <= g + q / w
    ensures x <= g * w + q
  {
    assert (x / w) * w <= (g + q / w) * w;
    assert (x / w) * w == x && (q / w) * w == q;
  }

  // ---- In whole numbers, from the start of a run ----

  /** How far the high class is ahead in bytes, each class scaled by the configured weight of the other; a
      weight below one counts as one. */
  function Lead(b: Bus): int {
    Max(1, b.cfg.weightNormal) * HighCharge(b.log) - Max(1, b.cfg.weightHigh) * NormCharge(b.log)
  }

  ghost predicate Explained(b: Bus) {
    b.d.QosQ? ==> Offset(b) == 0.0
  }

  /** In every run the gap of the virtual times is what the charges make it. */
  lemma ReachableExplained(b: Bus)
    requires Reachable(b)
    ensures Explained(b)
  {
    forall c, a | Explained(c) && Enabled(c, a) ensures Explained(Do(c, a)) {
      if c.d.QosQ? {
        ActOffset(c, a);
      }
    }
    InvariantRule(Explained, b);
  }

  lemma CrossOut(x: real, y: real, v: real, w: real)
    requires v > 0.0 && w > 0.0
    ensures (x / v - y / w) * (v * w) == w * x - v * y
  {
    assert (x / v) * v == x && (y / w) * w == y;
    assert (x / v) * (v * w) == x * w && (y / w) * (v * w) == y * v;
    assert (x / v - y / w) * (v * w) == (x / v) * (v * w) - (y / w) * (v * w);
  }

  lemma LeadIsGap(b: Bus)
    requires Reachable(b) && b.d.QosQ?
    ensures Lead(b) as real == Gap(b) * (Max(1, b.cfg.weightHigh) * Max(1, b.cfg.weightNormal)) as real
  {
    ReachableExplained(b);
    hide Reachable, Gap, Weighted;
    Unweighted(Gap(b), HighCharge(b.log), NormCharge(b.log), Max(1, b.cfg.weightHigh), Max(1, b.cfg.weightNormal));
  }

  lemma Unweighted(gap: real, x: nat, y: nat, v: pos, w: pos)
    requires gap - Weighted(x, v) + Weighted(y, w) == 0.0
    ensures (w * x - v * y) as real == gap * (v * w) as real
  {
    CrossOut(x as real, y as real, v as real, w as real);
    IntAsReal(v, w, x, y);
    assert gap == x as real / v as real - y as real / w as real;
  }

  lemma IntAsReal(v: pos, w: pos, x: nat, y: nat)
    ensures (w * x - v * y) as real == w as real * x as real - v as real * y as real
    ensures (v * w) as real == v as real * w as real
  {
  }

  /** Which class is next when both wait: high exactly when it is not ahead in weighted bytes, so that a tie
      goes to high. */
  lemma BulkPickRule(b: Bus)
    requires Reachable(b) && Enabled(b, Begin) && BothBacklogged(b) && Choice(b.cfg, b.d).value != CritLane
    ensures Choice(b.cfg, b.d).value == HighLane <==>
      Max(1, b.cfg.weightNormal) * HighCharge(b.log) <= Max(1, b.cfg.weightHigh) * NormCharge(b.log)
  {
    LeadIsGap(b);
    hide Reachable;
    SameSign(Gap(b), Max(1, b.cfg.weightHigh) * Max(1, b.cfg.weightNormal), Lead(b));
  }

  lemma SameSign(gap: real, k: int, lead: int)
    requires k > 0 && lead as real == gap * k as real
    ensures gap <= 0.0 <==> lead <= 0
  {
    if gap > 0.0 {
      assert gap * k as real > 0.0;
    }
  }

  /** The band in whole numbers: one default quantum of each class, scaled by the weight of the other. */
  predicate LeadInBand(c: Config, lead: int) {
    -(Max(1, c.weightHigh) * (c.bus * c.quantumUs)) <= lead <= Max(1, c.weightNormal) * (c.bus * c.quantumUs)
  }

  lemma BandIff(c: Config, gap: real, lead: int)
    requires lead as real == gap * (Max(1, c.weightHigh) * Max(1, c.weightNormal)) as real
    ensures InBand(c, gap) <==> LeadInBand(c, lead)
  {
    var v, w: pos, q := Max(1, c.weightHigh), Max(1, c.weightNormal), c.bus * c.quantumUs;
    Scaled(gap, q, v, w, lead);
  }

  lemma Scaled(gap: real, q: int, v: pos, w: pos, lead: int)
    requires lead as real == gap * (v * w) as real
    ensures gap <= Weighted(q, v) <==> lead <= w * q
    ensures -Weighted(q, w) <= gap <==> -(v * q) <= lead
  {
    var k := v as real * w as real;
    assert (v * w) as real == k && k > 0.0;
    assert Weighted(q, v) * k == (w * q) as real by {
      assert (q as real / v as real) * v as real == q as real;
      assert (q as real / v as real) * k == ((q as real / v as real) * v as real) * w as real;
    }
    assert Weighted(q, w) * k == (v * q) as real by {
      assert (q as real / w as real) * w as real == q as real;
      assert (q as real / w as real) * k == ((q as real / w as real) * w as real) * v as real;
    }
    Cancel(gap, Weighted(q, v), k);
    Cancel(-Weighted(q, w), gap, k);
  }

  lemma Cancel(x: real, y: real, k: real)
    requires k > 0.0
    ensures x <= y <==> x * k <= y * k
  {
  }

  /** Weighted fairness in bytes: over every contended segment of every run that begins in the band, as it
      does at the start, the classes share in proportion to the configured weights, up to one default quantum
      of each, and the band is kept. */
  lemma SharesByWeight(r: seq<Bus>)
    requires Run(r) && Contended(r) && Reachable(r[0]) && r[0].d.QosQ? && LeadInBand(r[0].cfg, Lead(r[0]))
    ensures var b, b' := r[0], r[|r| - 1];
      var v, w := Max(1, b.cfg.weightHigh), Max(1, b.cfg.weightNormal);
      && -((v + w) * (b.cfg.bus * b.cfg.quantumUs)) <= w * HighSince(b, b') - v * NormSince(b, b')
      && w * HighSince(b, b') - v * NormSince(b, b') <= (v + w) * (b.cfg.bus * b.cfg.quantumUs)
      && LeadInBand(b'.cfg, Lead(b'))
  {
    hide Reachable, Contended, Lead, Gap, LeadInBand, InBand;
    var b, b' := r[0], r[|r| - 1];
    LeadIsGap(b);
    BandIff(b.cfg, Gap(b), Lead(b));
    BandAlong(r, |r| - 1);
    ReachableExtends(r, |r| - 1);
    LeadIsGap(b');
    BandIff(b'.cfg, Gap(b'), Lead(b'));
    LeadsApart(b, b');
  }

  lemma LeadsApart(b: Bus, b': Bus)
    requires b'.cfg == b.cfg && LeadInBand(b.cfg, Lead(b)) && LeadInBand(b.cfg, Lead(b'))
    ensures var v, w := Max(1, b.cfg.weightHigh), Max(1, b.cfg.weightNormal);
      && -((v + w) * (b.cfg.bus * b.cfg.quantumUs)) <= w * HighSince(b, b') - v * NormSince(b, b')
      && w * HighSince(b, b') - v * NormSince(b, b') <= (v + w) * (b.cfg.bus * b.cfg.quantumUs)
  {
    Apart(Max(1, b.cfg.weightHigh), Max(1, b.cfg.weightNormal), b.cfg.bus * b.cfg.quantumUs,
          HighCharge(b.log), NormCharge(b.log), HighCharge(b'.log), NormCharge(b'.log));
  }

  lemma Apart(v: pos, w: pos, q: pos, x: nat, y: nat, x': nat, y': nat)
    requires -(v * q) <= w * x - v * y <= w * q && -(v * q) <= w * x' - v * y' <= w * q
    ensures -((v + w) * q) <= w * (x' - x) - v * (y' - y) <= (v + w) * q
  {
    Distribute(w, x', x);
    Distribute(v, y', y);
    assert (v + w) * q == v * q + w * q;
  }

  lemma Distribute(k: int, a: int, b: int)
    ensures k * (a - b) == k * a - k * b
  {
  }

  /** A fresh scheduler is in the band. */
  lemma FreshInBand(c: Config)
    ensures LeadInBand(c, Lead(Fresh(c)))
  {
    var q := c.bus * c.quantumUs;
    assert q > 0 && Max(1, c.weightHigh) * q > 0 && Max(1, c.weightNormal) * q > 0;
  }

  /** A backlogged normal class that is `lag` scaled bytes behind the high class's due, which it may be after
      an idle time, waits for at most that and one default quantum of high bytes. */
  lemma NormalWaitsBytes(r: seq<Bus>)
    requires Run(r) && Contended(r) && NoNormPick(r) && Reachable(r[0]) && r[0].d.QosQ? && Lead(r[0]) <= 0
    ensures Max(1, r[0].cfg.weightNormal) * HighSince(r[0], r[|r| - 1]) <=
      -Lead(r[0]) + Max(1, r[0].cfg.weightNormal) * (r[0].cfg.bus * r[0].cfg.quantumUs)
  {
    hide Reachable, Contended, NoNormPick, Gap, Lead;
    var b, b' := r[0], r[|r| - 1];
    LeadIsGap(b);
    SameSign(Gap(b), Max(1, b.cfg.weightHigh) * Max(1, b.cfg.weightNormal), Lead(b));
    BehindAlong(r, |r| - 1);
    ReachableExtends(r, |r| - 1);
    LeadIsGap(b');
    Scaled(Gap(b'), b.cfg.bus * b.cfg.quantumUs, Max(1, b.cfg.weightHigh), Max(1, b.cfg.weightNormal), Lead(b'));
    HighAlone(b, b');
  }

  lemma HighAlone(b: Bus, b': Bus)
    requires b'.cfg == b.cfg && NormCharge(b'.log) == NormCharge(b.log)
    ensures Max(1, b.cfg.weightNormal) * HighSince(b, b') == Lead(b') - Lead(b)
  {
    Distribute(Max(1, b.cfg.weightNormal), HighCharge(b'.log), HighCharge(b.log));
  }
}
