/** The audio guarantee carried over to whole simulations: with a feasible audio configuration and no
    other critical source, no run ever drops an audio packet or lets one overstay its bound. */
module RunGuarantee {
  import opened Base
  import opened Configuration
  import opened Scheduling
  import opened Runs
  import opened Bandwidth
  import opened Operations
  import opened Events
  import opened EventQueues
  import opened Prefetching
  import opened Simulation
  import opened SimulationSafety
  import opened FiringOrder
  import opened AudioGuarantee

  /** Audio is the only critical source, and its configuration is the flow `f`, which is feasible. */
  predicate Fits(s: Setup, f: Flow) {
    && s.audio.qos == Critical && s.texture.qos != Critical && s.weightQos != Critical
    && f.packet == s.audio.packetBytes && f.period == AudioPeriod(s) && f.deadlineUs == s.audio.deadlineUs
    && Feasible(s.cfg, f)
  }

  /** At most one audio tick is pending, a period or more after the latest packet. */
  ghost predicate Paced(items: seq<Item>, f: Flow, last: Time) {
    && (forall it :: it in items && it.ev.AudioTick? ==> last + f.period <= it.when)
    && (forall a, b :: a in items && b in items && a.ev.AudioTick? && b.ev.AudioTick? ==> a == b)
  }

  ghost predicate Timely(f: Flow, w: World, last: Time) {
    OnTime(f, w.bus, last) && Paced(w.items, f, last)
  }

  // ---- Operations that schedule no audio ----

  ghost predicate Quiet(w: World, w': World) {
    forall it :: it in w'.items && it.ev.AudioTick? ==> it in w.items
  }

  lemma PostQuiet(w: World, when: Time, ev: Event)
    requires !ev.AudioTick?
    ensures Quiet(w, Post(w, when, ev))
  {
    InsertMembers(w.items, Item(when, w.next, ev));
  }

  lemma InstallQuiet(w: World, bus: Bus)
    ensures Quiet(w, Install(w, bus))
  {
    if bus.slot.Some? {
      PostQuiet(w.(bus := bus), bus.slot.value.fireAt, QuantumDone(bus.slot.value.p));
    }
  }

  lemma SubmitQuiet(w: World, tx: Txn)
    ensures Quiet(w, Submit(w, tx)) && Submit(w, tx).bus == Accept(w.bus, tx)
  {
    InstallQuiet(w, Accept(w.bus, tx));
  }

  lemma {:induction false} PostAllQuiet(s: Setup, w: World, rs: seq<Request>)
    ensures Quiet(w, PostAll(s, w, rs)) && PostAll(s, w, rs).bus == w.bus
  {
    if rs != [] {
      var init, r := rs[..|rs| - 1], rs[|rs| - 1];
      PostAllQuiet(s, w, init);
      PostQuiet(PostAll(s, w, init), w.bus.now, WeightIssue(r.npc, Encode(s.cfg.lodSizes, r.lod)));
    }
  }

  lemma PullPaced(w: World, f: Flow, last: Time)
    requires Paced(w.items, f, last) && w.items != [] && Ordered(w.items)
    ensures Paced(w.items[1..], f, last)
    ensures w.items[0].ev.AudioTick? ==> forall it :: it in w.items[1..] ==> !it.ev.AudioTick?
    ensures w.items[0].ev.AudioTick? ==> last + f.period <= w.items[0].when
  {
    OrderedTail(w.items);
    assert w.items[0] in w.items;
  }

  // ---- Steps ----

  lemma AudioTimely(s: Setup, f: Flow, w: World, last: Time)
    requires Fits(s, f) && Reachable(w.bus) && w.items != [] && w.items[0].ev.AudioTick? && Ordered(w.items)
    requires Timely(f, w, last) && Enabled(w.bus, Advance(w.items[0].when))
    ensures Timely(f, OnAudio(s, Pull(w)), w.items[0].when)
  {
    hide Reachable, OnTime, Feasible, Insert, Accept, Submit, AudioPeriod, Ordered;
    var w1 := Pull(w);
    var t, tx := w1.bus.now, AudioTxn(s, w1);
    PullPaced(w, f, last);
    SubmitOnTime(f, w.bus, last, t, tx);
    var w2 := Submit(w1.(ids := w1.ids.(audio := w1.ids.audio + 1)), tx);
    SubmitQuiet(w1.(ids := w1.ids.(audio := w1.ids.audio + 1)), tx);
    AcceptNow(w1.bus, tx);
    InsertMembers(w2.items, Item(t + AudioPeriod(s), w2.next, AudioTick));
  }

  lemma AcceptNow(b: Bus, tx: Txn)
    ensures Accept(b, tx).now == b.now
  {
    StartTime(Admit(b, tx));
  }

  lemma BulkTimely(f: Flow, w: World, last: Time, ids: Ids, tx: Txn)
    requires Reachable(w.bus) && w.items != [] && Ordered(w.items)
    requires Timely(f, w, last) && Enabled(w.bus, Advance(w.items[0].when))
    requires tx.source != Audio && tx.qos != Critical && tx.issuedAt <= w.items[0].when
    ensures Timely(f, Submit(Pull(w).(ids := ids), tx), last)
  {
    var w1 := Pull(w).(ids := ids);
    PullPaced(w, f, last);
    hide Reachable, OnTime, Insert, Accept, Submit;
    SubmitOnTime(f, w.bus, last, w1.bus.now, tx);
    SubmitQuiet(w1, tx);
  }

  lemma TickTimely(s: Setup, f: Flow, w: World, last: Time)
    requires Reachable(w.bus) && w.items != [] && Ordered(w.items)
    requires Timely(f, w, last) && Enabled(w.bus, Advance(w.items[0].when))
    ensures Timely(f, OnTick(s, Pull(w)), last)
  {
    hide Reachable, OnTime, Insert, Tick, PostAll, Ordered;
    var w1 := Pull(w);
    PullPaced(w, f, last);
    ReachablePhysical(w.bus);
    AdvanceOnTime(f, w.bus, last, w1.bus.now);
    var (p, rs) := Tick(s, w1.pred, w1.bus.now);
    PostAllQuiet(s, w1.(pred := p), rs);
    var w2 := PostAll(s, w1.(pred := p), rs);
    PostQuiet(w2, w2.bus.now + s.tickUs, PredictorTick);
  }

  lemma QuantumTimely(s: Setup, f: Flow, w: World, last: Time, w': World)
    requires Reachable(w.bus) && w.items != [] && Ordered(w.items) && Timely(f, w, last)
    requires w.bus.slot.Some? && w.bus.now <= w.bus.slot.value.fireAt == w.items[0].when
    requires OnQuantum(s, Pull(w), w')
    ensures Timely(f, w', last)
  {
    PullPaced(w, f, last);
    FireOnTime(f, w.bus, last);
    hide Reachable, OnTime, Insert, Noted, QuantumEnd;
    InstallQuiet(Pull(w), QuantumEnd(Pull(w).bus));
  }

  function NewLast(w: World, last: Time): Time {
    if w.items != [] && w.items[0].ev.AudioTick? then w.items[0].when else last
  }

  lemma BlockTimely(f: Flow, w: World, last: Time, at: Time, burstEnd: Time, period: pos)
    requires Timely(f, w, last)
    ensures Timely(f, ScheduleBlock(w, at, burstEnd, period), last)
  {
    hide OnTime, Insert;
    PostQuiet(w, at, TextureBlock(at, burstEnd, period));
  }

  lemma TextureTimely(s: Setup, f: Flow, w: World, last: Time, at: Time, burstEnd: Time, period: pos)
    requires Fits(s, f) && Reachable(w.bus) && w.items != [] && Ordered(w.items)
    requires Timely(f, w, last) && Enabled(w.bus, Advance(w.items[0].when))
    ensures Timely(f, OnTexture(s, Pull(w), at, burstEnd, period), last)
  {
    hide Reachable, Timely, Feasible, Ordered, Insert, Submit;
    var w1 := Pull(w);
    var ids := w1.ids.(texture := w1.ids.texture + 1);
    BulkTimely(f, w, last, ids, TextureTxn(s, w1));
    BlockTimely(f, Submit(w1.(ids := ids), TextureTxn(s, w1)), last, at + period, burstEnd, period);
  }

  lemma StepTimely(s: Setup, f: Flow, w: World, w': World, last: Time)
    requires WellPosed(s) && Fits(s, f) && WorldInv(s, w) && Step(s, w, w') && Timely(f, w, last)
    ensures Timely(f, w', NewLast(w, last))
  {
    PullInv(s, w);
    assert EventOk(s, w.bus, w.items[0]);
    assert Reachable(w.bus) && Ordered(w.items);
    var w1 := Pull(w);
    hide Reachable, WorldInv, Timely, Noted, Insert, Accept, BusOk, PredictorOk, Ordered, Feasible, Submit;
    match w.items[0].ev
    case AudioTick => AudioTimely(s, f, w, last);
    case TextureBlock(at, burstEnd, period) => TextureTimely(s, f, w, last, at, burstEnd, period);
    case WeightIssue(npc, size) =>
      BulkTimely(f, w, last, w1.ids.(weight := w1.ids.weight + 1), WeightTxn(s, w1, npc, size));
    case PredictorTick => TickTimely(s, f, w, last);
    case QuantumDone(_) => QuantumTimely(s, f, w, last, w');
  }

  // ---- Whole runs ----

  lemma StartTimely(s: Setup, f: Flow)
    requires Fits(s, f)
    ensures Timely(f, StartAudio(s, Nothing(s)), 0 - f.period)
  {
    FreshOnTime(s.cfg, f);
    hide OnTime, TokenCapacity, RefillRate, Feasible, Insert, AudioPeriod;
    InsertMembers([], Item(AudioPeriod(s), 0, AudioTick));
  }

  lemma {:induction false} BurstsTimely(s: Setup, f: Flow, w: World, last: Time, n: nat)
    requires Timely(f, w, last) && n <= |s.bursts|
    ensures Timely(f, StartBursts(s, w, n), last)
  {
    hide Timely, Period;
    if n > 0 {
      BurstsTimely(s, f, w, last, n - 1);
      var b := s.bursts[n - 1];
      if Effective(b) {
        BlockTimely(f, StartBursts(s, w, n - 1), last, b.atMs * 1000, b.atMs * 1000 + b.durationMs * 1000,
                    Period(s.texture.blockBytes, b.rate));
      }
    }
  }

  lemma {:induction false} RunTimely(s: Setup, f: Flow, r: seq<World>, n: nat) returns (last: Time)
    requires WellPosed(s) && Fits(s, f) && History(s, r) && n < |r|
    ensures Timely(f, r[n], last)
  {
    hide Timely, WorldInv, Step, WellPosed, Fits;
    if n == 0 {
      last := 0 - f.period;
      StartTimely(s, f);
      var w1 := StartAudio(s, Nothing(s));
      BurstsTimely(s, f, w1, last, |s.bursts|);
      PredictorTimely(s, f, StartBursts(s, w1, |s.bursts|), last);
    } else {
      var l := RunTimely(s, f, r, n - 1);
      HistoryInv(s, r, n - 1);
      assert StepsAt(s, r, n - 1);
      StepTimely(s, f, r[n - 1], r[n], l);
      last := NewLast(r[n - 1], l);
    }
  }

  lemma PredictorTimely(s: Setup, f: Flow, w: World, last: Time)
    requires Timely(f, w, last)
    ensures Timely(f, StartPredictor(s, w), last)
  {
    hide OnTime, Insert, PostAll, ScriptRequests;
    PostAllQuiet(s, w, ScriptRequests(s.sc, |s.sc.npcs|));
    PostQuiet(w, 0, PredictorTick);
  }

  /** In every state of every run, whatever the predictor and the textures do: no audio packet was
      dropped, every one was picked within the longest quantum of its arrival and completed a service
      time later, and none that still waits has outlived that bound. */
  lemma NoRunDropsAudio(s: Setup, f: Flow, r: seq<World>, n: nat)
    requires WellPosed(s) && Fits(s, f) && History(s, r) && n < |r|
    ensures Guaranteed(f, r[n].bus)
  {
    var last := RunTimely(s, f, r, n);
    HistoryInv(s, r, n);
    ReachablePhysical(r[n].bus);
    OnTimeGuarantees(f, r[n].bus, last);
  }

  /** The shipped configuration meets the hypotheses for every scenario: its worst quantum is 100 us. */
  lemma ShippedFits(s: Setup)
    requires s.cfg == SHIPPED && s.audio == AudioFlow(5, 256, 1000, Critical)
    requires s.texture.qos == Normal && s.weightQos == High
    ensures Fits(s, Flow(256, 51, 1000, 100, 1))
  {
    assert AudioPeriod(s) == 51;
    forall o: Source ensures QuantumFor(SHIPPED, o) <= 100 {
    }
  }
}
