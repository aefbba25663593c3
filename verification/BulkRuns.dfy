/** The bulk share carried over to whole simulations: whenever bulk traffic waits, it gets the part of the bus
    that the audio flow leaves, in every window of every run. */
module BulkRuns {
  import opened Base
  import opened Configuration
  import opened Scheduling
  import opened Runs
  import opened Bandwidth
  import opened EventQueues
  import opened Simulation
  import opened SimulationSafety
  import opened AudioGuarantee
  import opened RunGuarantee
  import opened BulkShare

  /** What the next event of the simulation does to the scheduler. */
  function InputOf(s: Setup, w: World): Option<Input>
    requires w.items != []
  {
    var t, w1 := w.items[0].when, Pull(w);
    match w.items[0].ev
    case AudioTick => Some(Offer(t, AudioTxn(s, w1)))
    case TextureBlock(_, _, _) => Some(Offer(t, TextureTxn(s, w1)))
    case WeightIssue(npc, size) => Some(Offer(t, WeightTxn(s, w1, npc, size)))
    case PredictorTick => None
    case QuantumDone(_) => Some(Fire)
  }

  predicate IsPacket(w: World) {
    w.items != [] && w.items[0].ev.AudioTick?
  }

  lemma SubmitBus(w: World, tx: Txn)
    ensures Submit(w, tx).bus == Accept(w.bus, tx)
  {
    hide Accept, Insert;
  }

  /** A step of the simulation is that input, or only the passage of time. */
  lemma StepBus(s: Setup, w: World, w': World)
    requires WorldInv(s, w) && Step(s, w, w') && w.bus.slot.Some?
    ensures match InputOf(s, w)
      case None => w'.bus == w.bus.(now := w.items[0].when)
      case Some(i) => w'.bus == React(w.bus, i) && (i.Fire? ==> w.bus.now <= w.bus.slot.value.fireAt)
    ensures Enabled(w.bus, Advance(w.items[0].when))
  {
    PullInv(s, w);
    var w1 := Pull(w);
    assert EventOk(s, w.bus, w.items[0]);
    hide WorldInv, Submit, Install, Insert, Accept, QuantumEnd, Tick, PostAll, Noted, BusOk, PredictorOk, KnownLevels;
    match w.items[0].ev
    case AudioTick => SubmitBus(w1.(ids := w1.ids.(audio := w1.ids.audio + 1)), AudioTxn(s, w1));
    case TextureBlock(_, _, _) => SubmitBus(w1.(ids := w1.ids.(texture := w1.ids.texture + 1)), TextureTxn(s, w1));
    case WeightIssue(npc, size) =>
      SubmitBus(w1.(ids := w1.ids.(weight := w1.ids.weight + 1)), WeightTxn(s, w1, npc, size));
    case PredictorTick =>
      var (p, rs) := Tick(s, w1.pred, w1.bus.now);
      PostAllBus(s, w1.(pred := p), rs);
    case QuantumDone(_) => InstallBus(w1, QuantumEnd(w1.bus));
  }

  lemma InstallBus(w: World, bus: Bus)
    ensures Install(w, bus).bus == bus
  {
  }

  /** In a fitting simulation every input conforms to the flow. */
  lemma InputConforms(s: Setup, f: Flow, w: World, last: Time)
    requires WorldInv(s, w) && w.items != [] && Fits(s, f) && Timely(f, w, last)
    ensures var i := InputOf(s, w);
      i.Some? && i.value.Offer? ==>
        && i.value.t == w.items[0].when && i.value.tx.issuedAt <= i.value.t && Conforms(f, last, i.value.t, i.value.tx)
        && (i.value.tx.source == Audio <==> IsPacket(w))
  {
    hide WorldInv, OnTime, Feasible;
    assert w.items[0] in w.items;
  }

  lemma StepAccounts(s: Setup, f: Flow, w: World, w': World, last: Time)
    requires Fits(s, f) && WorldInv(s, w) && Step(s, w, w') && Timely(f, w, last) && w.bus.slot.Some?
    ensures Accounts(f, w.bus, w'.bus, if IsPacket(w) then 1 else 0)
  {
    StepBus(s, w, w');
    InputConforms(s, f, w, last);
    assert Reachable(w.bus);
    hide WorldInv, Step, OnTime, Feasible, Accounts, React, Accept, Fits, Reachable, Conforms;
    match InputOf(s, w)
    case None =>
      OnTimeCommon(f, w.bus, last);
      AdvanceAccounts(f, w.bus, w.items[0].when);
    case Some(i) => ReactAccounts(f, w.bus, last, i);
  }

  /** Packets offered by the firings from `i` to `j`. */
  function PacketsIn(r: seq<World>, i: nat, j: nat): nat
    requires i <= j <= |r|
    decreases j
  {
    if i == j then 0 else PacketsIn(r, i, j - 1) + if IsPacket(r[j - 1]) then 1 else 0
  }

  /** Bulk traffic waits in every state of the window. */
  predicate BacklogIn(r: seq<World>, i: nat, j: nat)
    requires i <= j < |r|
  {
    forall k :: i <= k <= j ==> Backlogged(r[k].bus)
  }

  lemma BusyWhenBacklogged(s: Setup, w: World)
    requires WorldInv(s, w) && Backlogged(w.bus)
    ensures w.bus.slot.Some?
  {
  }

  /** From `lo` on, packets come a period apart. */
  predicate SpacedSince(f: Flow, lo: Time, last: Time, packets: nat) {
    last >= lo + f.period * packets
  }

  lemma OneMorePacket(f: Flow, lo: Time, last: Time, t: Time, packets: nat)
    requires SpacedSince(f, lo, last, packets) && last + f.period <= t
    ensures SpacedSince(f, lo, t, packets + 1)
  {
  }

  /** What holds along a window that opened in `b`, when the latest packet was at `last`. */
  ghost predicate Along(s: Setup, f: Flow, b: Bus, w: World, lo: Time, last: Time, packets: nat) {
    && Timely(f, w, last) && Accounts(f, b, w.bus, packets)
    && (packets > 0 ==> SpacedSince(f, lo, last, packets))
  }

  lemma {:induction false} WindowAlong(s: Setup, f: Flow, r: seq<World>, i: nat, j: nat, last0: Time)
    returns (last: Time)
    requires WellPosed(s) && Fits(s, f) && History(s, r) && i <= j < |r| && BacklogIn(r, i, j) && Timely(f, r[i], last0)
    ensures Along(s, f, r[i].bus, r[j], Max(last0, r[i].bus.now - f.period), last, PacketsIn(r, i, j))
    ensures last >= last0
    decreases j
  {
    hide WellPosed, Fits, Initial, Step, WorldInv, OnTime, Paced, SpacedSince, Accounts;
    if i == j {
      last := last0;
      OnTimeCommon(f, r[i].bus, last0);
      SelfAccounts(f, r[i].bus);
    } else {
      var l := WindowAlong(s, f, r, i, j - 1, last0);
      HistoryInv(s, r, j - 1);
      assert StepsAt(s, r, j - 1);
      BusyWhenBacklogged(s, r[j - 1]);
      last := NextAlong(s, f, r[i].bus, r[j - 1], r[j], last0, l, PacketsIn(r, i, j - 1));
    }
  }

  lemma NextAlong(s: Setup, f: Flow, b: Bus, w: World, w': World, last0: Time, l: Time, packets: nat)
    returns (last: Time)
    requires WellPosed(s) && Fits(s, f) && WorldInv(s, w) && Step(s, w, w') && w.bus.slot.Some? && l >= last0
    requires Along(s, f, b, w, Max(last0, b.now - f.period), l, packets)
    ensures Along(s, f, b, w', Max(last0, b.now - f.period), last, packets + if IsPacket(w) then 1 else 0)
    ensures last >= last0
  {
    hide WellPosed, Fits, Step, WorldInv, OnTime, Paced, SpacedSince, Accounts;
    last := NewLast(w, l);
    StepTimely(s, f, w, w', l);
    StepAccounts(s, f, w, w', l);
    AccountsTime(f, b, w.bus, packets);
    NextPacketLater(s, f, w, w', l);
    if IsPacket(w) && packets > 0 {
      OneMorePacket(f, Max(last0, b.now - f.period), l, w.items[0].when, packets);
    } else if IsPacket(w) {
      FirstLater(f, b.now, last0, l, w.items[0].when);
    }
    AccountsJoin(f, b, w.bus, w'.bus, packets, if IsPacket(w) then 1 else 0);
  }

  lemma NextPacketLater(s: Setup, f: Flow, w: World, w': World, last: Time)
    requires WorldInv(s, w) && Step(s, w, w') && Timely(f, w, last)
    ensures w.items != [] && w.bus.now <= w.items[0].when && (IsPacket(w) ==> last + f.period <= w.items[0].when)
  {
    PullInv(s, w);
    assert w.items[0] in w.items;
    hide WorldInv, OnTime;
  }

  /** The first packet of a window comes no sooner than the window opens, and a period after the previous one. */
  lemma FirstLater(f: Flow, open: Time, last0: Time, last: Time, t: Time)
    requires open <= t && last + f.period <= t && last >= last0
    ensures SpacedSince(f, Max(last0, open - f.period), t, 1)
  {
  }

  lemma AccountsTime(f: Flow, b: Bus, b': Bus, packets: nat)
    requires Accounts(f, b, b', packets)
    ensures b.now <= b'.now
  {
  }

  /** In every simulation with a feasible audio flow as the only critical source, over every window in which
      bulk traffic always waits, it gets at least `1 - service / period` of the bus, less a constant. */
  lemma BulkShareInRuns(s: Setup, f: Flow, r: seq<World>, i: nat, j: nat)
    requires WellPosed(s) && Fits(s, f) && History(s, r) && i <= j < |r| && BacklogIn(r, i, j)
    ensures f.period * (BusTime(r[j].bus, false) - BusTime(r[i].bus, false)) >=
      (f.period - f.service) * (r[j].bus.now - r[i].bus.now) - f.service * (f.worst + 3 * f.period)
  {
    hide WellPosed, Fits, Initial, Step, WorldInv, Paced, BusTime, Owed, BacklogIn;
    var last0 := RunTimely(s, f, r, i);
    var last := WindowAlong(s, f, r, i, j, last0);
    HistoryInv(s, r, i);
    HistoryInv(s, r, j);
    assert OnTime(f, r[i].bus, last0) && OnTime(f, r[j].bus, last);
    WindowShare(s, f, r[i], r[j], last0, last, PacketsIn(r, i, j));
  }

  lemma WindowShare(s: Setup, f: Flow, w: World, w': World, last0: Time, last: Time, packets: nat)
    requires WorldInv(s, w) && WorldInv(s, w') && OnTime(f, w.bus, last0)
    requires Along(s, f, w.bus, w', Max(last0, w.bus.now - f.period), last, packets)
    ensures f.period * (BusTime(w'.bus, false) - BusTime(w.bus, false)) >=
      (f.period - f.service) * (w'.bus.now - w.bus.now) - f.service * (f.worst + 3 * f.period)
  {
    hide WorldInv, OnTime, Accounts, BusTime, Owed, Paced, SpacedSince;
    OwedIn(s, f, w, last0);
    OwedIn(s, f, w', last);
    AccountsTime(f, w.bus, w'.bus, packets);
    PacketsFit(f, w.bus.now, w'.bus.now, last0, last, packets);
    Settlement(f, w.bus, w'.bus, packets);
  }

  lemma OwedIn(s: Setup, f: Flow, w: World, last: Time)
    requires WorldInv(s, w) && OnTime(f, w.bus, last)
    ensures w.bus.d.QosQ? && last <= w.bus.now
    ensures 0 <= Owed(f, w.bus) && f.period * Owed(f, w.bus) <= f.service * (f.worst + 2 * f.period)
  {
    LastPast(f, w.bus, last);
    assert Reachable(w.bus);
    hide WorldInv, OnTime, Owed, Reachable;
    ReachablePhysical(w.bus);
    OwedBounded(f, w.bus, last);
  }

  lemma PacketsFit(f: Flow, open: Time, close: Time, last0: Time, last: Time, packets: nat)
    requires packets > 0 ==> SpacedSince(f, Max(last0, open - f.period), last, packets)
    requires last <= close && open <= close
    ensures f.period * packets <= close - open + f.period
  {
    if packets == 0 {
      assert f.period * packets == 0;
    }
  }

  lemma LastPast(f: Flow, b: Bus, last: Time)
    requires OnTime(f, b, last)
    ensures b.d.QosQ? && last <= b.now
  {
  }
}
