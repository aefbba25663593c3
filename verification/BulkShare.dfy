/** What strict priority leaves to bulk traffic: a share of the bus exactly when a packet takes less than a
    period. The token bucket limits the bytes of the critical class, not the time it takes. */
module BulkShare {
  import opened Base
  import opened Configuration
  import opened Scheduling
  import opened Runs
  import opened Slicing
  import opened Bandwidth
  import opened TokenBucket
  import opened Operations
  import opened Lifecycle
  import opened AudioGuarantee

  // ---- Bus time by class ----

  predicate IsAudio(p: Pending) {
    p.tx.source == Audio
  }

  /** Bus time of the finished quanta, of audio or of everything else. */
  function Finished(log: Trace, audio: bool): int {
    match log
    case Empty => 0
    case Snoc(past, Served(p, _, us, _)) => Finished(past, audio) + if IsAudio(p) == audio then us else 0
    case Snoc(past, _) => Finished(past, audio)
  }

  function Running(b: Bus, audio: bool): int {
    if b.slot.Some? && IsAudio(b.slot.value.p) == audio then b.now - b.slot.value.startAt else 0
  }

  function BusTime(b: Bus, audio: bool): int {
    Finished(b.log, audio) + Running(b, audio)
  }

  /** Bus time that the packets in line, and the one on the bus, still need. */
  function Owed(f: Flow, b: Bus): int
    requires b.d.QosQ?
  {
    f.service * |b.d.crit| + if b.slot.Some? && IsAudio(b.slot.value.p) then b.slot.value.fireAt - b.now else 0
  }

  /** While the bus is busy all time is audio's or bulk's, and what audio takes or is owed grows only by the
      packets that arrive. */
  ghost predicate Accounts(f: Flow, b: Bus, b': Bus, packets: nat) {
    && b.d.QosQ? && b'.d.QosQ? && b.now <= b'.now
    && BusTime(b', true) + BusTime(b', false) == BusTime(b, true) + BusTime(b, false) + (b'.now - b.now)
    && BusTime(b', true) + Owed(f, b') == BusTime(b, true) + Owed(f, b) + f.service * packets
  }

  lemma AccountsJoin(f: Flow, b: Bus, b1: Bus, b2: Bus, m: nat, n: nat)
    requires Accounts(f, b, b1, m) && Accounts(f, b1, b2, n)
    ensures Accounts(f, b, b2, m + n)
  {
    hide BusTime, Owed;
    assert f.service * (m + n) == f.service * m + f.service * n;
  }

  lemma AdvanceAccounts(f: Flow, b: Bus, t: Time)
    requires b.d.QosQ? && b.slot.Some? && b.now <= t
    ensures Accounts(f, b, b.(now := t), 0)
  {
  }

  lemma OfferAccounts(f: Flow, b: Bus, last: Time, tx: Txn)
    requires b.d.QosQ? && b.slot.Some? && Conforms(f, last, b.now, tx)
    ensures Accounts(f, b, Accept(b, tx), if tx.source == Audio then 1 else 0)
  {
    var p := NewPending(b.cfg, b.kpi.issued, tx, b.now);
    assert Accept(b, tx) == Admit(b, tx);
    assert f.service * |b.d.crit + [p]| == f.service * |b.d.crit| + f.service;
  }

  lemma {:induction false} DropFinishes(b: Bus, audio: bool)
    requires b.slot.None?
    ensures Finished(DropExpired(b).log, audio) == Finished(b.log, audio)
    decreases |Queue(b.d, GuardedLane(b.d))|
  {
    if HeadExpired(b) {
      DropFinishes(DropHead(b), audio);
    }
  }

  lemma StartFinishes(b: Bus, audio: bool)
    requires b.slot.None?
    ensures Finished(StartIfIdle(b).log, audio) == Finished(b.log, audio)
  {
    DropFinishes(Do(b, Refill), audio);
    hide DropExpired;
  }

  /** Starting the next quantum takes no time, and moves the first packet from the line to the bus. */
  lemma StartAccounts(f: Flow, b: Bus, last: Time)
    requires Ready(f, b, last)
    ensures Accounts(f, b, StartIfIdle(b), 0)
  {
    StartFinishes(b, true);
    StartFinishes(b, false);
    hide StartIfIdle, Need, Level, Tuned, AudioLog, Finished;
    if b.d.crit == [] {
      hide Feasible;
      StartBulk(b);
    } else {
      var p := b.d.crit[0];
      PacketService(b.cfg, f, p);
      PickAffordable(f, b, last);
      StartCritical(b);
      assert f.service * |b.d.crit| == f.service * (|b.d.crit| - 1) + f.service;
    }
  }

  lemma PickAffordable(f: Flow, b: Bus, last: Time)
    requires Ready(f, b, last) && b.d.crit != []
    ensures Level(b) >= ChargeOf(b.cfg, CritLane, b.d.crit[0]) as real && !HeadExpired(b)
  {
    var p := b.d.crit[0];
    PacketService(b.cfg, f, p);
    NeedPick(f, |b.d.crit|, b.now - last, b.d.rate, Level(b), ChargeOf(b.cfg, CritLane, p));
  }

  lemma RetireAccounts(f: Flow, b: Bus, last: Time)
    requires OnTime(f, b, last) && SlotTimes(b) && Enabled(b, Finish)
    ensures Accounts(f, b, Retire(b), 0)
  {
    RetireAudio(f, b, last);
    RetireView(b);
    RetireRecords(b);
    hide OnTime, Retire, Finished;
  }

  lemma RetireRecords(b: Bus)
    requires b.slot.Some?
    ensures var s := b.slot.value;
      && Finished(Retire(b).log, true) == Finished(b.log, true) + (if IsAudio(s.p) then s.fireAt - s.startAt else 0)
      && Finished(Retire(b).log, false) == Finished(b.log, false) + (if IsAudio(s.p) then 0 else s.fireAt - s.startAt)
  {
  }

  lemma FireAccounts(f: Flow, b: Bus, last: Time)
    requires OnTime(f, b, last) && SlotTimes(b) && Enabled(b, Finish)
    ensures Accounts(f, b, QuantumEnd(b), 0)
  {
    RetireAccounts(f, b, last);
    RetireReady(f, b, last);
    StartAccounts(f, Retire(b), last);
    hide Accounts, OnTime, Ready;
    AccountsJoin(f, b, Retire(b), QuantumEnd(b), 0, 0);
  }

  // ---- Windows of a history ----

  predicate Backlogged(b: Bus) {
    b.d.QosQ? && (b.d.high != [] || b.d.norm != [])
  }

  /** Bulk traffic waits before and after each of the inputs. */
  ghost predicate AlwaysBacklogged(f: Flow, b: Bus, last: Time, inputs: seq<Input>)
    requires Traffic(f, b, last, inputs)
    decreases |inputs|
  {
    Backlogged(b) &&
    (inputs == [] ||
     match inputs[0]
     case Offer(t, tx) => AlwaysBacklogged(f, React(b, inputs[0]), LastAfter(last, t, tx), inputs[1..])
     case Fire => AlwaysBacklogged(f, React(b, inputs[0]), last, inputs[1..]))
  }

  /** Audio packets among the inputs. */
  function Packets(inputs: seq<Input>): nat {
    if inputs == [] then 0
    else Packets(inputs[1..]) + if inputs[0].Offer? && inputs[0].tx.source == Audio then 1 else 0
  }

  lemma ReactTime(b: Bus, i: Input)
    requires i.Fire? ==> b.slot.Some?
    ensures React(b, i).now == if i.Offer? then i.t else b.slot.value.fireAt
  {
    match i
    case Offer(t, tx) => StartTime(Admit(b.(now := t), tx));
    case Fire => StartTime(Retire(b.(now := b.slot.value.fireAt)));
  }

  lemma {:induction false} TimePasses(f: Flow, b: Bus, last: Time, inputs: seq<Input>)
    requires Traffic(f, b, last, inputs)
    ensures After(f, b, last, inputs).now >= b.now
    decreases |inputs|
  {
    hide React;
    if inputs != [] {
      ReactTime(b, inputs[0]);
      match inputs[0]
      case Offer(t, tx) => TimePasses(f, React(b, inputs[0]), LastAfter(last, t, tx), inputs[1..]);
      case Fire => TimePasses(f, React(b, inputs[0]), last, inputs[1..]);
    }
  }

  /** Packets are a period apart, and the first comes no sooner than the window opens. */
  lemma {:induction false} PacketsSpaced(f: Flow, b: Bus, last: Time, inputs: seq<Input>)
    requires Traffic(f, b, last, inputs)
    ensures Packets(inputs) > 0 ==>
      f.period * Packets(inputs) <= After(f, b, last, inputs).now - Max(last, b.now - f.period)
    decreases |inputs|
  {
    hide React;
    if inputs != [] {
      ReactTime(b, inputs[0]);
      match inputs[0]
      case Offer(t, tx) =>
        var b', last' := React(b, inputs[0]), LastAfter(last, t, tx);
        PacketsSpaced(f, b', last', inputs[1..]);
        TimePasses(f, b', last', inputs[1..]);
        if tx.source == Audio {
          assert f.period * Packets(inputs) == f.period * Packets(inputs[1..]) + f.period;
        }
      case Fire => PacketsSpaced(f, React(b, inputs[0]), last, inputs[1..]);
    }
  }

  lemma ReactAccounts(f: Flow, b: Bus, last: Time, i: Input)
    requires Reachable(b) && OnTime(f, b, last) && b.slot.Some?
    requires match i
             case Offer(t, tx) => Enabled(b, Advance(t)) && tx.issuedAt <= t && Conforms(f, last, t, tx)
             case Fire => b.now <= b.slot.value.fireAt
    ensures Accounts(f, b, React(b, i), if i.Offer? && i.tx.source == Audio then 1 else 0)
    ensures Settled(React(b, i))
  {
    hide Accounts;
    var t := if i.Offer? then i.t else b.slot.value.fireAt;
    var b1 := b.(now := t);
    ReachablePhysical(b);
    AdvanceAccounts(f, b, t);
    AdvanceOnTime(f, b, last, t);
    hide OnTime;
    match i
    case Offer(_, tx) =>
      OperationsSettle(b1, tx);
      OfferAccounts(f, b1, last, tx);
      AccountsJoin(f, b, b1, Accept(b1, tx), 0, if tx.source == Audio then 1 else 0);
    case Fire =>
      OperationsSettle(b1, b1.slot.value.p.tx);
      FireAccounts(f, b1, last);
      AccountsJoin(f, b, b1, QuantumEnd(b1), 0, 0);
  }

  lemma SelfAccounts(f: Flow, b: Bus)
    requires b.d.QosQ?
    ensures Accounts(f, b, b, 0)
  {
  }

  lemma {:induction false} WindowAccounts(f: Flow, b: Bus, last: Time, inputs: seq<Input>)
    requires Reachable(b) && OnTime(f, b, last) && Settled(b)
    requires Traffic(f, b, last, inputs) && AlwaysBacklogged(f, b, last, inputs)
    ensures Accounts(f, b, After(f, b, last, inputs), Packets(inputs))
    decreases |inputs|
  {
    hide Accounts, OnTime, React, Reachable;
    if inputs == [] {
      SelfAccounts(f, b);
    } else {
      var i, b' := inputs[0], React(b, inputs[0]);
      ReactAccounts(f, b, last, i);
      match i
      case Offer(t, tx) =>
        SubmitOnTime(f, b, last, t, tx);
        WindowAccounts(f, b', LastAfter(last, t, tx), inputs[1..]);
        AccountsJoin(f, b, b', After(f, b', LastAfter(last, t, tx), inputs[1..]),
                     if tx.source == Audio then 1 else 0, Packets(inputs[1..]));
      case Fire =>
        FireOnTime(f, b, last);
        WindowAccounts(f, b', last, inputs[1..]);
        AccountsJoin(f, b, b', After(f, b', last, inputs[1..]), 0, Packets(inputs[1..]));
    }
  }

  /** What audio is owed when a window opens comes from one longest quantum. */
  lemma OwedBounded(f: Flow, b: Bus, last: Time)
    requires OnTime(f, b, last) && SlotTimes(b)
    ensures 0 <= Owed(f, b) && f.period * Owed(f, b) <= f.service * (f.worst + 2 * f.period)
  {
    LineFits(f, b, last);
    SlotOwed(f, b, last);
    hide OnTime;
    OwedOf(f.service, f.period, f.worst, |b.d.crit|, Owed(f, b));
  }

  lemma OwedOf(service: pos, period: pos, worst: pos, n: nat, owed: int)
    requires owed <= service * n + service && (n - 1) * period <= worst
    ensures period * owed <= service * (worst + 2 * period)
  {
    MulMono(owed, service * n + service, period);
    MulMono((n - 1) * period + 2 * period, worst + 2 * period, service);
    assert period * (service * n + service) == service * ((n - 1) * period + 2 * period);
  }

  lemma SlotOwed(f: Flow, b: Bus, last: Time)
    requires OnTime(f, b, last) && SlotTimes(b)
    ensures b.slot.Some? && IsAudio(b.slot.value.p) ==> 0 <= b.slot.value.fireAt - b.now <= f.service
    ensures f.service * |b.d.crit| >= 0
  {
  }

  lemma ShareOf(service: pos, period: pos, worst: pos, len: nat, bulk: int, taken: int, owed: int, packets: nat)
    requires taken <= owed + service * packets && bulk == len - taken
    requires period * owed <= service * (worst + 2 * period) && period * packets <= len + period
    ensures period * bulk >= (period - service) * len - service * (worst + 3 * period)
  {
    MulMono(taken, owed + service * packets, period);
    MulMono(period * packets, len + period, service);
    assert period * (owed + service * packets) == period * owed + service * (period * packets);
    assert period * (len - taken) == period * len - period * taken;
    assert service * (worst + 2 * period) + service * (len + period) == service * len + service * (worst + 3 * period);
  }

  lemma Settlement(f: Flow, b: Bus, b': Bus, packets: nat)
    requires Accounts(f, b, b', packets) && f.period * packets <= b'.now - b.now + f.period
    requires 0 <= Owed(f, b') && f.period * Owed(f, b) <= f.service * (f.worst + 2 * f.period)
    ensures f.period * (BusTime(b', false) - BusTime(b, false)) >=
      (f.period - f.service) * (b'.now - b.now) - f.service * (f.worst + 3 * f.period)
  {
    hide BusTime, Owed;
    ShareOf(f.service, f.period, f.worst, b'.now - b.now, BusTime(b', false) - BusTime(b, false),
            BusTime(b', true) - BusTime(b, true), Owed(f, b), packets);
  }

  /** Under a feasible flow, bulk traffic that always waits gets at least the part of the bus that the packets
      leave, `1 - service / period`, less a constant, over every window and whatever else arrives. */
  lemma BulkGetsItsShare(f: Flow, b: Bus, last: Time, inputs: seq<Input>)
    requires Reachable(b) && OnTime(f, b, last) && Settled(b)
    requires Traffic(f, b, last, inputs) && AlwaysBacklogged(f, b, last, inputs)
    ensures var b' := After(f, b, last, inputs);
      f.period * (BusTime(b', false) - BusTime(b, false)) >=
        (f.period - f.service) * (b'.now - b.now) - f.service * (f.worst + 3 * f.period)
  {
    hide AlwaysBacklogged, Traffic, After, Reachable, OnTime, BusTime, Owed;
    var b', n := After(f, b, last, inputs), Packets(inputs);
    WindowAccounts(f, b, last, inputs);
    PacketsSpaced(f, b, last, inputs);
    TrafficOnTime(f, b, last, inputs);
    ReachablePhysical(b);
    ReachablePhysical(b');
    OwedBounded(f, b, last);
    var last' :| OnTime(f, b', last');
    OwedBounded(f, b', last');
    Settlement(f, b, b', n);
  }

  // ---- No share when a packet takes its whole period ----

  function NextPacket(f: Flow, t: Time): Txn {
    Txn(0, Audio, 0, Critical, f.packet, t, t + f.deadlineUs)
  }

  /** A packet is on the bus until the next one is due at the latest, and another one waits. */
  ghost predicate Saturated(f: Flow, b: Bus, last: Time) {
    && Reachable(b) && OnTime(f, b, last) && b.slot.Some? && IsAudio(b.slot.value.p) && b.d.crit != []
    && b.now <= b.slot.value.fireAt && last <= b.slot.value.fireAt <= last + f.period
  }

  /** Bulk traffic waits as before, and has got no bus time. */
  predicate BulkUntouched(b: Bus, b': Bus) {
    && b.d.QosQ? && b'.d.QosQ? && b'.d.high == b.d.high && b'.d.norm == b.d.norm
    && BusTime(b', false) == BusTime(b, false)
  }

  lemma UntouchedJoin(b: Bus, b1: Bus, b2: Bus)
    requires BulkUntouched(b, b1) && BulkUntouched(b1, b2)
    ensures BulkUntouched(b, b2)
  {
  }

  /** At the end of a quantum that completes, the first packet of the line is next, and bulk is not touched. */
  lemma NextInLine(f: Flow, b: Bus, last: Time)
    requires OnTime(f, b, last) && SlotTimes(b) && Enabled(b, Finish) && !Requeues(b) && b.d.crit != []
    ensures var b' := QuantumEnd(b);
      && b'.d.QosQ? && b'.d.crit == b.d.crit[1..] && b'.d.high == b.d.high && b'.d.norm == b.d.norm
      && b'.slot == Some(Slot(b.d.crit[0].(started := true), b.now, b.now + f.service)) && b'.now == b.now
      && IsAudio(b.d.crit[0])
  {
    hide Retire, OnTime, Common, StartIfIdle, Level, SlotTimes, Ready, Requeues, ServiceUs, HeadExpired, Bucket,
      ChargeOf;
    var b1 := Retire(b);
    RetireReady(f, b, last);
    RetireKeepsQueues(b);
    OnTimeCommon(f, b, last);
    HeadOfLine(f, b1, last);
    StartCritical(b1);
  }

  lemma RetireKeepsQueues(b: Bus)
    requires b.slot.Some? && !Requeues(b)
    ensures Retire(b).d == b.d && Retire(b).now == b.now && Retire(b).slot.None? && Retire(b).cfg == b.cfg
  {
  }

  /** The first packet of the line can be paid for, is not overdue, and takes a service time. */
  lemma HeadOfLine(f: Flow, b: Bus, last: Time)
    requires Ready(f, b, last) && b.d.crit != []
    ensures b.slot.None? && Bucket(b) && !HeadExpired(b) && Level(b) >= ChargeOf(b.cfg, CritLane, b.d.crit[0]) as real
    ensures ServiceUs(b.d.crit[0]) == f.service && IsAudio(b.d.crit[0])
  {
    PickAffordable(f, b, last);
    PacketService(b.cfg, f, b.d.crit[0]);
  }

  lemma PacketCompletes(f: Flow, b: Bus, last: Time)
    requires OnTime(f, b, last) && b.slot.Some? && IsAudio(b.slot.value.p)
    ensures !Requeues(b)
  {
  }

  /** The quantum ends, and then the packet of the next period arrives. */
  ghost predicate PeriodPasses(f: Flow, b: Bus, last: Time, b': Bus) {
    && b.slot.Some? && b.now <= b.slot.value.fireAt
    && var t, b1 := last + f.period, React(b, Fire);
       Enabled(b1, Advance(t)) && Conforms(f, last, t, NextPacket(f, t)) && b' == React(b1, Offer(t, NextPacket(f, t)))
  }

  /** The first half of a period of saturation: a packet ends and the next begins. */
  lemma PacketEnds(f: Flow, b: Bus, last: Time)
    requires Saturated(f, b, last) && f.service == f.period
    ensures var b1, t := React(b, Fire), b.slot.value.fireAt;
      && BulkUntouched(b, b1) && Reachable(b1) && OnTime(f, b1, last) && b1.now == t
      && b1.slot.Some? && IsAudio(b1.slot.value.p) && b1.slot.value.fireAt == t + f.period
  {
    hide Reachable;
    var b0 := b.(now := b.slot.value.fireAt);
    ReachablePhysical(b);
    AdvanceOnTime(f, b, last, b0.now);
    PacketCompletes(f, b0, last);
    NextInLine(f, b0, last);
    FireOnTime(f, b, last);
    RetireRecords(b0);
    StartFinishes(Retire(b0), false);
    hide OnTime, QuantumEnd, Finished;
  }

  /** The second half: another packet arrives while the bus is busy with audio. */
  lemma PacketComes(f: Flow, b: Bus, last: Time)
    requires Reachable(b) && OnTime(f, b, last) && b.slot.Some? && IsAudio(b.slot.value.p)
    requires last <= b.now <= last + f.period && b.slot.value.fireAt == b.now + f.period
    ensures var t := last + f.period;
      var b' := React(b, Offer(t, NextPacket(f, t)));
      && Enabled(b, Advance(t)) && Conforms(f, last, t, NextPacket(f, t))
      && Saturated(f, b', t) && BulkUntouched(b, b') && b'.now == t
  {
    hide Reachable;
    var t := last + f.period;
    OnTimeCommon(f, b, last);
    SubmitOnTime(f, b, last, t, NextPacket(f, t));
    hide OnTime, Finished, NewPending;
    assert React(b, Offer(t, NextPacket(f, t))) == Admit(b.(now := t), NextPacket(f, t));
  }

  lemma DueWithinPeriod(f: Flow, b: Bus, last: Time)
    requires Saturated(f, b, last)
    ensures b.slot.Some? && b.now <= b.slot.value.fireAt && last <= b.slot.value.fireAt <= last + f.period
  {
  }

  /** One period of saturation, in which bulk gets nothing. */
  lemma OnePeriod(f: Flow, b: Bus, last: Time) returns (b': Bus)
    requires Saturated(f, b, last) && f.service == f.period
    ensures PeriodPasses(f, b, last, b') && Saturated(f, b', last + f.period) && BulkUntouched(b, b')
    ensures b'.now == last + f.period
  {
    hide Saturated, OnTime, Reachable, React, BulkUntouched, Conforms;
    DueWithinPeriod(f, b, last);
    PacketEnds(f, b, last);
    var b1 := React(b, Fire);
    PacketComes(f, b1, last);
    b' := React(b1, Offer(last + f.period, NextPacket(f, last + f.period)));
    UntouchedJoin(b, b1, b');
  }

  // ---- Histories put together ----

  /** The inputs are a history from `b`, and it ends in `b'`. */
  ghost predicate Reaches(f: Flow, b: Bus, last: Time, inputs: seq<Input>, b': Bus) {
    Traffic(f, b, last, inputs) && After(f, b, last, inputs) == b'
  }

  /** A history goes on with one more input in front. */
  lemma Prepend(f: Flow, b: Bus, last: Time, i: Input, last': Time, inputs: seq<Input>, b': Bus)
    requires i.Fire? ==> b.slot.Some? && b.now <= b.slot.value.fireAt && last' == last
    requires i.Offer? ==>
      && Enabled(b, Advance(i.t)) && i.tx.issuedAt <= i.t
      && Conforms(f, last, i.t, i.tx) && last' == LastAfter(last, i.t, i.tx)
    requires Reaches(f, React(b, i), last', inputs, b')
    ensures Reaches(f, b, last, [i] + inputs, b')
  {
    assert ([i] + inputs)[1..] == inputs;
    hide React, Conforms;
  }

  function PeriodInputs(f: Flow, last: Time, rest: seq<Input>): seq<Input> {
    [Input.Fire] + ([Offer(last + f.period, NextPacket(f, last + f.period))] + rest)
  }

  /** A quantum end and a packet in front of a history. */
  lemma PrependPeriod(f: Flow, b: Bus, last: Time, b1: Bus, rest: seq<Input>, b': Bus)
    requires PeriodPasses(f, b, last, b1) && Reaches(f, b1, last + f.period, rest, b')
    ensures Reaches(f, b, last, PeriodInputs(f, last, rest), b')
  {
    hide React, Reaches, Conforms;
    var offer := Offer(last + f.period, NextPacket(f, last + f.period));
    Prepend(f, React(b, Fire), last, offer, last + f.period, rest, b');
    Prepend(f, b, last, Fire, last, [offer] + rest, b');
  }

  /** When a packet takes its whole period the saturation goes on for ever, and bulk never gets the bus. */
  lemma {:induction false} BulkStarves(f: Flow, b: Bus, last: Time, n: nat) returns (inputs: seq<Input>, b': Bus)
    requires Saturated(f, b, last) && f.service == f.period
    ensures Reaches(f, b, last, inputs, b') && BulkUntouched(b, b')
    ensures b'.now == if n == 0 then b.now else PeriodsLater(f, last, n)
    decreases n
  {
    hide Saturated, PeriodPasses, BulkUntouched, Reaches, PeriodInputs;
    if n == 0 {
      NothingYet(f, b, last);
      inputs, b' := [], b;
    } else {
      var b1 := OnePeriod(f, b, last);
      LaterStep(f, last, n);
      hide PeriodsLater;
      var rest;
      rest, b' := BulkStarves(f, b1, last + f.period, n - 1);
      UntouchedJoin(b, b1, b');
      PrependPeriod(f, b, last, b1, rest, b');
      inputs := PeriodInputs(f, last, rest);
    }
  }

  function PeriodsLater(f: Flow, t: Time, n: nat): Time {
    t + n * f.period
  }

  lemma LaterStep(f: Flow, t: Time, n: pos)
    ensures PeriodsLater(f, t + f.period, n - 1) == PeriodsLater(f, t, n)
    ensures PeriodsLater(f, t, 1) == t + f.period
  {
  }

  lemma NothingYet(f: Flow, b: Bus, last: Time)
    requires Saturated(f, b, last)
    ensures Reaches(f, b, last, [], b) && BulkUntouched(b, b)
  {
  }

  // ---- Saturation from the start ----

  const TINY := Txn(1, Texture, 0, Normal, 1, 0, 0)

  lemma StartNormal(b: Bus)
    requires b.slot.None? && b.d.QosQ? && Bucket(b) && b.d.crit == [] && b.d.high == [] && |b.d.norm| == 1
    ensures var b', p := StartIfIdle(b), b.d.norm[0];
      && b'.d.QosQ? && b'.d.crit == [] && b'.d.high == [] && b'.d.norm == [] && b'.kpi == b.kpi
      && b'.slot == Some(Slot(p.(started := true), b.now, b.now + ServiceUs(p))) && b'.now == b.now && b'.cfg == b.cfg
  {
    PrepareWithoutDrop(b);
    hide Prepare, ServiceUs, ChargeOf;
  }

  lemma FreshAdmits(c: Config)
    requires c.policy == Qos
    ensures var b := Admit(Fresh(c), TINY);
      && b.slot.None? && b.d.QosQ? && Bucket(b) && b.d.crit == [] && b.d.high == []
      && b.d.norm == [NewPending(c, 0, TINY, 0)] && b.now == 0 && b.cfg == c && b.kpi.issued == 1
      && Finished(b.log, false) == 0
  {
    LeadsSelf(Fresh(c));
    ReachableBucket(Fresh(c));
    hide TokenCapacity, RefillRate, NewPending;
  }

  /** One byte takes one microsecond. */
  lemma TinyService(c: Config, uid: nat)
    ensures var p := NewPending(c, uid, TINY, 0); ServiceUs(p) == 1 && ServedBytes(p) == 1 && p.tx == TINY
  {
  }

  /** A bulk transaction of one byte is on the bus for one microsecond from the start, nothing waits. */
  lemma FirstBulk(c: Config)
    requires c.policy == Qos
    ensures var b := React(Fresh(c), Offer(0, TINY));
      && b.d.QosQ? && b.d.crit == [] && b.d.high == [] && b.d.norm == []
      && b.now == 0 && b.cfg == c && b.kpi.issued == 1
      && b.slot == Some(Slot(NewPending(c, 0, TINY, 0).(started := true), 0, 1)) && Finished(b.log, false) == 0
  {
    var b := Admit(Fresh(c), TINY);
    assert Fresh(c).(now := 0) == Fresh(c);
    FreshAdmits(c);
    TinyService(c, 0);
    hide Fresh, NewPending, Admit, ServiceUs, StartIfIdle, Bucket;
    StartNormal(b);
    StartFinishes(b, false);
  }

  /** An offer to a busy bus only joins its queue. */
  lemma OfferBusy(f: Flow, b: Bus, last: Time, t: Time, tx: Txn)
    requires b.d.QosQ? && b.slot.Some? && tx.qos != High
    ensures var b', p := React(b, Offer(t, tx)), NewPending(b.cfg, b.kpi.issued, tx, t);
      && b'.d.QosQ? && b'.slot == b.slot && b'.now == t && b'.cfg == b.cfg && b'.d.high == b.d.high
      && b'.d.crit == (if tx.qos == Critical then b.d.crit + [p] else b.d.crit)
      && b'.d.norm == (if tx.qos == Critical then b.d.norm else b.d.norm + [p])
      && b'.kpi.issued == b.kpi.issued + 1 && Finished(b'.log, false) == Finished(b.log, false)
  {
    assert React(b, Offer(t, tx)) == Admit(b.(now := t), tx);
    hide NewPending;
  }

  /** The end of the first bulk quantum: the packet is next. */
  lemma FirstPacket(f: Flow, b: Bus, last: Time)
    requires Reachable(b) && OnTime(f, b, last) && b.now <= 1 && |b.d.crit| == 1
    requires b.slot == Some(Slot(NewPending(b.cfg, 0, TINY, 0).(started := true), 0, 1))
    ensures var b' := React(b, Fire);
      && b'.d.QosQ? && b'.d.crit == [] && b'.d.high == b.d.high && b'.d.norm == b.d.norm && b'.now == 1
      && b'.slot == Some(Slot(b.d.crit[0].(started := true), 1, 1 + f.service)) && IsAudio(b.d.crit[0])
      && Finished(b'.log, false) == Finished(b.log, false) + 1
  {
    var b1 := b.(now := 1);
    TinyService(b.cfg, 0);
    ReachablePhysical(b);
    AdvanceOnTime(f, b, last, 1);
    NextInLine(f, b1, last);
    RetireRecords(b1);
    StartFinishes(Retire(b1), false);
    hide OnTime, Retire, StartIfIdle, Finished, NewPending, Reachable;
  }

  lemma NextConforms(f: Flow, last: Time)
    ensures Conforms(f, last, last + f.period, NextPacket(f, last + f.period))
    ensures Conforms(f, last, 0, TINY)
  {
  }

  /** A first bulk transaction on the bus, a second one waiting. */
  ghost predicate TwoBulk(c: Config, f: Flow, b: Bus) {
    && Reachable(b) && OnTime(f, b, 0 - f.period) && b.cfg == c && b.now == 0
    && b.d.QosQ? && b.d.crit == [] && b.d.norm == [NewPending(c, 1, TINY, 0)] && Finished(b.log, false) == 0
    && b.slot == Some(Slot(NewPending(c, 0, TINY, 0).(started := true), 0, 1))
  }

  lemma FeasiblePolicy(c: Config, f: Flow)
    requires Feasible(c, f)
    ensures c.policy == Qos
  {
  }

  lemma OneOffer(c: Config, f: Flow)
    requires Feasible(c, f)
    ensures var b := React(Fresh(c), Offer(0, TINY)); Reachable(b) && OnTime(f, b, 0 - f.period)
  {
    hide Feasible, OnTime, Reachable, React, Conforms;
    FreshOnTime(c, f);
    NextConforms(f, 0 - f.period);
    SubmitOnTime(f, Fresh(c), 0 - f.period, 0, TINY);
  }

  lemma TwoOffers(c: Config, f: Flow)
    requires Feasible(c, f)
    ensures var b1 := React(Fresh(c), Offer(0, TINY));
      b1.now == 0 && b1.slot.Some? && b1.slot.value.fireAt == 1 && TwoBulk(c, f, React(b1, Offer(0, TINY)))
  {
    FeasiblePolicy(c, f);
    hide Feasible, OnTime, Reachable, React, NewPending, Finished, Conforms;
    OneOffer(c, f);
    FirstBulk(c);
    NextConforms(f, 0 - f.period);
    var b1 := React(Fresh(c), Offer(0, TINY));
    SubmitOnTime(f, b1, 0 - f.period, 0, TINY);
    OfferBusy(f, b1, 0 - f.period, 0, TINY);
  }

  /** A packet arrives, the first bulk transaction completes, the packet is next. */
  lemma PacketTakesOver(c: Config, f: Flow, b: Bus)
    requires TwoBulk(c, f, b) && f.service == f.period
    ensures var b1 := React(b, Offer(0, NextPacket(f, 0)));
      b1.now == 0 && b1.slot.Some? && b1.slot.value.fireAt == 1
      && var b2 := React(b1, Fire);
         && Reachable(b2) && OnTime(f, b2, 0) && b2.d.QosQ? && b2.d.norm == b.d.norm && b2.now == 1
         && b2.slot.Some? && IsAudio(b2.slot.value.p) && b2.slot.value.fireAt == 1 + f.period && BusTime(b2, false) == 1
  {
    hide OnTime, Reachable, React, NewPending, Conforms, Finished;
    NextConforms(f, 0 - f.period);
    var tx := NextPacket(f, 0);
    SubmitOnTime(f, b, 0 - f.period, 0, tx);
    OfferBusy(f, b, 0 - f.period, 0, tx);
    var b1 := React(b, Offer(0, tx));
    FirstPacket(f, b1, 0);
    FireOnTime(f, b1, 0);
  }

  lemma PacketsForEver(c: Config, f: Flow, b: Bus, n: pos) returns (inputs: seq<Input>, b': Bus)
    requires TwoBulk(c, f, b) && f.service == f.period
    ensures Reaches(f, b, 0 - f.period, inputs, b') && BulkOnce(c, b') && b'.now == PeriodsLater(f, f.period, n)
  {
    hide OnTime, Reachable, React, NewPending, Conforms, Reaches, BusTime, PeriodsLater, Saturated, TwoBulk;
    var p0, p1 := Offer(0, NextPacket(f, 0)), Offer(f.period, NextPacket(f, f.period));
    PacketTakesOver(c, f, b);
    BulkNow(c, f, b);
    var b1 := React(b, p0);
    var b2 := React(b1, Fire);
    PacketComes(f, b2, 0);
    var rest;
    rest, b' := BulkStarves(f, React(b2, p1), f.period, n);
    NextConforms(f, 0 - f.period);
    NextConforms(f, 0);
    Prepend(f, b2, 0, p1, f.period, rest, b');
    Prepend(f, b1, 0, Fire, 0, [p1] + rest, b');
    inputs := [p0] + ([Input.Fire] + ([p1] + rest));
    Prepend(f, b, 0 - f.period, p0, 0, [Input.Fire] + ([p1] + rest), b');
  }

  /** The first bulk transaction has had its microsecond, the second one, as old, still waits. */
  predicate BulkOnce(c: Config, b: Bus) {
    b.d.QosQ? && b.d.norm == [NewPending(c, 1, TINY, 0)] && BusTime(b, false) == 1
  }

  lemma BulkNow(c: Config, f: Flow, b: Bus)
    requires TwoBulk(c, f, b)
    ensures b.now == 0 && b.d.QosQ? && b.d.norm == [NewPending(c, 1, TINY, 0)] && b.slot.Some?
      && b.slot.value.fireAt == 1
  {
  }

  lemma FreshIdle(c: Config)
    ensures Fresh(c).now == 0 && Fresh(c).slot.None?
  {
  }

  /** With a flow whose packets take a whole period, under any configuration it is feasible for, there are
      histories of any length in which a bulk transaction that came at the start is never served. */
  lemma BulkNeverServed(c: Config, f: Flow, n: pos) returns (inputs: seq<Input>, b': Bus)
    requires Feasible(c, f) && f.service == f.period
    ensures Reaches(f, Fresh(c), 0 - f.period, inputs, b') && BulkOnce(c, b') && b'.now == PeriodsLater(f, f.period, n)
  {
    hide Feasible, React, Conforms, Reaches, BulkOnce, Fresh, PeriodsLater, OnTime, NewPending;
    TwoOffers(c, f);
    FreshIdle(c);
    var b := React(React(Fresh(c), Offer(0, TINY)), Offer(0, TINY));
    var rest;
    rest, b' := PacketsForEver(c, f, b, n);
    NextConforms(f, 0 - f.period);
    Prepend(f, React(Fresh(c), Offer(0, TINY)), 0 - f.period, Offer(0, TINY), 0 - f.period, rest, b');
    Prepend(f, Fresh(c), 0 - f.period, Offer(0, TINY), 0 - f.period, [Offer(0, TINY)] + rest, b');
    inputs := [Offer(0, TINY)] + ([Offer(0, TINY)] + rest);
  }
}
