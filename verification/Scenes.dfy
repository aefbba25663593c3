/** Two scenes that show what the intent predictor gets wrong: an interaction that is ignored, and a pin that
    is never taken back. */
module Scenes {
  import opened Base
  import opened Configuration
  import opened NpuCaches
  import opened Prefetching
  import opened SlotSafety

  lemma {:induction false} ReleaseNothing(m: Entries, slots: seq<CoreSlot>, t: int, i: nat)
    requires forall j :: i <= j < |slots| && slots[j].occupied ==> t < slots[j].endsAt
    ensures ReleaseFrom(m, slots, t, i) == (m, slots)
    decreases |slots| - i
  {
    if i < |slots| {
      ReleaseNothing(m, slots, t, i + 1);
    }
  }

  lemma OneNpc(ip: IntentConfig, sc: Scene, st: Intent, now: Time)
    requires |sc.npcs| == 1
    ensures var (st', lod) := VisitNpc(ip, sc, ReleaseExpired(st, now / 1000), sc.npcs[0], now);
      IntentTick(ip, sc, st, now) == (st', if lod.Some? then [Request(sc.npcs[0].id, lod.value)] else [])
  {
    hide VisitNpc, ReleaseExpired;
    var st1 := ReleaseExpired(st, now / 1000);
    assert VisitNpcs(ip, sc, st1, 0, now) == (st1, []);
    var (st2, lod) := VisitNpc(ip, sc, st1, sc.npcs[0], now);
    assert lod.Some? ==> [] + [Request(sc.npcs[0].id, lod.value)] == [Request(sc.npcs[0].id, lod.value)];
    assert VisitNpcs(ip, sc, st1, 1, now) == (st2, if lod.Some? then [Request(sc.npcs[0].id, lod.value)] else []);
  }

  const HERE := View(0.0, true, false)

  /** One NPC that stays where it is. */
  function OneNpcScene(quest: bool, ixs: seq<Interaction>): Scene {
    Scene(1000, [Npc(1, quest)], ixs, (_, _) => HERE, _ => false)
  }

  // ---- The ignored interaction ----

  const FIRST := Interaction(0, 1, 100)
  const SECOND := Interaction(256, 1, 100)

  lemma NoWeights(st: Intent, npc: nat, d: real, endsAt: int, now: Time)
    requires st.entries == map[]
    ensures HandleInteraction(st, npc, d, 0, endsAt, now) ==
      st.(kpi := st.kpi.(degradations := st.kpi.degradations + 1, noWeight := st.kpi.noWeight + 1,
                         misses := st.kpi.misses + 1))
  {
    BestResidentFacts(st.entries, npc, 0);
  }

  /** Two interactions of one NPC start 256 ms apart, and a tick meets each of them: the first is counted as a
      miss, the second is not handled and not counted at all. */
  lemma CollisionReached(ip: IntentConfig, cores: nat)
    ensures var sc := OneNpcScene(false, [FIRST, SECOND]);
      var st1 := IntentTick(ip, sc, FreshIntent(cores), 0).0;
      var st2 := IntentTick(ip, sc, st1, 256000).0;
      && ActiveInteraction(sc.interactions, 1, 0) == Some(FIRST)
      && ActiveInteraction(sc.interactions, 1, 256) == Some(SECOND)
      && st1.handled == {Key(1, FIRST.atMs)} && st1.kpi.misses == 1
      && st2.handled == st1.handled && st2.kpi == st1.kpi
  {
    var ixs := [FIRST, SECOND];
    var sc, st0 := OneNpcScene(false, ixs), FreshIntent(cores);
    assert ixs[1..] == [SECOND] && ActiveInteraction(ixs, 1, 0) == Some(FIRST);
    assert ActiveInteraction([SECOND], 1, 256) == Some(SECOND);
    OneNpc(ip, sc, st0, 0);
    ReleaseNothing(st0.entries, st0.slots, 0, 0);
    FirstTick(ip, sc, st0);
    var st1 := IntentTick(ip, sc, st0, 0).0;
    OneNpc(ip, sc, st1, 256000);
    ReleaseNothing(st1.entries, st1.slots, 256, 0);
    KeyInjective(1, FIRST.atMs, 1, SECOND.atMs);
    hide IntentTick, HandleInteraction, ReleaseFrom;
  }

  lemma FirstTick(ip: IntentConfig, sc: Scene, st: Intent)
    requires sc == OneNpcScene(false, sc.interactions) && ActiveInteraction(sc.interactions, 1, 0) == Some(FIRST)
    requires st.entries == map[] && st.handled == {}
    ensures var st' := VisitNpc(ip, sc, st, sc.npcs[0], 0).0;
      && st'.handled == {Key(1, FIRST.atMs)} && st'.kpi.misses == st.kpi.misses + 1
      && st'.entries == map[] && st'.slots == st.slots
  {
    var lod := IntentLod(ip, false, true, false, HERE);
    var st1 := st.(lastLod := st.lastLod[1 := lod], handled := {Key(1, FIRST.atMs)});
    NoWeights(st1, 1, 0.0, EndsAt(FIRST), 0);
    hide HandleInteraction, Key, ActiveInteraction;
  }

  // ---- The leaked pin ----

  const EARLY := Interaction(10, 1, 15)
  const LATE := Interaction(20, 1, 10)

  /** A quest NPC with two overlapping interactions, the later one listed first. */
  function LeakScene(): Scene {
    OneNpcScene(true, [LATE, EARLY])
  }

  lemma LeakActive()
    ensures ActiveInteraction(LeakScene().interactions, 1, 0) == None
    ensures ActiveInteraction(LeakScene().interactions, 1, 30) == None
    ensures ActiveInteraction(LeakScene().interactions, 1, 10) == Some(EARLY)
    ensures ActiveInteraction(LeakScene().interactions, 1, 20) == Some(LATE)
  {
    assert [LATE, EARLY][1..] == [EARLY] && [EARLY][1..] == [];
    assert ActiveInteraction([EARLY], 1, 0) == ActiveInteraction([], 1, 0);
    assert ActiveInteraction([EARLY], 1, 30) == ActiveInteraction([], 1, 30);
    assert ActiveInteraction([EARLY], 1, 10) == Some(EARLY);
  }

  predicate Pins(st: Intent, n: nat) {
    CK(1, 0) in st.entries && st.entries[CK(1, 0)].pins == n
  }

  /** Before anything is going on, the tick fetches the weights of the quest NPC. */
  lemma LeakFetch(ip: IntentConfig)
    ensures var (st, rs) := IntentTick(ip, LeakScene(), FreshIntent(1), 0);
      rs == [Request(1, 0)] && st.entries == map[] && st.slots == NoSlots(1) && st.handled == {}
  {
    var sc, st := LeakScene(), FreshIntent(1);
    OneNpc(ip, sc, st, 0);
    ReleaseNothing(st.entries, st.slots, 0, 0);
    LeakActive();
    hide ActiveInteraction, IntentTick;
  }

  /** The weights arrive in an empty cache that can hold them. */
  lemma LeakArrival(sizes: LodSizes, capacity: Word, sc: Scene, st: Intent, d: real, now: Time, st': Intent)
    requires st.entries == map[] && Encode(sizes, 0) <= capacity
    requires IntentComplete(sizes, capacity, sc, st, 1, 0, d, now, st')
    ensures Pins(st', 0) && st'.slots == st.slots && st'.handled == st.handled
  {
    var e := CacheEntry(CK(1, 0), Encode(sizes, 0), now, d, 0);
    var r :| Admits(capacity, st.entries, e, st'.entries, r);
    var t :| SortedOut(st.entries, t) && r.evicted <= t && (!r.accepted ==> r.evicted == t);
    assert forall i :: 0 <= i < |t| ==> t[i] in st.entries;
    assert st.entries - NpuCaches.Keys(r.evicted) == map[];
    hide Encode, CK;
  }

  /** Such an arrival there is. */
  lemma ArrivalExists(sizes: LodSizes, capacity: Word, sc: Scene, st: Intent, d: real, now: Time)
    requires st.entries == map[] && Encode(sizes, 0) <= capacity
    ensures exists st' :: IntentComplete(sizes, capacity, sc, st, 1, 0, d, now, st')
  {
    hide Encode, CK, Key;
    var e := CacheEntry(CK(1, 0), Encode(sizes, 0), now, d, 0);
    var r := Admission(true, []);
    assert SortedOut(st.entries, []) && st.entries - NpuCaches.Keys([]) == map[];
    assert Makes(capacity, st.entries, e, map[e.key := e], r);
    var st' := st.(inFlight := st.inFlight - {Key(1, 0)}, entries := map[e.key := e],
                   kpi := st.kpi.(evictions := st.kpi.evictions + 0, refusals := st.kpi.refusals + 0));
    assert Admits(capacity, st.entries, e, st'.entries, r);
    assert IntentComplete(sizes, capacity, sc, st, 1, 0, d, now, st');
  }

  function LeakEnd(s: CoreSlot, ix: Interaction): int {
    if s.occupied then Max(s.endsAt, EndsAt(ix)) else EndsAt(ix)
  }

  /** A visit to the NPC while its weights are resident. */
  lemma LeakVisit(ip: IntentConfig, st: Intent, now: Time, pins: nat)
    requires Pins(st, pins) && |st.slots| == 1 && (st.slots[0].occupied ==> st.slots[0].npc == 1)
    ensures var ix := ActiveInteraction(LeakScene().interactions, 1, now / 1000);
      var st' := VisitNpc(ip, LeakScene(), st, LeakScene().npcs[0], now).0;
      if ix.Some? && Key(1, ix.value.atMs) !in st.handled then
        && Pins(st', pins + 1) && st'.handled == st.handled + {Key(1, ix.value.atMs)}
        && st'.slots == [CoreSlot(true, 1, 0, LeakEnd(st.slots[0], ix.value))]
      else Pins(st', pins) && st'.handled == st.handled && st'.slots == st.slots
  {
    hide ActiveInteraction, Key, ReleaseFrom;
    var lod := 0;
    var st1 := st.(lastLod := st.lastLod[1 := lod], entries := Touched(st.entries, CK(1, 0), now, 0.0));
    BestResidentFacts(st1.entries, 1, 0);
    SlotOfFacts(st.slots, 1, 0);
    FreeSlotFacts(st.slots, 0);
    hide BestResident, SlotOf, FreeSlot;
  }

  /** A tick that meets a new interaction, no slot having expired. */
  lemma LeakServe(ip: IntentConfig, st: Intent, now: Time, pins: nat, ix: Interaction)
    requires Pins(st, pins) && |st.slots| == 1
    requires st.slots[0].occupied ==> st.slots[0].npc == 1 && now / 1000 < st.slots[0].endsAt
    requires ActiveInteraction(LeakScene().interactions, 1, now / 1000) == Some(ix) && Key(1, ix.atMs) !in st.handled
    ensures var st' := IntentTick(ip, LeakScene(), st, now).0;
      && Pins(st', pins + 1) && st'.handled == st.handled + {Key(1, ix.atMs)}
      && st'.slots == [CoreSlot(true, 1, 0, LeakEnd(st.slots[0], ix))]
  {
    OneNpc(ip, LeakScene(), st, now);
    ReleaseNothing(st.entries, st.slots, now / 1000, 0);
    LeakVisit(ip, st, now, pins);
    hide VisitNpc, IntentTick, ActiveInteraction, Key, ReleaseFrom;
  }

  /** The tick that frees the slot. */
  lemma LeakRelease(ip: IntentConfig, st: Intent, now: Time, pins: nat)
    requires Pins(st, pins) && pins > 0 && |st.slots| == 1 && st.slots[0].occupied
    requires st.slots[0].npc == 1 && st.slots[0].lod == 0 && now / 1000 >= st.slots[0].endsAt
    requires ActiveInteraction(LeakScene().interactions, 1, now / 1000) == None
    ensures var st' := IntentTick(ip, LeakScene(), st, now).0;
      Pins(st', pins - 1) && st'.slots == [st.slots[0].(occupied := false)]
  {
    OneNpc(ip, LeakScene(), st, now);
    ReleaseOneLeft(st.entries, st.slots, now / 1000);
    LeakVisit(ip, ReleaseExpired(st, now / 1000), now, pins - 1);
    hide VisitNpc, IntentTick, ActiveInteraction, Key, ReleaseFrom;
  }

  /** The leak, from construction: the tick at 0 fetches, the weights arrive, the tick at 10 ms serves the
      early interaction, the tick at 20 ms re-uses its slot for the late one, the tick at 30 ms frees it. The
      slot is free, and one pin is left that no slot stands for. */
  lemma LeakReached(ip: IntentConfig, sizes: LodSizes, capacity: Word, d: real, at: Time, st1: Intent)
    requires Encode(sizes, 0) <= capacity
    requires var st0 := IntentTick(ip, LeakScene(), FreshIntent(1), 0).0;
      IntentComplete(sizes, capacity, LeakScene(), st0, 1, 0, d, at, st1)
    ensures var st2 := IntentTick(ip, LeakScene(), st1, 10000).0;
      var st3 := IntentTick(ip, LeakScene(), st2, 20000).0;
      var st4 := IntentTick(ip, LeakScene(), st3, 30000).0;
      && st2.slots == [CoreSlot(true, 1, 0, 25)] && Pins(st2, 1)
      && st3.slots == [CoreSlot(true, 1, 0, 30)] && Pins(st3, 2)
      && st4.slots == [CoreSlot(false, 1, 0, 30)] && Pins(st4, 1) && !Exact(st4.entries, st4.slots)
  {
    var sc := LeakScene();
    LeakActive();
    LeakFetch(ip);
    LeakArrival(sizes, capacity, sc, IntentTick(ip, sc, FreshIntent(1), 0).0, d, at, st1);
    hide IntentComplete, Encode, ActiveInteraction, VisitNpc;
    hide IntentTick;
    KeyInjective(1, EARLY.atMs, 1, LATE.atMs);
    LeakServe(ip, st1, 10000, 0, EARLY);
    var st2 := IntentTick(ip, sc, st1, 10000).0;
    LeakServe(ip, st2, 20000, 1, LATE);
    var st3 := IntentTick(ip, sc, st2, 20000).0;
    LeakRelease(ip, st3, 30000, 2);
    CountZero(IntentTick(ip, sc, st3, 30000).0.slots, CK(1, 0));
  }
}
